/** The resync barrier: while a snapshot is in flight no durable event reaches onEvent, the head is
    acknowledged only for the newest signal, and the drain delivers the waiting events that are above the
    running cursor, in order. */
module SyncBarrier {
  import opened Results
  import opened SyncEngine
  import opened SyncRuns

  // ---- what the drain delivers ----

  /** Event i is above the cursor and above every event that waited before it. */
  ghost predicate IsRecord(c: nat, es: seq<Event>, i: nat)
    requires i < |es|
  {
    && es[i].seqno.Some? && es[i].seqno.value > c
    && forall j :: 0 <= j < i && es[j].seqno.Some? ==> es[j].seqno.value < es[i].seqno.value
  }

  /** The records of a buffer, each followed by its acknowledgement. */
  ghost function Records(c: nat, es: seq<Event>): seq<Output>
    decreases |es|
  {
    if es == [] then []
    else
      var n := |es| - 1;
      Records(c, es[..n]) + (if IsRecord(c, es, n) then [Deliver(es[n]), Acknowledge(es[n].seqno.value)] else [])
  }

  predicate AllDurable(es: seq<Event>) {
    forall e :: e in es ==> e.seqno.Some?
  }

  lemma {:induction false} DrainDelivers(s: State, es: seq<Event>)
    requires AllDurable(es)
    ensures var s' := ApplyAllNow(s, es);
            && s'.outputs == s.outputs + Records(Cursor(s), es)
            && Cursor(s') >= Cursor(s)
            && (forall i :: 0 <= i < |es| ==> es[i].seqno.value <= Cursor(s'))
            && (Cursor(s') == Cursor(s) || exists i :: 0 <= i < |es| && es[i].seqno.value == Cursor(s'))
    decreases |es|
  {
    if es != [] {
      var n := |es| - 1;
      DrainDelivers(s, es[..n]);
      var m := ApplyAllNow(s, es[..n]);
      assert es[n] in es;
      DrainStep(Cursor(s), Cursor(m), es);
      assert ApplyAllNow(s, es) == ApplyNow(m, es[n]);
    }
  }

  lemma DrainStep(c: nat, top: nat, es: seq<Event>)
    requires AllDurable(es) && es != []
    requires var n := |es| - 1;
             && top >= c
             && (forall i :: 0 <= i < n ==> es[..n][i].seqno.value <= top)
             && (top == c || exists i :: 0 <= i < n && es[..n][i].seqno.value == top)
    ensures es[|es| - 1].seqno.Some?
    ensures IsRecord(c, es, |es| - 1) <==> es[|es| - 1].seqno.value > top
  {
    var n := |es| - 1;
    assert es[n] in es;
    assert forall i :: 0 <= i < n ==> es[..n][i] == es[i];
  }

  /** The step in which a resync acknowledges its head. */
  predicate Acknowledges(s: State, step: Step) {
    && step.Returned? && IsLoading(s, step.id) && step.ok
    && !Stale(s, step.id) && s.operations[step.id].phase.target == s.head
  }

  function Top(s: State, target: Option<nat>): nat {
    if target.Some? && target.value > Cursor(s) then target.value else Cursor(s)
  }

  lemma AcknowledgedDrains(s: State, target: Option<nat>)
    requires AllDurable(s.buffer)
    ensures var s', top := Acknowledged(s, target), Top(s, target);
            && s'.outputs == s.outputs + (if top > Cursor(s) then [Acknowledge(top)] else []) + Records(top, s.buffer)
            && s'.buffer == [] && s'.head == None && s'.operations == s.operations && s'.inFlight == s.inFlight
            && Cursor(s') >= top && (forall e :: e in s.buffer ==> e.seqno.value <= Cursor(s'))
            && (Cursor(s') == top || exists e :: e in s.buffer && e.seqno.value == Cursor(s'))
  {
    hide ApplyAllNow;
    hide Records;
    var top := Top(s, target);
    var a := if target.Some? && target.value > Cursor(s)
             then s.(lastSeq := target, outputs := s.outputs + [Acknowledge(target.value)]) else s;
    var b := a.(buffer := []);
    assert Cursor(b) == top && b.outputs == s.outputs + (if top > Cursor(s) then [Acknowledge(top)] else []);
    DrainDelivers(b, s.buffer);
    ApplyAllNowFrame(b, s.buffer);
    assert Acknowledged(s, target) == ApplyAllNow(b, s.buffer).(head := None);
  }

  /** The acknowledging step emits the head, if it is news, then the records of the buffer above it; it leaves
      no head and an empty buffer, and every event that waited is at or below the new cursor. */
  lemma DrainIsExact(s: State, step: Step)
    requires Inv(s) && Enabled(s, step) && Acknowledges(s, step)
    ensures var s', top := Next(s, step), Top(s, s.head);
            && s'.outputs == s.outputs + (if top > Cursor(s) then [Acknowledge(top)] else []) + Records(top, s.buffer)
            && s'.buffer == [] && s'.head == None
            && Cursor(s') >= top && (forall e :: e in s.buffer ==> e.seqno.value <= Cursor(s'))
            && (Cursor(s') == top || exists e :: e in s.buffer && e.seqno.value == Cursor(s'))
  {
    AcknowledgedDrains(WithPhase(s, step.id, Finished), s.head);
    hide Acknowledged;
    hide Records;
    hide Inv;
    assert Next(s, step) == Acknowledged(WithPhase(s, step.id, Finished), s.head);
  }

  // ---- nothing durable passes the barrier ----

  function Emitted(s: State, s': State): seq<Output> {
    if s.outputs <= s'.outputs then s'.outputs[|s.outputs|..] else []
  }

  predicate Volatile(outs: seq<Output>) {
    forall o :: o in outs ==> o.Deliver? && o.event.seqno.None?
  }

  predicate Undelivered(outs: seq<Output>) {
    forall o :: o in outs ==> Durable(o).None?
  }

  lemma {:induction false} HeldBack(s: State, es: seq<Event>)
    requires s.inFlight.Some?
    ensures var s' := ApplyAll(s, es);
            && s'.inFlight == s.inFlight && s'.lastSeq == s.lastSeq
            && s.outputs <= s'.outputs && Volatile(Emitted(s, s'))
            && s'.buffer == s.buffer + DurableOnly(es)
    decreases |es|
  {
    if es != [] {
      var n := |es| - 1;
      HeldBack(s, es[..n]);
      HeldOne(ApplyAll(s, es[..n]), es[n]);
      var m := ApplyAll(s, es[..n]);
      var s' := Apply(m, es[n]);
      assert Emitted(s, s') == Emitted(s, m) + Emitted(m, s');
    } else {
      assert Emitted(s, s) == [];
    }
  }

  lemma HeldOne(s: State, e: Event)
    requires s.inFlight.Some?
    ensures var s' := Apply(s, e);
            && s'.inFlight == s.inFlight && s'.lastSeq == s.lastSeq
            && s.outputs <= s'.outputs && Volatile(Emitted(s, s'))
            && s'.buffer == s.buffer + (if e.seqno.Some? then [e] else [])
  {
  }

  function DurableOnly(es: seq<Event>): seq<Event>
    decreases |es|
  {
    if es == [] then [] else DurableOnly(es[..|es| - 1]) + (if es[|es| - 1].seqno.Some? then [es[|es| - 1]] else [])
  }

  /** Steps other than a delivery or an acknowledgement that move the cursor: a current poll page whose next_since is
      above it, the hello of a cold start, and a seed. */
  predicate Jumps(s: State, step: Step) {
    match step
    case Polled(gen, reply) => gen == s.pollGeneration && !reply.resync && reply.nextSince.Some? && reply.nextSince.value > Cursor(s)
    case Greeted(last, resync) => !resync && s.lastSeq.None? && Safe(last).Some?
    case Seeded(n) => if s.running then s.lastSeq.None? || Seed(n) > s.lastSeq.value else s.lastSeq != Some(Seed(n))
    case _ => false
  }

  function Seed(n: int): nat {
    if 0 <= n <= MAX_SAFE then n else 0
  }

  lemma EmittedTwice(s: State, m: State, s': State)
    requires s.outputs <= m.outputs <= s'.outputs
    ensures Emitted(s, s') == Emitted(s, m) + Emitted(m, s')
  {
  }

  lemma PageHeld(s: State, gen: nat, reply: Reply)
    requires Enabled(s, Polled(gen, reply)) && s.inFlight.Some?
    ensures var s' := PollReplied(s, gen, reply);
            && s.outputs <= s'.outputs && Undelivered(Emitted(s, s'))
            && (Jumps(s, Polled(gen, reply)) <==> s'.lastSeq != s.lastSeq)
            && (!Jumps(s, Polled(gen, reply)) ==> Volatile(Emitted(s, s')))
  {
    hide ApplyAll;
    HeldBack(s, reply.events);
    var m := ApplyAll(s, reply.events);
    if gen == s.pollGeneration && !reply.resync {
      var a := Advance(m, reply.nextSince);
      EmittedTwice(s, m, a);
    }
  }

  /** While a resync is in flight a durable event is delivered only by its acknowledging step, and the cursor moves
      in that step and in those that jump, and in no other. */
  lemma BarrierHolds(s: State, step: Step)
    requires Inv(s) && Enabled(s, step) && s.inFlight.Some? && !Acknowledges(s, step)
    ensures s.outputs <= Next(s, step).outputs
    ensures Undelivered(Emitted(s, Next(s, step)))
    ensures Next(s, step).lastSeq != s.lastSeq <==> Jumps(s, step)
    ensures !Jumps(s, step) ==> Volatile(Emitted(s, Next(s, step)))
  {
    hide ApplyAllNow;
    hide Inv;
    hide PollReplied;
    match step
    case Polled(gen, reply) => PageHeld(s, gen, reply);
    case Received(e) => HeldOne(s, e);
    case _ =>
  }

  // ---- the newest head ----

  /** The safe head that a step signals. */
  function Signal(s: State, step: Step): Option<nat>
  {
    match step
    case Greeted(last, resync) => if resync then Safe(last) else None
    case Polled(gen, reply) => if gen == s.pollGeneration && reply.resync then Safe(reply.nextSince) else None
    case _ => None
  }

  /** The heads signalled since one was last acknowledged or the engine stopped. */
  function Signals(s: State, steps: seq<Step>): seq<nat>
    decreases |steps|
  {
    if steps == [] then []
    else
      var n := |steps| - 1;
      var before := Run(s, steps[..n]);
      if before.None? || steps[n].Stopped? || Acknowledges(before.value, steps[n]) then []
      else
        var signal := Signal(before.value, steps[n]);
        Signals(s, steps[..n]) + (if signal.Some? then [signal.value] else [])
  }

  predicate IsNewest(head: Option<nat>, signals: seq<nat>) {
    match head
    case None => signals == []
    case Some(h) => h in signals && forall n :: n in signals ==> n <= h
  }

  lemma HeadStep(s: State, step: Step)
    requires Enabled(s, step)
    ensures Next(s, step).head ==
      if step.Stopped? || Acknowledges(s, step) then None else Newest(s.head, Signal(s, step))
  {
    hide ApplyAll;
    hide ApplyAllNow;
    match step
    case Polled(gen, reply) => ApplyAllFrame(s, reply.events);
    case Received(e) => ApplyAllNowFrame(s, [e]);
    case _ =>
  }

  /** The head a snapshot is loaded for, and later acknowledged, is the newest one signalled: none signalled
      in the meantime is higher. */
  lemma {:induction false} HeadIsNewest(s: State, steps: seq<Step>)
    requires s.head == None && Run(s, steps).Some?
    ensures IsNewest(Run(s, steps).value.head, Signals(s, steps))
    decreases |steps|
  {
    hide Acknowledges;
    hide Next;
    hide Enabled;
    hide Signal;
    if steps != [] {
      var n := |steps| - 1;
      HeadIsNewest(s, steps[..n]);
      HeadStep(Run(s, steps[..n]).value, steps[n]);
    }
  }

  // ---- the drain to come ----

  /** Some resync in flight has yet to acknowledge, and so to drain the buffer. */
  predicate DrainAhead(s: State) {
    s.inFlight.Some? && s.inFlight.value in s.operations && s.operations[s.inFlight.value].phase != Finished
  }

  /** Only the resync in flight can acknowledge; one that has finished no longer can, although events are still
      buffered for it until its `finally` runs. */
  lemma AcknowledgesOnlyAhead(s: State, step: Step)
    requires Inv(s) && Enabled(s, step) && Acknowledges(s, step)
    ensures DrainAhead(s) && s.inFlight == Some(step.id)
  {
  }

  /** A drain ahead stays ahead until it comes, or the engine stops. */
  lemma AheadStays(s: State, step: Step)
    requires Inv(s) && Enabled(s, step) && DrainAhead(s) && !step.Stopped? && !Acknowledges(s, step)
    ensures DrainAhead(Next(s, step))
  {
    hide ApplyAllNow;
    hide ApplyAll;
    match step
    case Polled(gen, reply) => ApplyAllFrame(s, reply.events);
    case Received(e) => ApplyAllNowFrame(s, [e]);
    case _ =>
  }
}
