/** Exactly when the delivery engine of clients/core/src/sync.ts loses a durable event it has received: in every run,
    each event that waits for a snapshot has a drain ahead, and no step but the drain moves the cursor past it, if and
    only if none arrives after the drain of the flight it waits for and no jump of the cursor passes one. */
module SyncLosses {
  import opened Results
  import opened SyncEngine
  import opened SyncRuns
  import opened SyncBarrier

  // ---- what waits ----

  /** The durable events that a step puts into the buffer. */
  function Arriving(s: State, step: Step): seq<Event> {
    if s.inFlight.None? then []
    else
      match step
      case Received(e) => if e.seqno.Some? then [e] else []
      case Polled(gen, reply) => if gen == s.pollGeneration && !reply.resync then DurableOnly(reply.events) else []
      case _ => []
  }

  predicate Above(s: State, e: Event) {
    e.seqno.Some? && e.seqno.value > Cursor(s)
  }

  lemma {:induction false} NothingHeld(s: State, es: seq<Event>)
    requires s.inFlight.None?
    ensures ApplyAll(s, es) == ApplyAllNow(s, es)
    decreases |es|
  {
    if es != [] {
      NothingHeld(s, es[..|es| - 1]);
      ApplyAllNowFrame(s, es[..|es| - 1]);
    }
  }

  lemma PageBuffers(s: State, gen: nat, reply: Reply)
    requires Enabled(s, Polled(gen, reply))
    ensures PollReplied(s, gen, reply).buffer == s.buffer + Arriving(s, Polled(gen, reply))
  {
    hide ApplyAll;
    hide ApplyAllNow;
    if s.inFlight.Some? {
      HeldBack(s, reply.events);
    } else {
      NothingHeld(s, reply.events);
      ApplyAllNowFrame(s, reply.events);
    }
  }

  lemma BufferAfter(s: State, step: Step)
    requires Enabled(s, step)
    ensures Next(s, step).buffer == if step.Stopped? || Acknowledges(s, step) then [] else s.buffer + Arriving(s, step)
  {
    hide ApplyAllNow;
    hide PollReplied;
    match step
    case Polled(gen, reply) => PageBuffers(s, gen, reply);
    case Returned(id, ok) => if Acknowledges(s, step) { AcknowledgedEmpties(WithPhase(s, id, Finished), s.operations[id].phase.target); }
    case _ =>
  }

  lemma AcknowledgedEmpties(s: State, target: Option<nat>)
    ensures Acknowledged(s, target).buffer == []
  {
    hide ApplyAllNow;
    var a := if target.Some? && target.value > Cursor(s)
             then s.(lastSeq := target, outputs := s.outputs + [Acknowledge(target.value)]) else s;
    ApplyAllNowFrame(a.(buffer := []), a.buffer);
  }

  // ---- the ways to lose ----

  /** A durable event arrives for a flight whose drain is past. */
  predicate Late(s: State, step: Step) {
    Arriving(s, step) != [] && !DrainAhead(s)
  }

  /** The number to which a step jumps. */
  function Landing(s: State, step: Step): nat
    requires Jumps(s, step)
  {
    match step
    case Polled(_, reply) => reply.nextSince.value
    case Greeted(last, _) => Safe(last).value
    case Seeded(n) => Seed(n)
  }

  /** A jump during a flight that lands on or past an event that waits. */
  predicate Passes(s: State, step: Step) {
    s.inFlight.Some? && Jumps(s, step) && exists e :: e in s.buffer + Arriving(s, step) && Above(s, e) && e.seqno.value <= Landing(s, step)
  }

  /** What waits has a drain ahead. */
  predicate AllAhead(s: State) {
    s.buffer != [] ==> DrainAhead(s)
  }

  /** The cursor passes an event that waits, and not by draining it. */
  predicate Loses(s: State, step: Step)
    requires Enabled(s, step)
  {
    !Acknowledges(s, step) && exists e :: e in Next(s, step).buffer && Above(s, e) && !Above(Next(s, step), e)
  }

  lemma JumpLands(s: State, step: Step)
    requires Inv(s) && Enabled(s, step) && s.inFlight.Some? && Jumps(s, step)
    ensures Cursor(Next(s, step)) == Landing(s, step)
  {
    hide ApplyAll;
    match step
    case Polled(gen, reply) => HeldBack(s, reply.events);
    case _ =>
  }

  lemma LosesByPassing(s: State, step: Step)
    requires Inv(s) && Enabled(s, step) && s.inFlight.Some? && !Acknowledges(s, step) && !step.Stopped?
    ensures Loses(s, step) <==> Passes(s, step)
  {
    BufferAfter(s, step);
    BarrierHolds(s, step);
    if Jumps(s, step) {
      JumpLands(s, step);
    }
    hide Next;
    hide Jumps;
    hide Landing;
    hide Arriving;
    hide Inv;
  }

  lemma QuietStep(s: State, step: Step)
    requires Inv(s) && AllAhead(s) && Enabled(s, step)
    requires s.inFlight.None? || Acknowledges(s, step) || step.Stopped?
    ensures AllAhead(Next(s, step)) && !Loses(s, step) && !Late(s, step) && !Passes(s, step)
  {
    BufferAfter(s, step);
    if Acknowledges(s, step) || step.Stopped? {
      hide Next;
    } else {
      assert Next(s, step).buffer == [];
      hide Next;
    }
  }

  lemma LateOrAhead(s: State, step: Step)
    requires Inv(s) && AllAhead(s) && Enabled(s, step) && s.inFlight.Some? && !Acknowledges(s, step) && !step.Stopped?
    ensures AllAhead(Next(s, step)) <==> !Late(s, step)
  {
    BufferAfter(s, step);
    if DrainAhead(s) {
      AheadStays(s, step);
    } else if Late(s, step) {
      LateStays(s, step);
    }
    hide Next;
    hide Arriving;
    hide DrainAhead;
    hide Acknowledges;
    hide Inv;
  }

  lemma LateStays(s: State, step: Step)
    requires Enabled(s, step) && Late(s, step)
    ensures !DrainAhead(Next(s, step))
  {
    hide ApplyAll;
    match step
    case Polled(gen, reply) => ApplyAllFrame(s, reply.events);
    case _ =>
  }

  /** One step, exactly. */
  lemma StepFaithful(s: State, step: Step)
    requires Inv(s) && AllAhead(s) && Enabled(s, step)
    ensures AllAhead(Next(s, step)) && !Loses(s, step) <==> !Late(s, step) && !Passes(s, step)
  {
    if s.inFlight.None? || Acknowledges(s, step) || step.Stopped? {
      QuietStep(s, step);
    } else {
      LosesByPassing(s, step);
      LateOrAhead(s, step);
    }
    hide Inv;
    hide Next;
    hide AllAhead;
    hide Loses;
    hide Late;
    hide Passes;
    hide Acknowledges;
  }

  // ---- over whole runs ----

  /** At every point of the run what waits has a drain ahead, and no step loses any of it. */
  ghost predicate Faithful(s: State, steps: seq<Step>)
    requires Run(s, steps).Some?
    decreases |steps|
  {
    steps == [] ||
    (var n := |steps| - 1;
     Faithful(s, steps[..n]) && AllAhead(Run(s, steps).value) && !Loses(Run(s, steps[..n]).value, steps[n]))
  }

  /** No step of the run is late, and none passes an event that waits. */
  ghost predicate Orderly(s: State, steps: seq<Step>)
    requires Run(s, steps).Some?
    decreases |steps|
  {
    steps == [] ||
    (var n := |steps| - 1;
     Orderly(s, steps[..n]) && !Late(Run(s, steps[..n]).value, steps[n]) && !Passes(Run(s, steps[..n]).value, steps[n]))
  }

  lemma {:induction false} FaithfulIff(s: State, steps: seq<Step>)
    requires Inv(s) && AllAhead(s) && Run(s, steps).Some?
    ensures Faithful(s, steps) <==> Orderly(s, steps)
    ensures Faithful(s, steps) ==> AllAhead(Run(s, steps).value)
    decreases |steps|
  {
    hide Inv;
    hide AllAhead;
    hide Loses;
    hide Late;
    hide Passes;
    hide Next;
    hide Enabled;
    if steps != [] {
      var n := |steps| - 1;
      FaithfulIff(s, steps[..n]);
      InvRun(s, steps[..n]);
      if Faithful(s, steps[..n]) {
        StepFaithful(Run(s, steps[..n]).value, steps[n]);
      }
    }
  }

  // ---- what becomes of an event ----

  /** An event that came before in the sequence has as high a number. */
  predicate Earlier(es: seq<Event>, e: Event) {
    e.seqno.Some? && exists i, j :: 0 <= i < j < |es| && es[j] == e && es[i].seqno.Some? && es[i].seqno.value >= e.seqno.value
  }

  /** How an event stops waiting: the engine stops with the cursor still below it, or the drain comes, and delivers it
      unless the acknowledged head covers it or an event that waited before it has as high a number. */
  ghost predicate Resolved(s: State, step: Step, e: Event)
    requires Enabled(s, step)
  {
    e in s.buffer && Above(s, e) &&
    (step.Stopped? ||
     (Acknowledges(s, step) &&
      (Deliver(e) in Emitted(s, Next(s, step))
       || (s.head.Some? && e.seqno.value <= s.head.value)
       || Earlier(s.buffer, e))))
  }

  lemma {:induction false} RecordEmitted(c: nat, es: seq<Event>, i: nat)
    requires i < |es| && IsRecord(c, es, i)
    ensures Deliver(es[i]) in Records(c, es)
    decreases |es|
  {
    var n := |es| - 1;
    if i < n {
      assert es[..n][i] == es[i];
      RecordEmitted(c, es[..n], i);
    }
  }

  lemma DrainResolves(s: State, step: Step, e: Event)
    requires Inv(s) && Enabled(s, step) && Acknowledges(s, step) && e in s.buffer && Above(s, e)
    ensures Resolved(s, step, e)
  {
    DrainIsExact(s, step);
    hide Next;
    hide Inv;
    hide Acknowledges;
    hide Records;
    var top := Top(s, s.head);
    RecordOrCovered(top, s.buffer, e);
    hide Earlier;
    hide IsRecord;
    assert Emitted(s, Next(s, step)) == (if top > Cursor(s) then [Acknowledge(top)] else []) + Records(top, s.buffer);
  }

  lemma RecordOrCovered(top: nat, es: seq<Event>, e: Event)
    requires e in es && e.seqno.Some?
    ensures Deliver(e) in Records(top, es) || e.seqno.value <= top || Earlier(es, e)
  {
    hide Records;
    var j :| 0 <= j < |es| && es[j] == e;
    if IsRecord(top, es, j) {
      RecordEmitted(top, es, j);
    }
  }

  lemma WaitsOn(s: State, step: Step, e: Event)
    requires Inv(s) && Enabled(s, step) && e in s.buffer && Above(s, e) && !Loses(s, step)
    ensures Resolved(s, step, e) || (e in Next(s, step).buffer && Above(Next(s, step), e))
  {
    BufferAfter(s, step);
    if Acknowledges(s, step) {
      DrainResolves(s, step, e);
    }
    hide Next;
    hide Inv;
    hide Arriving;
    hide Acknowledges;
  }

  ghost predicate ResolvedIn(s: State, steps: seq<Step>, m: nat, e: Event)
    requires Run(s, steps).Some?
  {
    exists k :: m <= k < |steps| && Run(s, steps[..k]).Some? && Enabled(Run(s, steps[..k]).value, steps[k]) &&
                Resolved(Run(s, steps[..k]).value, steps[k], e)
  }

  /** In a faithful run every event that has begun to wait is resolved later in the run, or waits at its end, above
      the cursor and with a drain ahead. */
  lemma {:induction false} EveryEventResolved(s: State, steps: seq<Step>, m: nat, e: Event)
    requires Inv(s) && AllAhead(s) && Run(s, steps).Some? && Faithful(s, steps) && m <= |steps|
    requires Run(s, steps[..m]).Some? && e in Run(s, steps[..m]).value.buffer && Above(Run(s, steps[..m]).value, e)
    ensures ResolvedIn(s, steps, m, e) ||
            (e in Run(s, steps).value.buffer && Above(Run(s, steps).value, e) && DrainAhead(Run(s, steps).value))
    decreases |steps|
  {
    FaithfulIff(s, steps);
    hide Inv;
    hide Resolved;
    hide Loses;
    hide Next;
    hide Enabled;
    hide Above;
    hide DrainAhead;
    if m == |steps| {
      assert steps[..m] == steps;
    } else {
      var n := |steps| - 1;
      var before := Run(s, steps[..n]).value;
      assert steps[..n][..m] == steps[..m];
      EveryEventResolved(s, steps[..n], m, e);
      InvRun(s, steps[..n]);
      if ResolvedIn(s, steps[..n], m, e) {
        ResolvedLater(s, steps, m, e);
      } else {
        WaitsOn(before, steps[n], e);
      }
    }
  }

  lemma ResolvedLater(s: State, steps: seq<Step>, m: nat, e: Event)
    requires Run(s, steps).Some? && steps != [] && ResolvedIn(s, steps[..|steps| - 1], m, e)
    ensures ResolvedIn(s, steps, m, e)
  {
    hide Resolved;
    hide Next;
    hide Enabled;
    var n := |steps| - 1;
    var k :| m <= k < n && Run(s, steps[..n][..k]).Some? && Enabled(Run(s, steps[..n][..k]).value, steps[..n][k]) &&
             Resolved(Run(s, steps[..n][..k]).value, steps[..n][k], e);
    assert steps[..n][..k] == steps[..k] && steps[..n][k] == steps[k];
  }

  // ---- what becomes of an event when it arrives ----

  /** The events that a step receives; a superseded page is discarded unread. */
  function Receives(s: State, step: Step): seq<Event> {
    match step
    case Received(e) => [e]
    case Polled(gen, reply) => if gen == s.pollGeneration && !reply.resync then reply.events else []
    case _ => []
  }

  lemma {:induction false} DurableKept(es: seq<Event>, e: Event)
    requires e in es && e.seqno.Some?
    ensures e in DurableOnly(es)
    decreases |es|
  {
    var n := |es| - 1;
    if e in es[..n] {
      DurableKept(es[..n], e);
    } else {
      assert e == es[n];
    }
  }

  /** The events are applied at once, and the cursor ends where it was or at one of them. */
  lemma {:induction false} AppliedAtOnce(s: State, es: seq<Event>)
    ensures var s' := ApplyAllNow(s, es);
            && s.outputs <= s'.outputs
            && (Cursor(s') == Cursor(s) || exists i :: 0 <= i < |es| && es[i].seqno == Some(Cursor(s')))
            && forall j :: 0 <= j < |es| && es[j].seqno.Some? && Above(s, es[j]) ==>
                 Deliver(es[j]) in Emitted(s, s') || Earlier(es, es[j])
    decreases |es|
  {
    if es != [] {
      var n := |es| - 1;
      AppliedAtOnce(s, es[..n]);
      var m := ApplyAllNow(s, es[..n]);
      AppliedLast(s, m, es);
      EarlierGrows(es);
      hide *;
      AppliedTwice(s, m, ApplyNow(m, es[n]), es[..n], es);
    }
  }

  lemma AppliedTwice(s: State, m: State, s': State, first: seq<Event>, es: seq<Event>)
    requires es != [] && first == es[..|es| - 1] && s.outputs <= m.outputs <= s'.outputs
    requires forall e :: Earlier(first, e) ==> Earlier(es, e)
    requires forall j :: 0 <= j < |first| && first[j].seqno.Some? && Above(s, first[j]) ==>
               Deliver(first[j]) in Emitted(s, m) || Earlier(first, first[j])
    requires var e := es[|es| - 1]; e.seqno.Some? && Above(s, e) ==> Deliver(e) in Emitted(s, s') || Earlier(es, e)
    ensures forall j :: 0 <= j < |es| && es[j].seqno.Some? && Above(s, es[j]) ==> Deliver(es[j]) in Emitted(s, s') || Earlier(es, es[j])
  {
    EmittedTwice(s, m, s');
    hide Earlier;
    hide Above;
    hide Emitted;
    forall j | 0 <= j < |es| && es[j].seqno.Some? && Above(s, es[j])
      ensures Deliver(es[j]) in Emitted(s, s') || Earlier(es, es[j])
    {
      if j < |first| {
        assert first[j] == es[j];
      }
    }
  }

  lemma EarlierGrows(es: seq<Event>)
    requires es != []
    ensures forall e :: Earlier(es[..|es| - 1], e) ==> Earlier(es, e)
  {
    var n := |es| - 1;
    forall e | Earlier(es[..n], e)
      ensures Earlier(es, e)
    {
      var i, j :| 0 <= i < j < n && es[..n][j] == e && es[..n][i].seqno.Some? && es[..n][i].seqno.value >= e.seqno.value;
      assert es[j] == e && es[i] == es[..n][i];
    }
  }

  lemma AppliedLast(s: State, m: State, es: seq<Event>)
    requires es != [] && s.outputs <= m.outputs
    requires var n := |es| - 1; Cursor(m) == Cursor(s) || exists i :: 0 <= i < n && es[..n][i].seqno == Some(Cursor(m))
    ensures var n, s' := |es| - 1, ApplyNow(m, es[|es| - 1]);
            && m.outputs <= s'.outputs
            && (Cursor(s') == Cursor(s) || exists i :: 0 <= i < |es| && es[i].seqno == Some(Cursor(s')))
            && (es[n].seqno.Some? && Above(s, es[n]) ==> Deliver(es[n]) in Emitted(s, s') || Earlier(es, es[n]))
  {
    var n, s' := |es| - 1, ApplyNow(m, es[|es| - 1]);
    if Cursor(m) != Cursor(s) {
      var i :| 0 <= i < n && es[..n][i].seqno == Some(Cursor(m));
      assert es[i].seqno == Some(Cursor(m));
    }
    if es[n].seqno.Some? && es[n].seqno.value > Cursor(m) {
      assert Emitted(s, s') == Emitted(s, m) + [Deliver(es[n]), Acknowledge(es[n].seqno.value)];
    }
  }

  lemma PageOpens(s: State, gen: nat, reply: Reply, e: Event)
    requires Enabled(s, Polled(gen, reply)) && s.inFlight.None? && gen == s.pollGeneration && !reply.resync
    requires e in reply.events && Above(s, e)
    ensures Deliver(e) in Emitted(s, PollReplied(s, gen, reply)) || Earlier(reply.events, e)
  {
    NothingHeld(s, reply.events);
    AppliedAtOnce(s, reply.events);
    ApplyAllNowFrame(s, reply.events);
    hide ApplyAllNow;
    hide ApplyAll;
    hide Earlier;
    var m := ApplyAll(s, reply.events);
    EmittedTwice(s, m, Advance(m, reply.nextSince));
  }

  /** A durable event that a step receives above the cursor is delivered in that step, or passed by an earlier event
      of its page, or begins to wait. */
  lemma ArrivalResolved(s: State, step: Step, e: Event)
    requires Inv(s) && Enabled(s, step) && e in Receives(s, step) && Above(s, e)
    ensures Deliver(e) in Emitted(s, Next(s, step)) || Earlier(Receives(s, step), e) || e in Next(s, step).buffer
  {
    if s.inFlight.Some? {
      BufferAfter(s, step);
      DurableKept(Receives(s, step), e);
      assert e in Arriving(s, step);
      hide Next;
    } else if step.Polled? {
      PageOpens(s, step.gen, step.reply, e);
      hide PollReplied;
    } else {
      assert Emitted(s, Next(s, step)) == [Deliver(e), Acknowledge(e.seqno.value)];
    }
    hide Earlier;
    hide Inv;
  }

  /** In a faithful run, every durable event that is received above the cursor is delivered in the step that receives
      it, or passed by an earlier event of its page, or waits; and what waits is resolved later, or still has its drain
      ahead. */
  lemma EveryEventAccounted(s: State, steps: seq<Step>, k: nat, e: Event)
    requires Inv(s) && AllAhead(s) && Run(s, steps).Some? && Faithful(s, steps) && k < |steps|
    requires Run(s, steps[..k]).Some? && Enabled(Run(s, steps[..k]).value, steps[k])
    requires e in Receives(Run(s, steps[..k]).value, steps[k]) && Above(Run(s, steps[..k]).value, e)
    ensures var t := Run(s, steps[..k]).value;
            || Deliver(e) in Emitted(t, Next(t, steps[k]))
            || Earlier(Receives(t, steps[k]), e)
            || ResolvedIn(s, steps, k + 1, e)
            || (e in Run(s, steps).value.buffer && Above(Run(s, steps).value, e) && DrainAhead(Run(s, steps).value))
  {
    var t := Run(s, steps[..k]).value;
    InvRun(s, steps[..k]);
    ArrivalResolved(t, steps[k], e);
    assert steps[..k + 1][..k] == steps[..k];
    assert Run(s, steps[..k + 1]) == Some(Next(t, steps[k]));
    hide Inv;
    hide Next;
    hide Enabled;
    hide Receives;
    hide Earlier;
    hide AllAhead;
    hide DrainAhead;
    if e in Next(t, steps[k]).buffer {
      FaithfulPrefix(s, steps, k + 1);
      NotLost(s, steps, k, e);
      hide Run;
      EveryEventResolved(s, steps, k + 1, e);
    }
  }

  lemma NotLost(s: State, steps: seq<Step>, k: nat, e: Event)
    requires k < |steps| && Run(s, steps[..k + 1]).Some? && Faithful(s, steps[..k + 1])
    requires Run(s, steps[..k]).Some? && Enabled(Run(s, steps[..k]).value, steps[k])
    requires var t := Run(s, steps[..k]).value; Above(t, e) && e in Next(t, steps[k]).buffer
    ensures Above(Next(Run(s, steps[..k]).value, steps[k]), e)
  {
    assert steps[..k + 1][..k] == steps[..k];
    var t := Run(s, steps[..k]).value;
    assert !Loses(t, steps[k]);
    if Acknowledges(t, steps[k]) {
      BufferAfter(t, steps[k]);
    }
    hide Next;
    hide Run;
  }

  lemma {:induction false} FaithfulPrefix(s: State, steps: seq<Step>, m: nat)
    requires Run(s, steps).Some? && Faithful(s, steps) && m <= |steps|
    ensures Run(s, steps[..m]).Some? && Faithful(s, steps[..m])
    decreases |steps|
  {
    if m == |steps| {
      assert steps[..m] == steps;
    } else {
      assert steps[..|steps| - 1][..m] == steps[..m];
      FaithfulPrefix(s, steps[..|steps| - 1], m);
    }
  }

  // ---- a loss is final ----

  /** An event that the cursor has passed while it waited is not delivered in any later run. */
  lemma LostForGood(s: State, step: Step, after: seq<Step>, e: Event)
    requires Enabled(s, step) && e in Next(s, step).buffer && Above(s, e) && !Above(Next(s, step), e)
    requires Run(Next(s, step), after).Some? && Unseeded(Next(s, step), after)
    ensures var t := Next(s, step);
            t.outputs <= Run(t, after).value.outputs && Deliver(e) !in Emitted(t, Run(t, after).value)
  {
    var t := Next(s, step);
    RunAppends(t, after);
    hide Next;
    hide Run;
    hide Unseeded;
    var outs := Emitted(t, Run(t, after).value);
    if Deliver(e) in outs {
      var i :| 0 <= i < |outs| && outs[i] == Deliver(e);
      DeliveredAbove(Cursor(t), outs, i);
    }
  }

  lemma {:induction false} DeliveredAbove(c: nat, outs: seq<Output>, i: nat)
    requires InOrder(c, outs) && i < |outs| && outs[i].Deliver? && outs[i].event.seqno.Some?
    ensures outs[i].event.seqno.value > c
    decreases |outs|
  {
    var n := |outs| - 1;
    if i < n {
      DeliveredAbove(c, outs[..n], i);
    } else if n > 0 {
      InOrderAbove(c, outs[..n], 0);
    }
  }

  // ---- the two ways are real ----

  function Initial(): State {
    State(None, false, false, false, 0, 0, None, None, [], map[], 0, map[], [])
  }

  const POLLING := map[1 := Requesting, 3 := Requesting]
  const LOADING := map[0 := Operation(1, Loading(Some(6)))]

  /** A cold engine is seeded with 5 and started; its socket opens and asks for a resync to 6, and closes again, so that
      a new poll loop runs beside the resync. */
  const STARTING := [Seeded(5), Started]
  const OPENED := STARTING + [Socket(true)]
  const SIGNALLED := OPENED + [Greeted(Some(6), true)]
  const GREETING := SIGNALLED + [Socket(false)]

  function Running5(): State {
    State(Some(5), true, false, true, 1, 1, None, None, [], map[], 0, map[1 := Requesting], [])
  }

  function Greeted6(): State {
    State(Some(5), true, false, true, 3, 1, Some(0), Some(6), [], LOADING, 1, POLLING, [])
  }

  lemma Running5Reached()
    ensures Run(Initial(), STARTING) == Some(Running5())
  {
    var s1 := Initial().(lastSeq := Some(5));
    assert Next(s1, Started) == Running5() by { assert s1.loops[1 := Requesting] == map[1 := Requesting]; }
    RunsOn(Initial(), [], Initial(), Seeded(5), s1);
    assert [] + [Seeded(5)] == [Seeded(5)];
    RunsOn(Initial(), [Seeded(5)], s1, Started, Running5());
    assert [Seeded(5)] + [Started] == STARTING;
  }

  lemma Greeted6Reached()
    ensures Run(Initial(), GREETING) == Some(Greeted6())
  {
    var s2 := Running5().(open := true, pollGeneration := 2, pollLoopActive := false);
    var s3 := s2.(head := Some(6), inFlight := Some(0), nextOperation := 1, operations := LOADING);
    Running5Reached();
    hide Run;
    assert Next(Running5(), Socket(true)) == s2;
    assert Next(s2, Greeted(Some(6), true)) == s3 by { assert s2.operations[0 := Operation(1, Loading(Some(6)))] == LOADING; }
    assert Next(s3, Socket(false)) == Greeted6() by { assert s3.loops[3 := Requesting] == POLLING; }
    hide Next;
    RunsOn(Initial(), STARTING, Running5(), Socket(true), s2);
    RunsOn(Initial(), OPENED, s2, Greeted(Some(6), true), s3);
    RunsOn(Initial(), SIGNALLED, s3, Socket(false), Greeted6());
  }

  lemma RunsOn(s: State, steps: seq<Step>, t: State, step: Step, u: State)
    requires Run(s, steps) == Some(t) && Enabled(t, step) && Next(t, step) == u
    ensures Run(s, steps + [step]) == Some(u)
  {
    assert (steps + [step])[..|steps|] == steps;
  }

  /** A page of the poll loop beside the resync: one event, and its number as the next cursor. */
  function Page(e: Event): Step {
    Polled(3, Reply(false, Some(7), [e]))
  }

  lemma PageTaken(s: State, e: Event)
    requires e.seqno == Some(7) && s.inFlight.Some? && Cursor(s) < 7
    requires s.running && !s.open && s.pollGeneration == 3 && s.loops == POLLING
    ensures Enabled(s, Page(e)) && Next(s, Page(e)) == s.(lastSeq := Some(7), buffer := s.buffer + [e], outputs := s.outputs + [Acknowledge(7)])
  {
    assert [e][..0] == [] && ApplyAll(s, [e]) == Apply(s, e) == s.(buffer := s.buffer + [e]);
    var a := Advance(s.(buffer := s.buffer + [e]), Some(7));
    assert PollAgain(a, 3) == a by { assert a.loops[3 := Requesting] == a.loops; }
  }

  /** A page during a flight: it moves the cursor past the event that it has just put into the buffer, and the drain
      drops the event. */
  lemma LostToPage(e: Event)
    requires e.seqno == Some(7)
    ensures Run(Initial(), GREETING).Some?
    ensures var s := Run(Initial(), GREETING).value; Enabled(s, Page(e)) && Passes(s, Page(e)) && Loses(s, Page(e))
    ensures var end := Run(Initial(), GREETING + [Page(e)] + [Returned(0, true)]);
            end.Some? && Cursor(end.value) == 7 && end.value.buffer == [] && end.value.outputs == [Acknowledge(7)]
  {
    var s := Greeted6();
    var t := s.(lastSeq := Some(7), buffer := [e], outputs := [Acknowledge(7)]);
    Greeted6Reached();
    PageTaken(s, e);
    hide Run;
    assert s.outputs + [Acknowledge(7)] == [Acknowledge(7)];
    assert Next(s, Page(e)) == t;
    assert e in t.buffer && e in s.buffer + Arriving(s, Page(e)) by { DurableKept([e], e); }
    hide PollReplied;
    RunsOn(Initial(), GREETING, s, Page(e), t);
    PageDrained(e, t);
    RunsOn(Initial(), GREETING + [Page(e)], t, Returned(0, true), Next(t, Returned(0, true)));
    hide Next;
  }

  lemma PageDrained(e: Event, s: State)
    requires e.seqno == Some(7) && s == Greeted6().(lastSeq := Some(7), buffer := [e], outputs := [Acknowledge(7)])
    ensures Enabled(s, Returned(0, true))
    ensures var t := Next(s, Returned(0, true)); t.lastSeq == Some(7) && t.buffer == [] && t.outputs == [Acknowledge(7)]
  {
    var w := WithPhase(s, 0, Finished);
    AcknowledgedDrains(w, Some(6));
    assert !IsRecord(7, [e], 0) && Records(7, [e]) == Records(7, []) == [];
    hide Acknowledged;
    hide Records;
    assert Next(s, Returned(0, true)) == Acknowledged(w, Some(6));
    assert e in w.buffer;
  }

  function Drained6(): State {
    Greeted6().(lastSeq := Some(6), head := None, operations := map[0 := Operation(1, Finished)], outputs := [Acknowledge(6)])
  }

  lemma Drained6Reached()
    ensures Run(Initial(), GREETING + [Returned(0, true)]) == Some(Drained6())
  {
    var s := Greeted6();
    Greeted6Reached();
    hide Run;
    assert Next(s, Returned(0, true)) == Drained6() by {
      assert s.operations[0 := Operation(1, Finished)] == map[0 := Operation(1, Finished)];
      assert s.outputs + [Acknowledge(6)] == [Acknowledge(6)];
      assert ApplyAllNow(Drained6().(head := Some(6)), []) == Drained6().(head := Some(6));
    }
    RunsOn(Initial(), GREETING, s, Returned(0, true), Drained6());
  }

  /** The same page, taken between the drain and the `finally` of the resync: the event stays in the buffer of a flight
      that is over, below the cursor. */
  lemma LostInGap(e: Event)
    requires e.seqno == Some(7)
    ensures Run(Initial(), GREETING + [Returned(0, true)]).Some?
    ensures var s := Run(Initial(), GREETING + [Returned(0, true)]).value; Enabled(s, Page(e)) && Late(s, Page(e)) && Loses(s, Page(e))
    ensures var end := Run(Initial(), GREETING + [Returned(0, true)] + [Page(e)] + [Settled(0)]);
            end.Some? && Cursor(end.value) == 7 && end.value.buffer == [e] && end.value.inFlight == None &&
            end.value.outputs == [Acknowledge(6), Acknowledge(7)]
  {
    var s := Drained6();
    var t := s.(lastSeq := Some(7), buffer := [e], outputs := [Acknowledge(6), Acknowledge(7)]);
    Drained6Reached();
    PageTaken(s, e);
    hide Run;
    assert s.outputs + [Acknowledge(7)] == [Acknowledge(6), Acknowledge(7)];
    assert Next(s, Page(e)) == t;
    assert e in t.buffer && e in Arriving(s, Page(e)) by { DurableKept([e], e); }
    hide PollReplied;
    RunsOn(Initial(), GREETING + [Returned(0, true)], s, Page(e), t);
    RunsOn(Initial(), GREETING + [Returned(0, true)] + [Page(e)], t, Settled(0), Next(t, Settled(0)));
  }
}
