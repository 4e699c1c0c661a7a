/** Properties of every run of the delivery engine, whatever order the sockets, the polls, the snapshots and
    the callers choose. */
module SyncRuns {
  import opened Results
  import opened SyncEngine

  datatype Step =
    | Seeded(n: int)
    | Greeted(last: Option<int>, resync: bool)
    | Socket(open: bool)
    | Started
    | Stopped
    | Received(e: Event)
    | Returned(id: nat, ok: bool)
    | Woke(id: nat)
    | Settled(id: nat)
    | Polled(gen: nat, reply: Reply)
    | PollError(gen: nat)
    | PollWoke(gen: nat)
    | PollResumed(gen: nat)

  predicate Enabled(s: State, step: Step) {
    match step
    case Returned(id, _) => IsLoading(s, id)
    case Woke(id) => IsIn(s, id, Sleeping)
    case Settled(id) => IsIn(s, id, Finished)
    case Polled(gen, _) => gen in s.loops && s.loops[gen] == Requesting
    case PollError(gen) => gen in s.loops && s.loops[gen] == Requesting
    case PollWoke(gen) => gen in s.loops && s.loops[gen] == Backoff
    case PollResumed(gen) => gen in s.loops && s.loops[gen].AwaitingResync? && s.loops[gen].operation !in s.operations
    case _ => true
  }

  function Next(s: State, step: Step): State
    requires Enabled(s, step)
  {
    match step
    case Seeded(n) => SetCursor(s, n)
    case Greeted(last, resync) => Hello(s, last, resync)
    case Socket(open) => SocketState(s, open)
    case Started => Start(s)
    case Stopped => Stop(s)
    case Received(e) => Apply(s, e)
    case Returned(id, ok) => ResyncReturned(s, id, ok)
    case Woke(id) => ResyncWoke(s, id)
    case Settled(id) => ResyncSettled(s, id)
    case Polled(gen, reply) => PollReplied(s, gen, reply)
    case PollError(gen) => PollFailed(s, gen)
    case PollWoke(gen) => PollAgain(s, gen)
    case PollResumed(gen) => PollAgain(s, gen)
  }

  /** The state after the steps, if each was enabled in its turn. */
  function Run(s: State, steps: seq<Step>): (end: Option<State>)
    decreases |steps|
  {
    if steps == [] then Some(s)
    else
      var n := |steps| - 1;
      var before := Run(s, steps[..n]);
      if before.Some? && Enabled(before.value, steps[n]) then Some(Next(before.value, steps[n])) else None
  }

  // ---- the invariant ----

  /** Only the resync in flight can still act, and it belongs to the running lifecycle. */
  ghost predicate Inv(s: State) {
    && (forall id :: id in s.operations ==> id < s.nextOperation && s.operations[id].generation <= s.lifecycle)
    && (s.inFlight.Some? ==> s.inFlight.value in s.operations)
    && (forall id :: id in s.operations && s.operations[id].phase != Finished ==>
          (s.inFlight == Some(id) <==> s.running && s.operations[id].generation == s.lifecycle))
    && (forall e :: e in s.buffer ==> e.seqno.Some?)
  }

  lemma InvInitially(s: State)
    requires s.operations == map[] && s.inFlight == None && s.buffer == []
    ensures Inv(s)
  {
  }

  lemma {:induction false} ApplyAllNowFrame(s: State, es: seq<Event>)
    ensures var s' := ApplyAllNow(s, es); s' == s.(lastSeq := s'.lastSeq, outputs := s'.outputs)
    decreases |es|
  {
    if es != [] { ApplyAllNowFrame(s, es[..|es| - 1]); }
  }

  lemma {:induction false} ApplyAllFrame(s: State, es: seq<Event>)
    ensures var s' := ApplyAll(s, es); s' == s.(lastSeq := s'.lastSeq, outputs := s'.outputs, buffer := s'.buffer)
    ensures (forall e :: e in s.buffer ==> e.seqno.Some?) ==> forall e :: e in ApplyAll(s, es).buffer ==> e.seqno.Some?
    decreases |es|
  {
    if es != [] { ApplyAllFrame(s, es[..|es| - 1]); }
  }

  /** The invariant speaks of these fields only. */
  lemma InvFrame(s: State, s': State)
    requires Inv(s)
    requires s'.operations == s.operations && s'.nextOperation == s.nextOperation && s'.lifecycle == s.lifecycle
    requires s'.inFlight == s.inFlight && s'.running == s.running
    requires forall e :: e in s'.buffer ==> e.seqno.Some?
    ensures Inv(s')
  {
  }

  lemma InvSignal(s: State, head: Option<int>)
    requires Inv(s)
    ensures Inv(Resync(s, head))
  {
  }

  /** A suspended resync may move to any phase; to go on loading it must still be the one in flight. */
  lemma InvPhase(s: State, id: nat, phase: Phase)
    requires Inv(s) && id in s.operations
    requires phase != Finished ==> s.operations[id].phase != Finished
    ensures Inv(WithPhase(s, id, phase))
  {
  }

  lemma InvReturned(s: State, id: nat, ok: bool)
    requires Inv(s) && IsLoading(s, id)
    ensures Inv(ResyncReturned(s, id, ok))
  {
    hide ApplyAllNow;
    hide Inv;
    var target := s.operations[id].phase.target;
    InvPhase(s, id, Finished);
    InvPhase(s, id, Sleeping);
    InvPhase(s, id, Loading(s.head));
    var w := WithPhase(s, id, Finished);
    var a := if target.Some? && target.value > Cursor(w) then w.(lastSeq := target, outputs := w.outputs + [Acknowledge(target.value)]) else w;
    ApplyAllNowFrame(a.(buffer := []), a.buffer);
    InvFrame(w, Acknowledged(w, target));
  }

  lemma InvPolled(s: State, gen: nat, reply: Reply)
    requires Inv(s) && Enabled(s, Polled(gen, reply))
    ensures Inv(PollReplied(s, gen, reply))
  {
    hide ApplyAll;
    hide Resync;
    var m := if reply.resync then Resync(s, reply.nextSince) else ApplyAll(s, reply.events);
    InvSignal(s, reply.nextSince);
    ApplyAllFrame(s, reply.events);
    assert forall e :: e in s.buffer ==> e.seqno.Some?;
    hide Inv;
    if gen != s.pollGeneration {
      BufferIsDurable(s);
      InvFrame(s, PollReplied(s, gen, reply));
    } else {
      if !reply.resync { BufferIsDurable(s); InvFrame(s, m); }
      BufferIsDurable(m);
      InvFrame(m, PollReplied(s, gen, reply));
    }
  }

  lemma BufferIsDurable(s: State)
    requires Inv(s)
    ensures forall e :: e in s.buffer ==> e.seqno.Some?
  {
  }

  lemma InvSettled(s: State, id: nat)
    requires Inv(s) && IsIn(s, id, Finished)
    ensures Inv(ResyncSettled(s, id))
  {
  }

  lemma InvLifecycle(s: State)
    requires Inv(s)
    ensures Inv(Start(s)) && Inv(Stop(s))
  {
  }

  lemma InvSocket(s: State, open: bool)
    requires Inv(s)
    ensures Inv(SocketState(s, open))
  {
  }

  lemma InvAgain(s: State, gen: nat)
    requires Inv(s)
    ensures Inv(PollAgain(s, gen))
  {
  }

  lemma InvFailed(s: State, gen: nat)
    requires Inv(s) && gen in s.loops && s.loops[gen] == Requesting
    ensures Inv(PollFailed(s, gen))
  {
  }

  lemma InvPolling(s: State, step: Step)
    requires Inv(s) && Enabled(s, step) && (step.Socket? || step.PollError? || step.PollWoke? || step.PollResumed?)
    ensures Inv(Next(s, step))
  {
    match step {
      case Socket(open) => InvSocket(s, open);
      case PollError(gen) => InvFailed(s, gen);
      case PollWoke(gen) => InvAgain(s, gen);
      case PollResumed(gen) => InvAgain(s, gen);
    }
    hide Inv;
    hide PollAgain;
    hide PollFailed;
    hide SocketState;
  }

  lemma InvSeeded(s: State, n: int)
    requires Inv(s)
    ensures Inv(SetCursor(s, n))
  {
    BufferIsDurable(s);
    hide Inv;
    InvFrame(s, SetCursor(s, n));
  }

  lemma InvReceived(s: State, e: Event)
    requires Inv(s)
    ensures Inv(Apply(s, e))
  {
    BufferIsDurable(s);
    hide Inv;
    InvFrame(s, Apply(s, e));
  }

  lemma InvGreeted(s: State, last: Option<int>)
    requires Inv(s)
    ensures Inv(Hello(s, last, false))
  {
    BufferIsDurable(s);
    hide Inv;
    InvFrame(s, Hello(s, last, false));
  }

  lemma InvStep(s: State, step: Step)
    requires Inv(s) && Enabled(s, step)
    ensures Inv(Next(s, step))
  {
    match step {
      case Returned(id, ok) => InvReturned(s, id, ok);
      case Polled(gen, reply) => InvPolled(s, gen, reply);
      case Woke(id) => InvPhase(s, id, if Stale(s, id) then Finished else Loading(s.head));
      case Settled(id) => InvSettled(s, id);
      case Greeted(last, resync) => if resync { InvSignal(s, last); } else { InvGreeted(s, last); }
      case Stopped => InvLifecycle(s);
      case Started => InvLifecycle(s);
      case Seeded(n) => InvSeeded(s, n);
      case Received(e) => InvReceived(s, e);
      case _ => InvPolling(s, step);
    }
    hide Inv;
    hide Resync;
    hide WithPhase;
    hide Start;
    hide Stop;
    hide ResyncReturned;
    hide ResyncSettled;
    hide PollReplied;
    hide PollAgain;
    hide PollFailed;
    hide SocketState;
    hide SetCursor;
    hide Apply;
  }

  lemma {:induction false} InvRun(s: State, steps: seq<Step>)
    requires Inv(s) && Run(s, steps).Some?
    ensures Inv(Run(s, steps).value)
    decreases |steps|
  {
    hide Inv;
    if steps != [] {
      var n := |steps| - 1;
      InvRun(s, steps[..n]);
      InvStep(Run(s, steps[..n]).value, steps[n]);
    }
  }

  // ---- one cursor, in order ----

  /** The highest sequence number in a stretch of calls, or the starting cursor. */
  function After(c: nat, outs: seq<Output>): nat
    decreases |outs|
  {
    if outs == [] then c
    else
      var before, last := After(c, outs[..|outs| - 1]), outs[|outs| - 1];
      match last
      case Deliver(e) => if e.seqno.Some? && e.seqno.value > before then e.seqno.value else before
      case Acknowledge(n) => if n > before then n else before
  }

  /** A durable event comes above everything before it, and an acknowledgement is never below. */
  predicate Follows(c: nat, o: Output) {
    match o
    case Deliver(e) => e.seqno.Some? ==> e.seqno.value > c
    case Acknowledge(n) => n >= c
  }

  predicate InOrder(c: nat, outs: seq<Output>)
    decreases |outs|
  {
    outs == [] || (var n := |outs| - 1; InOrder(c, outs[..n]) && Follows(After(c, outs[..n]), outs[n]))
  }

  lemma {:induction false} InOrderConcat(c: nat, p: seq<Output>, q: seq<Output>)
    ensures After(c, p + q) == After(After(c, p), q)
    ensures InOrder(c, p + q) <==> InOrder(c, p) && InOrder(After(c, p), q)
    decreases |q|
  {
    if q == [] {
      assert p + q == p;
    } else {
      var n := |q| - 1;
      InOrderConcat(c, p, q[..n]);
      assert (p + q)[..|p| + n] == p + q[..n];
    }
  }

  /** The step appended calls in order, above the cursor it began with. */
  ghost predicate Appends(s: State, s': State) {
    && s.outputs <= s'.outputs
    && InOrder(Cursor(s), s'.outputs[|s.outputs|..])
    && After(Cursor(s), s'.outputs[|s.outputs|..]) <= Cursor(s')
  }

  lemma AppendsTrans(s: State, m: State, s': State)
    requires Appends(s, m) && Appends(m, s')
    ensures Appends(s, s')
  {
    var p, q := m.outputs[|s.outputs|..], s'.outputs[|m.outputs|..];
    assert s'.outputs[|s.outputs|..] == p + q;
    InOrderConcat(Cursor(s), p, q);
    InOrderWeaken(After(Cursor(s), p), Cursor(m), q);
  }

  lemma {:induction false} InOrderWeaken(c: nat, c': nat, outs: seq<Output>)
    requires c <= c' && InOrder(c', outs)
    ensures InOrder(c, outs) && After(c, outs) <= After(c', outs)
    decreases |outs|
  {
    if outs != [] {
      InOrderWeaken(c, c', outs[..|outs| - 1]);
    }
  }

  lemma AppendsNothing(s: State, s': State)
    requires s'.outputs == s.outputs && Cursor(s) <= Cursor(s')
    ensures Appends(s, s')
  {
    assert s'.outputs[|s.outputs|..] == [];
  }

  lemma AppendsOne(s: State, s': State, o: Output)
    requires s'.outputs == s.outputs + [o] && Follows(Cursor(s), o) && After(Cursor(s), [o]) <= Cursor(s')
    ensures Appends(s, s')
  {
    assert s'.outputs[|s.outputs|..] == [o];
    assert [o][..0] == [];
  }

  lemma ApplyNowAppends(s: State, e: Event)
    ensures Appends(s, ApplyNow(s, e))
  {
    var s' := ApplyNow(s, e);
    if e.seqno.None? {
      assert [Deliver(e)][..0] == [];
      AppendsOne(s, s', Deliver(e));
    } else if e.seqno.value <= Cursor(s) {
      AppendsNothing(s, s');
    } else {
      var n := e.seqno.value;
      var m := s.(lastSeq := e.seqno, outputs := s.outputs + [Deliver(e)]);
      assert [Deliver(e)][..0] == [] && [Acknowledge(n)][..0] == [];
      AppendsOne(s, m, Deliver(e));
      assert s'.outputs == m.outputs + [Acknowledge(n)];
      AppendsOne(m, s', Acknowledge(n));
      AppendsTrans(s, m, s');
    }
  }

  lemma {:induction false} ApplyAllNowAppends(s: State, es: seq<Event>)
    ensures Appends(s, ApplyAllNow(s, es))
    decreases |es|
  {
    hide Appends;
    hide ApplyNow;
    if es == [] {
      AppendsNothing(s, s);
    } else {
      var n := |es| - 1;
      ApplyAllNowAppends(s, es[..n]);
      ApplyNowAppends(ApplyAllNow(s, es[..n]), es[n]);
      AppendsTrans(s, ApplyAllNow(s, es[..n]), ApplyAllNow(s, es));
    }
  }

  lemma {:induction false} ApplyAllAppends(s: State, es: seq<Event>)
    ensures Appends(s, ApplyAll(s, es))
    decreases |es|
  {
    hide Appends;
    hide ApplyNow;
    if es == [] {
      AppendsNothing(s, s);
    } else {
      var n := |es| - 1;
      var m := ApplyAll(s, es[..n]);
      ApplyAllAppends(s, es[..n]);
      if es[n].seqno.Some? && m.inFlight.Some? {
        AppendsNothing(m, Apply(m, es[n]));
      } else {
        ApplyNowAppends(m, es[n]);
      }
      AppendsTrans(s, m, ApplyAll(s, es));
    }
  }

  lemma AcknowledgedAppends(s: State, target: Option<nat>)
    ensures Appends(s, Acknowledged(s, target))
  {
    hide Appends;
    hide ApplyAllNow;
    var m := if target.Some? && target.value > Cursor(s)
             then s.(lastSeq := target, outputs := s.outputs + [Acknowledge(target.value)]) else s;
    if m == s {
      AppendsNothing(s, s);
    } else {
      assert [Acknowledge(target.value)][..0] == [];
      AppendsOne(s, m, Acknowledge(target.value));
    }
    var d := ApplyAllNow(m.(buffer := []), m.buffer);
    ApplyAllNowAppends(m.(buffer := []), m.buffer);
    AppendsNothing(m, m.(buffer := []));
    AppendsTrans(s, m, m.(buffer := []));
    AppendsTrans(s, m.(buffer := []), d);
    AppendsNothing(d, Acknowledged(s, target));
    AppendsTrans(s, d, Acknowledged(s, target));
  }

  lemma PolledAppends(s: State, gen: nat, reply: Reply)
    requires Enabled(s, Polled(gen, reply))
    ensures Appends(s, PollReplied(s, gen, reply))
  {
    hide Appends;
    hide ApplyAll;
    var s' := PollReplied(s, gen, reply);
    if gen != s.pollGeneration || reply.resync {
      AppendsNothing(s, s');
    } else {
      var m := ApplyAll(s, reply.events);
      ApplyAllAppends(s, reply.events);
      var a := Advance(m, reply.nextSince);
      if a == m {
        AppendsNothing(m, a);
      } else {
        assert [Acknowledge(reply.nextSince.value)][..0] == [];
        AppendsOne(m, a, Acknowledge(reply.nextSince.value));
      }
      AppendsTrans(s, m, a);
      AppendsNothing(a, s');
      AppendsTrans(s, a, s');
    }
  }

  /** Seeding a stopped engine may move the cursor back; nothing else does. */
  predicate Reseeds(s: State, step: Step) {
    step.Seeded? && !s.running
  }

  lemma StepAppends(s: State, step: Step)
    requires Enabled(s, step) && !Reseeds(s, step)
    ensures Appends(s, Next(s, step))
  {
    hide Appends;
    hide Acknowledged;
    var s' := Next(s, step);
    match step
    case Received(e) =>
      if e.seqno.Some? && s.inFlight.Some? { AppendsNothing(s, s'); } else { ApplyNowAppends(s, e); }
    case Returned(id, ok) =>
      if s'.outputs == s.outputs && Cursor(s) <= Cursor(s') { AppendsNothing(s, s'); }
      else {
        var w := WithPhase(s, id, Finished);
        AppendsNothing(s, w);
        AcknowledgedAppends(w, s.operations[id].phase.target);
        AppendsTrans(s, w, s');
      }
    case Polled(gen, reply) => PolledAppends(s, gen, reply);
    case Greeted(last, resync) =>
      if s'.outputs == s.outputs { AppendsNothing(s, s'); }
      else {
        assert [Acknowledge(last.value)][..0] == [];
        AppendsOne(s, s', Acknowledge(last.value));
      }
    case _ => AppendsNothing(s, s');
  }

  /** No step of the run seeds a stopped engine. */
  predicate Unseeded(s: State, steps: seq<Step>)
    decreases |steps|
  {
    steps == [] || (var n := |steps| - 1;
      Unseeded(s, steps[..n]) && (Run(s, steps[..n]).Some? ==> !Reseeds(Run(s, steps[..n]).value, steps[n])))
  }

  lemma {:induction false} RunAppends(s: State, steps: seq<Step>)
    requires Run(s, steps).Some? && Unseeded(s, steps)
    ensures Appends(s, Run(s, steps).value)
    decreases |steps|
  {
    hide Appends;
    if steps == [] {
      AppendsNothing(s, s);
    } else {
      var n := |steps| - 1;
      RunAppends(s, steps[..n]);
      StepAppends(Run(s, steps[..n]).value, steps[n]);
      AppendsTrans(s, Run(s, steps[..n]).value, Run(s, steps).value);
    }
  }

  function Durable(o: Output): Option<nat> {
    if o.Deliver? then o.event.seqno else None
  }

  function Mark(o: Output): Option<nat> {
    if o.Deliver? then o.event.seqno else Some(o.seqno)
  }

  lemma {:induction false} InOrderAbove(c: nat, outs: seq<Output>, i: nat)
    requires InOrder(c, outs) && i < |outs|
    ensures Mark(outs[i]).Some? ==> c <= Mark(outs[i]).value <= After(c, outs)
    ensures c <= After(c, outs)
    decreases |outs|
  {
    var n := |outs| - 1;
    if i < n {
      InOrderAbove(c, outs[..n], i);
    } else if n > 0 {
      InOrderAbove(c, outs[..n], 0);
    }
  }

  lemma {:induction false} InOrderIncreases(c: nat, outs: seq<Output>, i: nat, j: nat)
    requires InOrder(c, outs) && i < j < |outs|
    requires Mark(outs[i]).Some? && Durable(outs[j]).Some?
    ensures Mark(outs[i]).value < Durable(outs[j]).value
    decreases |outs|
  {
    var n := |outs| - 1;
    if j < n {
      InOrderIncreases(c, outs[..n], i, j);
    } else {
      InOrderAbove(c, outs[..n], i);
    }
  }

  /** In every run that does not reseed a stopped engine, each durable event handed to onEvent has a higher
      sequence number than the starting cursor and than every event delivered or cursor acknowledged before it. */
  lemma DurableEventsIncrease(s: State, steps: seq<Step>, i: nat, j: nat)
    requires Run(s, steps).Some? && Unseeded(s, steps)
    requires |s.outputs| <= i < j < |Run(s, steps).value.outputs|
    requires Mark(Run(s, steps).value.outputs[i]).Some? && Durable(Run(s, steps).value.outputs[j]).Some?
    ensures Cursor(s) <= Mark(Run(s, steps).value.outputs[i]).value < Durable(Run(s, steps).value.outputs[j]).value
  {
    hide Run;
    hide Unseeded;
    hide InOrder;
    RunAppends(s, steps);
    var outs, k := Run(s, steps).value.outputs[|s.outputs|..], |s.outputs|;
    InOrderAbove(Cursor(s), outs, i - k);
    InOrderIncreases(Cursor(s), outs, i - k, j - k);
  }
}
