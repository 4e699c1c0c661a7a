/** The delivery engine of clients/core/src/sync.ts.  Two transports feed one cursor, and a retrying resync is
    a barrier behind which durable events wait.  Every stretch of code between two awaits is one step; the
    suspended calls are kept in `operations` (resyncs) and `loops` (long polls).  The class performs the steps
    on its fields as the original does; the functions on `State` say what each step computes. */
module SyncEngine {
  import opened Results

  const MAX_SAFE: nat := 0x1F_FFFF_FFFF_FFFF

  /** A durable event has a sequence number, a volatile one has none. */
  datatype Event = Event(seqno: Option<nat>, body: int)

  /** The calls of onEvent and onCursor, in order. */
  datatype Output = Deliver(event: Event) | Acknowledge(seqno: nat)

  /** Where a resync is suspended: in onResync, in the back-off, or done and waiting for its `finally`. */
  datatype Phase = Loading(target: Option<nat>) | Sleeping | Finished

  datatype Operation = Operation(generation: nat, phase: Phase)

  datatype PollPhase = Requesting | AwaitingResync(operation: nat) | Backoff

  datatype Reply = Reply(resync: bool, nextSince: Option<int>, events: seq<Event>)

  datatype State = State(
    lastSeq: Option<nat>, running: bool, open: bool, pollLoopActive: bool, pollGeneration: nat, lifecycle: nat,
    inFlight: Option<nat>, head: Option<nat>, buffer: seq<Event>,
    operations: map<nat, Operation>, nextOperation: nat, loops: map<nat, PollPhase>, outputs: seq<Output>)

  function Cursor(s: State): nat {
    if s.lastSeq.Some? then s.lastSeq.value else 0
  }

  function Safe(n: Option<int>): (r: Option<nat>) {
    if n.Some? && 0 <= n.value <= MAX_SAFE then Some(n.value) else None
  }

  function Newest(a: Option<nat>, b: Option<nat>): Option<nat> {
    if b.Some? && (a.None? || b.value > a.value) then b else a
  }

  // ---- what the steps compute ----

  function ApplyNow(s: State, e: Event): State {
    if e.seqno.None? then s.(outputs := s.outputs + [Deliver(e)])
    else if e.seqno.value <= Cursor(s) then s
    else s.(lastSeq := e.seqno, outputs := s.outputs + [Deliver(e), Acknowledge(e.seqno.value)])
  }

  function Apply(s: State, e: Event): State {
    if e.seqno.Some? && s.inFlight.Some? then s.(buffer := s.buffer + [e]) else ApplyNow(s, e)
  }

  function ApplyAllNow(s: State, es: seq<Event>): State {
    if es == [] then s else ApplyNow(ApplyAllNow(s, es[..|es| - 1]), es[|es| - 1])
  }

  function ApplyAll(s: State, es: seq<Event>): State {
    if es == [] then s else Apply(ApplyAll(s, es[..|es| - 1]), es[|es| - 1])
  }

  function Advance(s: State, n: Option<int>): State {
    if n.Some? && n.value > Cursor(s) then s.(lastSeq := Some(n.value), outputs := s.outputs + [Acknowledge(n.value)]) else s
  }

  /** A resync signal: the newest head wins, and a resync in flight absorbs the signal. */
  function Resync(s: State, head: Option<int>): State {
    var s := s.(head := Newest(s.head, Safe(head)));
    if s.inFlight.Some? then s
    else
      var phase := if s.running then Loading(s.head) else Finished;
      s.(inFlight := Some(s.nextOperation), nextOperation := s.nextOperation + 1,
         operations := s.operations[s.nextOperation := Operation(s.lifecycle, phase)])
  }

  predicate Stale(s: State, id: nat)
    requires id in s.operations
  {
    !s.running || s.operations[id].generation != s.lifecycle
  }

  function WithPhase(s: State, id: nat, phase: Phase): State
    requires id in s.operations
  {
    s.(operations := s.operations[id := s.operations[id].(phase := phase)])
  }

  /** The head of a loaded snapshot, then the buffered events in order. */
  function Acknowledged(s: State, target: Option<nat>): State {
    var s := if target.Some? && target.value > Cursor(s)
             then s.(lastSeq := target, outputs := s.outputs + [Acknowledge(target.value)]) else s;
    ApplyAllNow(s.(buffer := []), s.buffer).(head := None)
  }

  predicate IsLoading(s: State, id: nat) {
    id in s.operations && s.operations[id].phase.Loading?
  }

  predicate IsIn(s: State, id: nat, phase: Phase) {
    id in s.operations && s.operations[id].phase == phase
  }

  function ResyncReturned(s: State, id: nat, ok: bool): State
    requires IsLoading(s, id)
  {
    var target := s.operations[id].phase.target;
    if Stale(s, id) then WithPhase(s, id, Finished)
    else if !ok then WithPhase(s, id, Sleeping)
    else if target != s.head then WithPhase(s, id, Loading(s.head))
    else Acknowledged(WithPhase(s, id, Finished), target)
  }

  function ResyncWoke(s: State, id: nat): State
    requires IsIn(s, id, Sleeping)
  {
    WithPhase(s, id, if Stale(s, id) then Finished else Loading(s.head))
  }

  function ResyncSettled(s: State, id: nat): State
    requires IsIn(s, id, Finished)
  {
    s.(operations := s.operations - {id}, inFlight := if s.inFlight == Some(id) then None else s.inFlight)
  }

  function Hello(s: State, lastSeq: Option<int>, resync: bool): State {
    if resync then Resync(s, lastSeq)
    else if s.lastSeq.None? && Safe(lastSeq).Some?
    then s.(lastSeq := Safe(lastSeq), outputs := s.outputs + [Acknowledge(Safe(lastSeq).value)])
    else s
  }

  function EnsurePolling(s: State): State {
    if !s.running || s.pollLoopActive || s.open then s
    else s.(pollLoopActive := true, pollGeneration := s.pollGeneration + 1, loops := s.loops[s.pollGeneration + 1 := Requesting])
  }

  function SocketState(s: State, open: bool): State {
    var s := s.(open := open);
    if open then s.(pollGeneration := s.pollGeneration + 1, pollLoopActive := false) else EnsurePolling(s)
  }

  function Start(s: State): State {
    if s.running then s else EnsurePolling(s.(running := true, lifecycle := s.lifecycle + 1))
  }

  function Stop(s: State): State {
    s.(running := false, lifecycle := s.lifecycle + 1, pollGeneration := s.pollGeneration + 1, pollLoopActive := false,
       inFlight := None, head := None, buffer := [])
  }

  function SetCursor(s: State, n: int): State {
    var next := if 0 <= n <= MAX_SAFE then n else 0;
    if !s.running || s.lastSeq.None? || next > s.lastSeq.value then s.(lastSeq := Some(next)) else s
  }

  /** The guard of the poll loop: another request, or the end of the loop. */
  function PollAgain(s: State, gen: nat): State {
    if s.running && gen == s.pollGeneration && !s.open then s.(loops := s.loops[gen := Requesting])
    else s.(loops := s.loops - {gen}, pollLoopActive := s.pollLoopActive && gen != s.pollGeneration)
  }

  function PollReplied(s: State, gen: nat, r: Reply): State
    requires gen in s.loops && s.loops[gen] == Requesting
  {
    if gen != s.pollGeneration then s.(loops := s.loops - {gen})
    else if r.resync then
      var s := Resync(s, r.nextSince);
      s.(loops := s.loops[gen := AwaitingResync(s.inFlight.value)])
    else PollAgain(Advance(ApplyAll(s, r.events), r.nextSince), gen)
  }

  function PollFailed(s: State, gen: nat): State
    requires gen in s.loops && s.loops[gen] == Requesting
  {
    s.(loops := if gen != s.pollGeneration then s.loops - {gen} else s.loops[gen := Backoff])
  }

  // ---- the steps on the fields ----

  class Engine {
    var lastSeq: Option<nat>
    var running: bool
    var open: bool
    var pollLoopActive: bool
    var pollGeneration: nat
    var lifecycle: nat
    var inFlight: Option<nat>
    var head: Option<nat>
    var buffer: seq<Event>
    var operations: map<nat, Operation>
    var nextOperation: nat
    var loops: map<nat, PollPhase>
    var outputs: seq<Output>

    constructor ()
      ensures Model() == State(None, false, false, false, 0, 0, None, None, [], map[], 0, map[], [])
    {
      lastSeq, running, open, pollLoopActive, pollGeneration, lifecycle := None, false, false, false, 0, 0;
      inFlight, head, buffer, operations, nextOperation, loops, outputs := None, None, [], map[], 0, map[], [];
    }

    function Model(): State
      reads this
    {
      State(lastSeq, running, open, pollLoopActive, pollGeneration, lifecycle, inFlight, head, buffer, operations, nextOperation, loops, outputs)
    }

    function GetCursor(): nat
      reads this
    {
      if lastSeq.Some? then lastSeq.value else 0
    }

    /** A running engine only moves forward; the seed of a stopped one is exact. */
    method Seed(n: int)
      modifies this
      ensures Model() == SetCursor(old(Model()), n)
    {
      var next := if 0 <= n <= MAX_SAFE then n else 0;
      if running {
        if lastSeq.None? || next > lastSeq.value {
          lastSeq := Some(next);
        }
        return;
      }
      lastSeq := Some(next);
    }

    method OnHello(last: Option<int>, resync: bool)
      modifies this
      ensures Model() == Hello(old(Model()), last, resync)
    {
      var helloHead := Safe(last);
      if resync {
        var _ := HandleResync(last);
        return;
      }
      if lastSeq.None? && helloHead.Some? {
        lastSeq := helloHead;
        outputs := outputs + [Acknowledge(helloHead.value)];
      }
    }

    method OnWsState(isOpen: bool)
      modifies this
      ensures Model() == SocketState(old(Model()), isOpen)
    {
      open := isOpen;
      if isOpen {
        pollGeneration := pollGeneration + 1;
        pollLoopActive := false;
      } else if running {
        StartPolling();
      }
    }

    method StartEngine()
      modifies this
      ensures Model() == Start(old(Model()))
    {
      if running {
        return;
      }
      running := true;
      lifecycle := lifecycle + 1;
      StartPolling();
    }

    method StopEngine()
      modifies this
      ensures Model() == Stop(old(Model()))
    {
      running := false;
      lifecycle := lifecycle + 1;
      pollGeneration := pollGeneration + 1;
      pollLoopActive := false;
      inFlight := None;
      head := None;
      buffer := [];
    }

    method ApplyEvent(e: Event)
      modifies this
      ensures Model() == Apply(old(Model()), e)
    {
      if e.seqno.Some? && inFlight.Some? {
        buffer := buffer + [e];
        return;
      }
      ApplyEventNow(e);
    }

    method ApplyEventNow(e: Event)
      modifies this
      ensures Model() == ApplyNow(old(Model()), e)
    {
      if e.seqno.Some? {
        if e.seqno.value <= GetCursor() {
          return;
        }
        lastSeq := e.seqno;
        outputs := outputs + [Deliver(e)];
        outputs := outputs + [Acknowledge(e.seqno.value)];
        assert old(outputs) + [Deliver(e)] + [Acknowledge(e.seqno.value)] == old(outputs) + [Deliver(e), Acknowledge(e.seqno.value)];
        return;
      }
      outputs := outputs + [Deliver(e)];
    }

    /** Joins the resync in flight, or starts one that runs up to its first await. */
    method HandleResync(signal: Option<int>) returns (operation: nat)
      modifies this
      ensures Model() == Resync(old(Model()), signal)
      ensures inFlight == Some(operation)
    {
      var normalized := Safe(signal);
      if normalized.Some? && (head.None? || normalized.value > head.value) {
        head := normalized;
      }
      if inFlight.Some? {
        return inFlight.value;
      }
      operation := nextOperation;
      nextOperation := nextOperation + 1;
      if !running {
        operations := operations[operation := Operation(lifecycle, Finished)];
      } else {
        operations := operations[operation := Operation(lifecycle, Loading(head))];
      }
      inFlight := Some(operation);
    }

    /** onResync has returned or thrown. */
    method OnResyncReturned(id: nat, ok: bool)
      requires IsLoading(Model(), id)
      modifies this
      ensures Model() == ResyncReturned(old(Model()), id, ok)
    {
      var operation := operations[id];
      var target := operation.phase.target;
      if !running || operation.generation != lifecycle {
        operations := operations[id := operation.(phase := Finished)];
        return;
      }
      if !ok {
        operations := operations[id := operation.(phase := Sleeping)];
        return;
      }
      if target != head {
        operations := operations[id := operation.(phase := Loading(head))];
        return;
      }
      operations := operations[id := operation.(phase := Finished)];
      if target.Some? && target.value > GetCursor() {
        lastSeq := target;
        outputs := outputs + [Acknowledge(target.value)];
      }
      var buffered := buffer;
      buffer := [];
      ghost var before := Model();
      for k := 0 to |buffered|
        invariant Model() == ApplyAllNow(before, buffered[..k])
      {
        assert buffered[..k + 1][..k] == buffered[..k];
        ApplyEventNow(buffered[k]);
      }
      assert buffered[..|buffered|] == buffered;
      head := None;
    }

    method OnResyncWoke(id: nat)
      requires IsIn(Model(), id, Sleeping)
      modifies this
      ensures Model() == ResyncWoke(old(Model()), id)
    {
      var operation := operations[id];
      if !running || operation.generation != lifecycle {
        operations := operations[id := operation.(phase := Finished)];
      } else {
        operations := operations[id := operation.(phase := Loading(head))];
      }
    }

    /** The `finally` of a resync. */
    method OnResyncSettled(id: nat)
      requires IsIn(Model(), id, Finished)
      modifies this
      ensures Model() == ResyncSettled(old(Model()), id)
    {
      operations := operations - {id};
      if inFlight == Some(id) {
        inFlight := None;
      }
    }

    method StartPolling()
      modifies this
      ensures Model() == EnsurePolling(old(Model()))
    {
      if !running || pollLoopActive {
        return;
      }
      if open {
        return;
      }
      pollLoopActive := true;
      pollGeneration := pollGeneration + 1;
      loops := loops[pollGeneration := Requesting];
    }

    method PollLoopGuard(gen: nat)
      modifies this
      ensures Model() == PollAgain(old(Model()), gen)
    {
      if running && gen == pollGeneration && !open {
        loops := loops[gen := Requesting];
      } else {
        loops := loops - {gen};
        if gen == pollGeneration {
          pollLoopActive := false;
        }
      }
    }

    method OnPollReplied(gen: nat, r: Reply)
      requires gen in loops && loops[gen] == Requesting
      modifies this
      ensures Model() == PollReplied(old(Model()), gen, r)
    {
      if gen != pollGeneration {
        loops := loops - {gen};
        return;
      }
      if r.resync {
        var operation := HandleResync(r.nextSince);
        loops := loops[gen := AwaitingResync(operation)];
        return;
      }
      for k := 0 to |r.events|
        invariant Model() == ApplyAll(old(Model()), r.events[..k])
      {
        assert r.events[..k + 1][..k] == r.events[..k];
        ApplyEvent(r.events[k]);
      }
      assert r.events[..|r.events|] == r.events;
      if r.nextSince.Some? && r.nextSince.value > GetCursor() {
        lastSeq := Some(r.nextSince.value);
        outputs := outputs + [Acknowledge(r.nextSince.value)];
      }
      PollLoopGuard(gen);
    }

    method OnPollFailed(gen: nat)
      requires gen in loops && loops[gen] == Requesting
      modifies this
      ensures Model() == PollFailed(old(Model()), gen)
    {
      if gen != pollGeneration {
        loops := loops - {gen};
        return;
      }
      loops := loops[gen := Backoff];
    }
  }
}
