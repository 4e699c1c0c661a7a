/** The account-reset barrier of clients/core/src/media_cache.ts.  An operation is a sequence of stretches: each
    checks the account epoch and then issues at most one store request, which takes effect when it is answered. */
module MediaBarrier {
  import opened Results

  /** A record: the epoch of the operation that wrote it, and the epoch in which its bytes were obtained. */
  datatype Rec = Rec(writer: nat, origin: nat)

  datatype Request = Read(id: int) | Write(id: int, rec: Rec) | Delete(id: int)

  datatype Stage =
    | Waiting(barrier: nat)
    | Entered
    | Idle
    | Asked(request: Request)
    | Ended

  /** An operation; `held` is the record it read and may write back, with its key. */
  datatype Op = Op(epoch: nat, stage: Stage, held: Option<(int, Rec)>)

  datatype Progress = Pending | Clearing | Cleared | Superseded | Failed

  /** A reset; it waits for the reset before it and for the operations that were active when it was called. */
  datatype Reset = Reset(epoch: nat, active: set<nat>, progress: Progress)

  /** Barrier b of an operation is the first b resets. */
  datatype State = State(epoch: nat, ops: seq<Op>, resets: seq<Reset>, failed: bool, store: map<int, Rec>)

  datatype Event =
    | Call
    | Enter(i: nat)
    | Track(i: nat)
    | Ask(i: nat, request: Request)
    | Answer(i: nat)
    | Reject(i: nat)
    | Finish(i: nat)
    | ResetCalled
    | Proceed(r: nat)
    | ClearAnswered(r: nat, ok: bool)

  // ---- what the steps compute ----

  predicate Settled(r: Reset) {
    r.progress.Cleared? || r.progress.Superseded? || r.progress.Failed?
  }

  predicate Active(op: Op) {
    op.stage.Idle? || op.stage.Asked?
  }

  function With(s: State, i: nat, op: Op): State
    requires i < |s.ops|
  {
    s.(ops := s.ops[i := op])
  }

  function WithReset(s: State, r: nat, progress: Progress): State
    requires r < |s.resets|
  {
    s.(resets := s.resets[r := s.resets[r].(progress := progress)])
  }

  /** What an operation may write: bytes of its own epoch, or the record it read, under the same key. */
  predicate MayAsk(s: State, op: Op, request: Request) {
    request.Write? ==>
      request.rec.writer == op.epoch &&
      (request.rec.origin == op.epoch || (op.held.Some? && op.held.value.0 == request.id && op.held.value.1.origin == request.rec.origin))
  }

  function Entering(s: State, i: nat): State
    requires i < |s.ops|
  {
    if s.failed then With(s, i, s.ops[i].(stage := Ended))
    else With(s, i, Op(s.epoch, Entered, None))
  }

  /** Every write is behind the epoch check. */
  function Asking(s: State, i: nat, request: Request): State
    requires i < |s.ops|
  {
    if !request.Read? && s.ops[i].epoch != s.epoch then With(s, i, s.ops[i].(stage := Ended))
    else With(s, i, s.ops[i].(stage := Asked(request)))
  }

  function Answered(s: State, i: nat): State
    requires i < |s.ops| && s.ops[i].stage.Asked?
  {
    var op := s.ops[i];
    var next := if op.epoch != s.epoch then op.(stage := Ended) else op.(stage := Idle);
    match op.stage.request
    case Read(id) => With(s, i, next.(held := if id in s.store then Some((id, s.store[id])) else None))
    case Write(id, rec) => With(s, i, next).(store := s.store[id := rec])
    case Delete(id) => With(s, i, next).(store := s.store - {id})
  }

  /** A rejected request has no effect. */
  function Rejected(s: State, i: nat): State
    requires i < |s.ops|
  {
    With(s, i, s.ops[i].(stage := if s.ops[i].epoch != s.epoch then Ended else Idle))
  }

  function Resetting(s: State): State {
    var active := set i | 0 <= i < |s.ops| && Active(s.ops[i]);
    s.(epoch := s.epoch + 1, failed := false, resets := s.resets + [Reset(s.epoch + 1, active, Pending)])
  }

  predicate AllEnded(s: State, active: set<nat>) {
    forall i :: i in active ==> i < |s.ops| && s.ops[i].stage.Ended?
  }

  /** The reset before it has settled, and so have the operations it waits for. */
  predicate Due(s: State, r: nat)
    requires r < |s.resets|
  {
    (r > 0 ==> Settled(s.resets[r - 1])) && AllEnded(s, s.resets[r].active)
  }

  function Clear(s: State, r: nat, ok: bool): State
    requires r < |s.resets|
  {
    if ok then WithReset(s, r, Cleared).(store := map[])
    else WithReset(s, r, Failed).(failed := s.failed || s.resets[r].epoch == s.epoch)
  }

  /** A step that is not enabled changes nothing. */
  function Step(s: State, e: Event): State {
    match e
    case Call => s.(ops := s.ops + [Op(0, Waiting(|s.resets|), None)])
    case Enter(i) =>
      if i < |s.ops| && s.ops[i].stage.Waiting? && s.ops[i].stage.barrier <= |s.resets|
         && (s.ops[i].stage.barrier > 0 ==> Settled(s.resets[s.ops[i].stage.barrier - 1])) then Entering(s, i) else s
    case Track(i) => if i < |s.ops| && s.ops[i].stage.Entered? then With(s, i, s.ops[i].(stage := Idle)) else s
    case Ask(i, request) => if i < |s.ops| && s.ops[i].stage.Idle? && MayAsk(s, s.ops[i], request) then Asking(s, i, request) else s
    case Answer(i) => if i < |s.ops| && s.ops[i].stage.Asked? then Answered(s, i) else s
    case Reject(i) => if i < |s.ops| && s.ops[i].stage.Asked? then Rejected(s, i) else s
    case Finish(i) => if i < |s.ops| && s.ops[i].stage.Idle? then With(s, i, s.ops[i].(stage := Ended)) else s
    case ResetCalled => Resetting(s)
    case Proceed(r) =>
      if r < |s.resets| && s.resets[r].progress.Pending? && Due(s, r)
      then WithReset(s, r, if s.resets[r].epoch == s.epoch then Clearing else Superseded) else s
    case ClearAnswered(r, ok) => if r < |s.resets| && s.resets[r].progress.Clearing? then Clear(s, r, ok) else s
  }

  function Run(s: State, events: seq<Event>): State {
    if events == [] then s else Step(Run(s, events[..|events| - 1]), events[|events| - 1])
  }

  function Initial(store: map<int, Rec>): State {
    State(0, [], [], false, store)
  }

  // ---- who wrote what is stored ----

  predicate Writing(op: Op) {
    op.stage.Asked? && op.stage.request.Write?
  }

  predicate Past(r: Reset) {
    r.progress.Clearing? || r.progress.Cleared?
  }

  predicate Numbered(s: State) {
    && |s.resets| == s.epoch
    && (forall r :: 0 <= r < |s.resets| ==> s.resets[r].epoch == r + 1)
    && (forall i :: 0 <= i < |s.ops| ==> s.ops[i].epoch <= s.epoch)
    && (forall i :: 0 <= i < |s.ops| && s.ops[i].stage.Waiting? ==> s.ops[i].stage.barrier <= |s.resets| && s.ops[i].held.None?)
    && (forall i :: 0 <= i < |s.ops| && Writing(s.ops[i]) ==> s.ops[i].stage.request.rec.writer == s.ops[i].epoch)
  }

  /** A reset waits for every write of an earlier epoch that is under way. */
  predicate Guarded(s: State) {
    && (forall r, i :: 0 <= r < |s.resets| && 0 <= i < |s.ops| && Writing(s.ops[i]) && s.ops[i].epoch < s.resets[r].epoch ==>
          i in s.resets[r].active)
    && (forall r :: 0 <= r < |s.resets| && Past(s.resets[r]) ==> AllEnded(s, s.resets[r].active))
  }

  predicate WrittenSince(s: State, epoch: nat) {
    forall id :: id in s.store ==> s.store[id].writer >= epoch
  }

  predicate Fenced(s: State) {
    forall r :: 0 <= r < |s.resets| && s.resets[r].progress.Cleared? ==> WrittenSince(s, s.resets[r].epoch)
  }

  predicate Inv(s: State) {
    Numbered(s) && Guarded(s) && Fenced(s)
  }

  lemma OpKeeps(s: State, s': State, i: nat)
    requires Numbered(s) && Guarded(s) && i < |s.ops| && |s'.ops| == |s.ops|
    requires forall j :: 0 <= j < |s.ops| && j != i ==> s'.ops[j] == s.ops[j]
    requires s'.resets == s.resets && s'.epoch == s.epoch && !s.ops[i].stage.Ended?
    requires s'.ops[i].epoch <= s.epoch && !s'.ops[i].stage.Waiting?
    requires Writing(s'.ops[i]) ==>
      s'.ops[i].epoch == s.epoch && s'.ops[i].stage.request.rec.writer == s.epoch
    ensures Numbered(s') && Guarded(s')
  {
    assert Numbered(s');
    forall r, j | 0 <= r < |s'.resets| && 0 <= j < |s'.ops| && Writing(s'.ops[j]) && s'.ops[j].epoch < s'.resets[r].epoch
      ensures j in s'.resets[r].active
    {
      assert s.resets[r].epoch == r + 1;
    }
    forall r | 0 <= r < |s'.resets| && Past(s'.resets[r])
      ensures AllEnded(s', s'.resets[r].active)
    {
      assert AllEnded(s, s.resets[r].active);
    }
  }

  lemma AnswerFenced(s: State, i: nat)
    requires Inv(s) && i < |s.ops| && s.ops[i].stage.Asked?
    ensures Fenced(Answered(s, i))
  {
    var s' := Answered(s, i);
    forall r | 0 <= r < |s'.resets| && s'.resets[r].progress.Cleared?
      ensures WrittenSince(s', s'.resets[r].epoch)
    {
      assert WrittenSince(s, s.resets[r].epoch);
    }
  }

  lemma OpStepKeeps(s: State, e: Event)
    requires Inv(s) && (e.Enter? || e.Track? || e.Ask? || e.Answer? || e.Reject? || e.Finish?)
    ensures Inv(Step(s, e))
  {
    var s' := Step(s, e);
    if s' != s {
      if e.Answer? {
        AnswerFenced(s, e.i);
      }
      hide Fenced;
      OpKeeps(s, s', e.i);
      hide Numbered;
      hide Guarded;
      assert !e.Answer? ==> s'.store == s.store && s'.resets == s.resets;
      if !e.Answer? {
        SameStore(s, s');
      }
    }
  }

  lemma SameStore(s: State, s': State)
    requires Fenced(s) && s'.store == s.store && s'.resets == s.resets
    ensures Fenced(s')
  {
  }

  lemma ResetKeeps(s: State)
    requires Inv(s)
    ensures Inv(Resetting(s))
  {
    var s' := Resetting(s);
    assert forall r :: 0 <= r < |s.resets| ==> s'.resets[r] == s.resets[r];
    assert Numbered(s');
    assert Guarded(s') by {
      hide Fenced;
      forall r | 0 <= r < |s'.resets| && Past(s'.resets[r])
        ensures AllEnded(s', s'.resets[r].active)
      {
        assert AllEnded(s, s.resets[r].active);
      }
    }
    assert Fenced(s') by {
      forall r | 0 <= r < |s'.resets| && s'.resets[r].progress.Cleared?
        ensures WrittenSince(s', s'.resets[r].epoch)
      {
        assert WrittenSince(s, s.resets[r].epoch);
      }
    }
    hide Fenced;
  }

  lemma ProgressKeeps(s: State, r: nat, ok: bool)
    requires Inv(s)
    ensures Inv(Step(s, Proceed(r))) && Inv(Step(s, ClearAnswered(r, ok)))
  {
    ProceedKeeps(s, r);
    ClearKeeps(s, r, ok);
    hide Inv;
    hide Step;
  }

  lemma ProceedKeeps(s: State, r: nat)
    requires Inv(s)
    ensures Inv(Step(s, Proceed(r)))
  {
    var s' := Step(s, Proceed(r));
    assert forall q :: 0 <= q < |s.resets| && AllEnded(s, s.resets[q].active) ==> AllEnded(s', s'.resets[q].active);
    forall q | 0 <= q < |s'.resets| && s'.resets[q].progress.Cleared?
      ensures WrittenSince(s', s'.resets[q].epoch)
    {
      assert WrittenSince(s, s.resets[q].epoch);
    }
  }

  lemma ClearKeeps(s: State, r: nat, ok: bool)
    requires Inv(s)
    ensures Inv(Step(s, ClearAnswered(r, ok)))
  {
    var s' := Step(s, ClearAnswered(r, ok));
    assert Guarded(s') by {
      forall q | 0 <= q < |s'.resets| && Past(s'.resets[q])
        ensures AllEnded(s', s'.resets[q].active)
      {
        assert AllEnded(s, s.resets[q].active);
      }
    }
    forall q | 0 <= q < |s'.resets| && s'.resets[q].progress.Cleared?
      ensures WrittenSince(s', s'.resets[q].epoch)
    {
      assert q != r ==> WrittenSince(s, s.resets[q].epoch);
    }
  }

  lemma StepKeeps(s: State, e: Event)
    requires Inv(s)
    ensures Inv(Step(s, e))
  {
    match e {
      case Call => CallKeeps(s);
      case ResetCalled => ResetKeeps(s);
      case Proceed(r) => ProgressKeeps(s, r, true);
      case ClearAnswered(r, ok) => ProgressKeeps(s, r, ok);
      case Enter(_) => OpStepKeeps(s, e);
      case Track(_) => OpStepKeeps(s, e);
      case Ask(_, _) => OpStepKeeps(s, e);
      case Answer(_) => OpStepKeeps(s, e);
      case Reject(_) => OpStepKeeps(s, e);
      case Finish(_) => OpStepKeeps(s, e);
    }
    hide Inv;
  }

  lemma CallKeeps(s: State)
    requires Inv(s)
    ensures Inv(Step(s, Call))
  {
    var s' := Step(s, Call);
    assert forall i :: 0 <= i < |s.ops| ==> s'.ops[i] == s.ops[i];
    SameStore(s, s');
    hide Fenced;
    assert Numbered(s');
    forall r | 0 <= r < |s'.resets| && Past(s'.resets[r])
      ensures AllEnded(s', s'.resets[r].active)
    {
      assert AllEnded(s, s.resets[r].active);
    }
  }

  /** Over all interleavings: once a reset has cleared the store, no record written under an earlier epoch is in it,
      and none ever appears. */
  lemma {:induction false} RunFenced(store: map<int, Rec>, events: seq<Event>)
    ensures Inv(Run(Initial(store), events))
    ensures var s := Run(Initial(store), events);
            forall r, id :: 0 <= r < |s.resets| && s.resets[r].progress.Cleared? && id in s.store ==>
              s.store[id].writer >= r + 1
    decreases |events|
  {
    hide Step;
    if events != [] {
      var n := |events| - 1;
      RunFenced(store, events[..n]);
      StepKeeps(Run(Initial(store), events[..n]), events[n]);
    }
    FencedRows(Run(Initial(store), events));
    hide Inv;
    hide Run;
  }

  lemma FencedRows(s: State)
    requires Inv(s)
    ensures forall r, id :: 0 <= r < |s.resets| && s.resets[r].progress.Cleared? && id in s.store ==> s.store[id].writer >= r + 1
  {
    forall r, id | 0 <= r < |s.resets| && s.resets[r].progress.Cleared? && id in s.store
      ensures s.store[id].writer >= r + 1
    {
      assert WrittenSince(s, s.resets[r].epoch);
    }
  }

  // ---- the object ----

  /** The cache as far as its barrier goes: the methods are the stretches between awaits. */
  class Barrier {
    var accountEpoch: nat
    var operations: seq<Op>
    var resets: seq<Reset>
    var resetFailed: bool
    var media: map<int, Rec>

    constructor (store: map<int, Rec>)
      ensures Now() == Initial(store)
    {
      accountEpoch, operations, resets, resetFailed, media := 0, [], [], false, store;
    }

    function Now(): State
      reads this
    {
      State(accountEpoch, operations, resets, resetFailed, media)
    }

    method ResetAccount()
      modifies this
      ensures Now() == Step(old(Now()), ResetCalled)
    {
      accountEpoch := accountEpoch + 1;
      resetFailed := false;
      var active: set<nat> := {};
      for i := 0 to |operations|
        invariant accountEpoch == old(accountEpoch) + 1 && !resetFailed
        invariant operations == old(operations) && resets == old(resets) && media == old(media)
        invariant active == set j: nat | j < i && Active(operations[j])
      {
        if Active(operations[i]) {
          active := active + {i};
        }
      }
      resets := resets + [Reset(accountEpoch, active, Pending)];
      assert active == set j | 0 <= j < |operations| && Active(operations[j]);
    }

    /** operationContext: past the barrier, the failure of the last reset is reported and the epoch is taken. */
    method OperationContext(i: nat) returns (ok: bool)
      requires i < |operations| && operations[i].stage.Waiting? && operations[i].stage.barrier <= |resets|
      requires operations[i].stage.barrier > 0 ==> Settled(resets[operations[i].stage.barrier - 1])
      modifies this
      ensures Now() == Step(old(Now()), Enter(i)) && ok == !old(resetFailed)
    {
      if resetFailed {
        operations := operations[i := operations[i].(stage := Ended)];
        return false;
      }
      operations := operations[i := Op(accountEpoch, Entered, None)];
      return true;
    }

    method TrackOperation(i: nat)
      requires i < |operations| && operations[i].stage.Entered?
      modifies this
      ensures Now() == Step(old(Now()), Track(i))
    {
      operations := operations[i := operations[i].(stage := Idle)];
    }

    /** ensureEpoch, and then the store request. */
    method Request(i: nat, request: Request) returns (ok: bool)
      requires i < |operations| && operations[i].stage.Idle? && MayAsk(Now(), operations[i], request)
      modifies this
      ensures Now() == Step(old(Now()), Ask(i, request))
      ensures ok <==> request.Read? || old(operations)[i].epoch == old(accountEpoch)
    {
      if !request.Read? && operations[i].epoch != accountEpoch {
        operations := operations[i := operations[i].(stage := Ended)];
        return false;
      }
      operations := operations[i := operations[i].(stage := Asked(request))];
      return true;
    }

    /** The store did what it was asked; the operation goes on if its epoch is still the account's. */
    method RequestAnswered(i: nat)
      requires i < |operations| && operations[i].stage.Asked?
      modifies this
      ensures Now() == Step(old(Now()), Answer(i))
    {
      var op := operations[i];
      var next := if op.epoch != accountEpoch then op.(stage := Ended) else op.(stage := Idle);
      match op.stage.request {
        case Read(id) => next := next.(held := if id in media then Some((id, media[id])) else None);
        case Write(id, rec) => media := media[id := rec];
        case Delete(id) => media := media - {id};
      }
      operations := operations[i := next];
    }

    /** The store rejected the request, and the operation swallows that, or ends with it. */
    method RequestRejected(i: nat)
      requires i < |operations| && operations[i].stage.Asked?
      modifies this
      ensures Now() == Step(old(Now()), Reject(i))
    {
      operations := operations[i := operations[i].(stage := if operations[i].epoch != accountEpoch then Ended else Idle)];
    }

    method ResetProceeds(r: nat)
      requires r < |resets| && resets[r].progress.Pending? && Due(Now(), r)
      modifies this
      ensures Now() == Step(old(Now()), Proceed(r))
    {
      resets := resets[r := resets[r].(progress := if resets[r].epoch != accountEpoch then Superseded else Clearing)];
    }

    method StoreCleared(r: nat, ok: bool)
      requires r < |resets| && resets[r].progress.Clearing?
      modifies this
      ensures Now() == Step(old(Now()), ClearAnswered(r, ok))
    {
      if !ok {
        if resets[r].epoch == accountEpoch {
          resetFailed := true;
        }
        resets := resets[r := resets[r].(progress := Failed)];
        return;
      }
      media := map[];
      resets := resets[r := resets[r].(progress := Cleared)];
    }
  }
}
