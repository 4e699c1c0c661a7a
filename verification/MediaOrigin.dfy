/** Whose bytes the media cache of clients/core/src/media_cache.ts holds after an account reset: an operation that
    reads a record writes it back as its own. */
module MediaOrigin {
  import opened Results
  import opened MediaBarrier

  // ---- when no operation is waiting to begin at a reset ----

  predicate NoneWaiting(s: State) {
    forall i :: 0 <= i < |s.ops| ==> !s.ops[i].stage.Waiting?
  }

  predicate CalmEvent(s: State, e: Event) {
    e.ResetCalled? ==> NoneWaiting(s)
  }

  predicate CalmRun(store: map<int, Rec>, events: seq<Event>) {
    events == [] ||
    (CalmRun(store, events[..|events| - 1]) && CalmEvent(Run(Initial(store), events[..|events| - 1]), events[|events| - 1]))
  }

  predicate Begun(op: Op) {
    op.stage.Entered? || op.stage.Idle? || op.stage.Asked?
  }

  predicate LastCleared(s: State) {
    s.resets != [] ==> s.resets[|s.resets| - 1].progress.Cleared?
  }

  /** An operation of the current epoch began after its reset had cleared the store. */
  predicate Fresh(s: State) {
    && (forall i :: 0 <= i < |s.ops| && s.ops[i].stage.Waiting? ==> s.ops[i].stage.barrier == |s.resets|)
    && (forall i :: 0 <= i < |s.ops| && Begun(s.ops[i]) && s.ops[i].epoch == s.epoch ==> LastCleared(s))
    && (s.resets != [] ==> !s.resets[|s.resets| - 1].progress.Superseded?)
    && (s.resets != [] && s.resets[|s.resets| - 1].progress.Failed? ==> s.failed)
  }

  /** What an operation holds or writes stems from its own epoch or a later one. */
  predicate Own(op: Op) {
    Begun(op) ==>
      (op.held.Some? ==> op.held.value.1.origin >= op.epoch) &&
      (Writing(op) ==> op.stage.request.rec.origin >= op.epoch)
  }

  predicate AllOwn(s: State) {
    forall i :: 0 <= i < |s.ops| ==> Own(s.ops[i])
  }

  predicate Since(s: State, epoch: nat) {
    forall id :: id in s.store ==> s.store[id].origin >= epoch
  }

  predicate Sealed(s: State) {
    forall r :: 0 <= r < |s.resets| && s.resets[r].progress.Cleared? ==> Since(s, s.resets[r].epoch)
  }

  predicate Calm(s: State) {
    Fresh(s) && AllOwn(s) && Sealed(s)
  }

  lemma OpFresh(s: State, s': State, i: nat)
    requires Fresh(s) && i < |s.ops| == |s'.ops| && forall j :: 0 <= j < |s.ops| && j != i ==> s'.ops[j] == s.ops[j]
    requires s'.resets == s.resets && s'.epoch == s.epoch && s'.failed == s.failed && !s'.ops[i].stage.Waiting?
    requires Begun(s'.ops[i]) && s'.ops[i].epoch == s.epoch ==> LastCleared(s)
    ensures Fresh(s')
  {
  }

  lemma EnterFresh(s: State, i: nat)
    requires Inv(s) && Fresh(s) && i < |s.ops| && s.ops[i].stage.Waiting? && Step(s, Enter(i)) != s
    ensures s.failed || LastCleared(s)
  {
    assert s.ops[i].stage.barrier == |s.resets|;
  }

  lemma StoreSince(s: State)
    requires Inv(s) && Sealed(s) && LastCleared(s)
    ensures Since(s, s.epoch)
  {
    if s.resets != [] {
      assert s.resets[|s.resets| - 1].epoch == s.epoch;
    }
  }

  lemma AnswerOwn(s: State, i: nat)
    requires Inv(s) && Calm(s) && i < |s.ops| && s.ops[i].stage.Asked?
    ensures Own(Answered(s, i).ops[i])
  {
    var op := s.ops[i];
    assert Own(op);
    if op.epoch == s.epoch {
      StoreSince(s);
    }
  }

  lemma AnswerSealed(s: State, i: nat)
    requires Inv(s) && Calm(s) && i < |s.ops| && s.ops[i].stage.Asked?
    ensures Sealed(Answered(s, i))
  {
    var s' := Answered(s, i);
    assert Own(s.ops[i]);
    forall r | 0 <= r < |s'.resets| && s'.resets[r].progress.Cleared?
      ensures Since(s', s'.resets[r].epoch)
    {
      assert Since(s, s.resets[r].epoch);
    }
  }

  lemma OpStepCalm(s: State, e: Event)
    requires Inv(s) && Calm(s) && (e.Enter? || e.Track? || e.Ask? || e.Answer? || e.Reject? || e.Finish?)
    ensures Calm(Step(s, e))
  {
    var s' := Step(s, e);
    if s' != s {
      var i := e.i;
      if e.Answer? {
        AnswerOwn(s, i);
        AnswerSealed(s, i);
      } else {
        OpFrame(s, e);
        SealedSame(s, s');
      }
      if e.Enter? {
        EnterFresh(s, i);
      }
      OpOwn(s, e);
      OpFrame(s, e);
      OpBegun(s, e);
      hide Inv;
      hide Sealed;
      hide Own;
      hide Step;
      OpFresh(s, s', i);
    }
  }

  lemma OpFrame(s: State, e: Event)
    requires (e.Enter? || e.Track? || e.Ask? || e.Answer? || e.Reject? || e.Finish?) && Step(s, e) != s
    ensures var s' := Step(s, e);
            && e.i < |s.ops| == |s'.ops| && s'.resets == s.resets && s'.epoch == s.epoch && s'.failed == s.failed
            && (!e.Answer? ==> s'.store == s.store) && forall j :: 0 <= j < |s.ops| && j != e.i ==> s'.ops[j] == s.ops[j]
  {
  }

  lemma OpBegun(s: State, e: Event)
    requires Fresh(s) && (e.Enter? || e.Track? || e.Ask? || e.Answer? || e.Reject? || e.Finish?) && Step(s, e) != s
    requires e.Enter? ==> s.failed || LastCleared(s)
    ensures !Step(s, e).ops[e.i].stage.Waiting?
    ensures Begun(Step(s, e).ops[e.i]) && Step(s, e).ops[e.i].epoch == s.epoch ==> LastCleared(s)
  {
    hide LastCleared;
  }

  lemma SealedSame(s: State, s': State)
    requires Sealed(s) && s'.store == s.store && s'.resets == s.resets
    ensures Sealed(s')
  {
  }

  lemma OpOwn(s: State, e: Event)
    requires Inv(s) && Calm(s) && (e.Enter? || e.Track? || e.Ask? || e.Answer? || e.Reject? || e.Finish?) && Step(s, e) != s
    ensures Own(Step(s, e).ops[e.i])
  {
    assert Own(s.ops[e.i]);
    if e.Answer? {
      AnswerOwn(s, e.i);
    }
    hide Fresh;
    hide Sealed;
  }

  lemma ResetCalm(s: State)
    requires Inv(s) && Calm(s) && NoneWaiting(s)
    ensures Calm(Resetting(s))
  {
    var s' := Resetting(s);
    forall r | 0 <= r < |s'.resets| && s'.resets[r].progress.Cleared?
      ensures Since(s', s'.resets[r].epoch)
    {
      assert Since(s, s.resets[r].epoch);
    }
  }

  lemma ProceedCalm(s: State, r: nat)
    requires Inv(s) && Calm(s)
    ensures Calm(Step(s, Proceed(r)))
  {
    var s' := Step(s, Proceed(r));
    forall q | 0 <= q < |s'.resets| && s'.resets[q].progress.Cleared?
      ensures Since(s', s'.resets[q].epoch)
    {
      assert Since(s, s.resets[q].epoch);
    }
  }

  lemma ClearCalm(s: State, r: nat, ok: bool)
    requires Inv(s) && Calm(s)
    ensures Calm(Step(s, ClearAnswered(r, ok)))
  {
    var s' := Step(s, ClearAnswered(r, ok));
    forall q | 0 <= q < |s'.resets| && s'.resets[q].progress.Cleared?
      ensures Since(s', s'.resets[q].epoch)
    {
      assert q != r ==> Since(s, s.resets[q].epoch);
    }
  }

  lemma CallCalm(s: State)
    requires Calm(s)
    ensures Calm(Step(s, Call))
  {
    SealedSame(s, Step(s, Call));
    hide Sealed;
  }

  lemma StepCalm(s: State, e: Event)
    requires Inv(s) && Calm(s) && CalmEvent(s, e)
    ensures Calm(Step(s, e))
  {
    match e {
      case Call => CallCalm(s);
      case ResetCalled => ResetCalm(s);
      case Proceed(r) => ProceedCalm(s, r);
      case ClearAnswered(r, ok) => ClearCalm(s, r, ok);
      case Enter(_) => OpStepCalm(s, e);
      case Track(_) => OpStepCalm(s, e);
      case Ask(_, _) => OpStepCalm(s, e);
      case Answer(_) => OpStepCalm(s, e);
      case Reject(_) => OpStepCalm(s, e);
      case Finish(_) => OpStepCalm(s, e);
    }
    hide Calm;
    hide Inv;
  }

  /** If reset() is never called while an operation waits to begin, then after a reset has cleared the store nothing
      obtained before it is stored, and no operation of the new epoch is handed any of it. */
  lemma {:induction false} CalmRunClean(store: map<int, Rec>, events: seq<Event>)
    requires CalmRun(store, events)
    ensures Calm(Run(Initial(store), events)) && Inv(Run(Initial(store), events))
    ensures var s := Run(Initial(store), events);
            && (forall r, id :: 0 <= r < |s.resets| && s.resets[r].progress.Cleared? && id in s.store ==> s.store[id].origin >= r + 1)
            && (forall i :: 0 <= i < |s.ops| && Begun(s.ops[i]) && s.ops[i].held.Some? ==> s.ops[i].held.value.1.origin >= s.ops[i].epoch)
    decreases |events|
  {
    RunFenced(store, events);
    if events != [] {
      hide Step;
      hide CalmEvent;
      var n := |events| - 1;
      CalmRunClean(store, events[..n]);
      StepCalm(Run(Initial(store), events[..n]), events[n]);
    }
    CalmClean(Run(Initial(store), events));
    hide Calm;
    hide Inv;
    hide Run;
  }

  lemma CalmClean(s: State)
    requires Calm(s) && Inv(s)
    ensures forall r, id :: 0 <= r < |s.resets| && s.resets[r].progress.Cleared? && id in s.store ==> s.store[id].origin >= r + 1
    ensures forall i :: 0 <= i < |s.ops| && Begun(s.ops[i]) && s.ops[i].held.Some? ==> s.ops[i].held.value.1.origin >= s.ops[i].epoch
  {
    forall r, id | 0 <= r < |s.resets| && s.resets[r].progress.Cleared? && id in s.store
      ensures s.store[id].origin >= r + 1
    {
      assert Since(s, s.resets[r].epoch);
    }
    forall i | 0 <= i < |s.ops| && Begun(s.ops[i]) && s.ops[i].held.Some?
      ensures s.ops[i].held.value.1.origin >= s.ops[i].epoch
    {
      assert Own(s.ops[i]);
    }
  }
}
