/** When bytes of the old account outlive a reset of the media cache (clients/core/src/media_cache.ts): exactly when
    reset() is called while an operation waits to begin, with a record stored or on its way to the store. */
module MediaCarry {
  import opened Results
  import opened MediaBarrier
  import opened MediaOrigin

  // ---- what holds in every run ----

  predicate Bounded(op: Op, epoch: nat) {
    (op.held.Some? ==> op.held.value.1.origin <= epoch) && (Writing(op) ==> op.stage.request.rec.origin <= epoch)
  }

  predicate Awaited(ops: seq<Op>, active: set<nat>) {
    forall i :: i in active ==> i < |ops| && (Active(ops[i]) || ops[i].stage.Ended?)
  }

  /** No bytes are newer than the account; a reset waits for operations that are active or have ended; and resets leave
      their first stage in order. */
  predicate Known(s: State) {
    && (forall id :: id in s.store ==> s.store[id].origin <= s.epoch)
    && (forall i :: 0 <= i < |s.ops| ==> Bounded(s.ops[i], s.epoch))
    && (forall r :: 0 <= r < |s.resets| ==> Awaited(s.ops, s.resets[r].active))
    && (forall r :: 0 < r < |s.resets| && !s.resets[r].progress.Pending? ==> Settled(s.resets[r - 1]))
  }

  lemma OpKnown(s: State, s': State, i: nat)
    requires Known(s) && i < |s.ops| == |s'.ops| && forall j :: 0 <= j < |s.ops| && j != i ==> s'.ops[j] == s.ops[j]
    requires s'.resets == s.resets && s'.epoch == s.epoch && Bounded(s'.ops[i], s.epoch)
    requires Active(s.ops[i]) || s.ops[i].stage.Ended? ==> Active(s'.ops[i]) || s'.ops[i].stage.Ended?
    requires forall id :: id in s'.store ==> s'.store[id].origin <= s.epoch
    ensures Known(s')
  {
    forall r | 0 <= r < |s.resets|
      ensures Awaited(s'.ops, s'.resets[r].active)
    {
      assert Awaited(s.ops, s.resets[r].active);
    }
  }

  lemma OpStepKnown(s: State, e: Event)
    requires Inv(s) && Known(s) && (e.Enter? || e.Track? || e.Ask? || e.Answer? || e.Reject? || e.Finish?)
    ensures Known(Step(s, e))
  {
    var s' := Step(s, e);
    if s' != s {
      assert Bounded(s.ops[e.i], s.epoch) && s.ops[e.i].epoch <= s.epoch;
      assert forall id :: id in s.store ==> s.store[id].origin <= s.epoch;
      hide Inv;
      OpStepBounded(s, e);
      hide Bounded;
      OpKnown(s, s', e.i);
    }
  }

  lemma OpStepBounded(s: State, e: Event)
    requires (e.Enter? || e.Track? || e.Ask? || e.Answer? || e.Reject? || e.Finish?) && Step(s, e) != s
    requires e.i < |s.ops| && Bounded(s.ops[e.i], s.epoch) && s.ops[e.i].epoch <= s.epoch
    requires forall id :: id in s.store ==> s.store[id].origin <= s.epoch
    ensures Bounded(Step(s, e).ops[e.i], s.epoch)
    ensures forall id :: id in Step(s, e).store ==> Step(s, e).store[id].origin <= s.epoch
  {
  }

  lemma CallKnown(s: State)
    requires Known(s)
    ensures Known(Step(s, Call))
  {
    var s' := Step(s, Call);
    assert forall i :: 0 <= i < |s.ops| ==> s'.ops[i] == s.ops[i];
    forall r | 0 <= r < |s.resets|
      ensures Awaited(s'.ops, s'.resets[r].active)
    {
      assert Awaited(s.ops, s.resets[r].active);
    }
  }

  lemma ResettingKnown(s: State)
    requires Known(s)
    ensures Known(Resetting(s))
  {
    var s' := Resetting(s);
    assert forall r :: 0 <= r < |s.resets| ==> s'.resets[r] == s.resets[r];
    assert forall i :: 0 <= i < |s.ops| ==> Bounded(s.ops[i], s.epoch);
    assert Awaited(s.ops, s'.resets[|s.resets|].active);
  }

  lemma ProceedKnown(s: State, r: nat)
    requires Known(s)
    ensures Known(Step(s, Proceed(r)))
  {
    var s' := Step(s, Proceed(r));
    assert forall q :: 0 <= q < |s.resets| ==> s'.resets[q].active == s.resets[q].active;
    hide Bounded;
    hide Awaited;
  }

  lemma ClearKnown(s: State, r: nat, ok: bool)
    requires Known(s)
    ensures Known(Step(s, ClearAnswered(r, ok)))
  {
    var s' := Step(s, ClearAnswered(r, ok));
    assert forall q :: 0 <= q < |s.resets| ==> s'.resets[q].active == s.resets[q].active;
    hide Bounded;
    hide Awaited;
  }

  lemma OtherKnown(s: State, e: Event)
    requires Known(s) && (e.Call? || e.ResetCalled? || e.Proceed? || e.ClearAnswered?)
    ensures Known(Step(s, e))
  {
    if e.Call? {
      CallKnown(s);
    } else if e.ResetCalled? {
      ResettingKnown(s);
    } else {
      if e.Proceed? { ProceedKnown(s, e.r); } else { ClearKnown(s, e.r, e.ok); }
    }
    hide Known;
  }

  lemma StepKnown(s: State, e: Event)
    requires Inv(s) && Known(s)
    ensures Known(Step(s, e))
  {
    if e.Call? || e.ResetCalled? || e.Proceed? || e.ClearAnswered? {
      OtherKnown(s, e);
    } else {
      OpStepKnown(s, e);
    }
    hide Known;
    hide Step;
  }

  predicate Original(store: map<int, Rec>) {
    forall id :: id in store ==> store[id].origin == 0
  }

  lemma {:induction false} RunKnown(store: map<int, Rec>, events: seq<Event>)
    requires Original(store)
    ensures Inv(Run(Initial(store), events)) && Known(Run(Initial(store), events))
    decreases |events|
  {
    RunFenced(store, events);
    hide Step;
    hide Inv;
    if events != [] {
      var n := |events| - 1;
      RunKnown(store, events[..n]);
      RunFenced(store, events[..n]);
      StepKnown(Run(Initial(store), events[..n]), events[n]);
    }
  }

  // ---- carrying over ----

  /** Reset n has cleared the store, and bytes from before it are stored. */
  predicate Carries(t: State, n: nat) {
    n < |t.resets| && t.resets[n].progress.Cleared? && exists id :: id in t.store && t.store[id].origin <= n
  }

  ghost predicate Reaches(z: State, n: nat) {
    exists events :: Carries(Run(z, events), n)
  }

  ghost predicate CanCarry(s: State) {
    Reaches(Resetting(s), |s.resets|)
  }

  predicate SomeWaits(s: State) {
    exists i :: 0 <= i < |s.ops| && s.ops[i].stage.Waiting?
  }

  predicate SomeWrites(s: State) {
    exists i :: 0 <= i < |s.ops| && Writing(s.ops[i])
  }

  // ---- nothing is carried when nothing waits ----

  /** No operation of a later account began before reset n settled; once that has cleared, none has older bytes. */
  predicate Behind(t: State, n: nat)
    requires n < |t.resets|
  {
    && (forall i :: 0 <= i < |t.ops| && t.ops[i].stage.Waiting? ==> t.ops[i].stage.barrier > n)
    && (!Settled(t.resets[n]) ==> forall i :: 0 <= i < |t.ops| && Begun(t.ops[i]) ==> t.ops[i].epoch <= n)
    && (t.resets[n].progress.Cleared? ==> Since(t, n + 1) && forall i :: 0 <= i < |t.ops| ==> Newer(t.ops[i], n))
  }

  predicate Newer(op: Op, n: nat) {
    (Begun(op) && op.epoch > n && op.held.Some? ==> op.held.value.1.origin > n) && (Writing(op) ==> op.stage.request.rec.origin > n)
  }

  /** A reset that has left its first stage comes after settled ones only. */
  lemma {:induction false} EarlierSettled(s: State, n: nat, r: nat)
    requires Known(s) && n <= r < |s.resets| && Settled(s.resets[r])
    ensures Settled(s.resets[n])
    decreases r
  {
    if n < r {
      EarlierSettled(s, n, r - 1);
    }
  }

  lemma EnterBehind(t: State, n: nat, i: nat)
    requires Inv(t) && Known(t) && n < |t.resets| && Behind(t, n) && Step(t, Enter(i)) != t
    ensures Settled(t.resets[n])
  {
    EarlierSettled(t, n, t.ops[i].stage.barrier - 1);
  }

  /** One operation moves, in stages that follow the barrier. */
  lemma OpBehind(t: State, t': State, n: nat, i: nat)
    requires n < |t.resets| && Behind(t, n) && i < |t.ops| == |t'.ops| && t'.resets == t.resets
    requires forall j :: 0 <= j < |t.ops| && j != i ==> t'.ops[j] == t.ops[j]
    requires !t'.ops[i].stage.Waiting? && (!Settled(t.resets[n]) && Begun(t'.ops[i]) ==> t'.ops[i].epoch <= n)
    requires t.resets[n].progress.Cleared? ==> Since(t', n + 1) && Newer(t'.ops[i], n)
    ensures Behind(t', n)
  {
  }

  lemma OpNewer(t: State, n: nat, e: Event)
    requires Inv(t) && n < |t.resets| && (e.Enter? || e.Track? || e.Ask? || e.Answer? || e.Reject? || e.Finish?) && Step(t, e) != t
    requires t.resets[n].progress.Cleared? && Since(t, n + 1) && Newer(t.ops[e.i], n)
    ensures Since(Step(t, e), n + 1) && Newer(Step(t, e).ops[e.i], n)
  {
    assert t.epoch > n;
    hide Guarded;
    hide Fenced;
  }

  lemma OpStepBehind(t: State, n: nat, e: Event)
    requires Inv(t) && Known(t) && n < |t.resets| && Behind(t, n)
    requires e.Enter? || e.Track? || e.Ask? || e.Answer? || e.Reject? || e.Finish?
    ensures Behind(Step(t, e), n)
  {
    var t' := Step(t, e);
    if t' != t {
      if t.resets[n].progress.Cleared? {
        OpNewer(t, n, e);
      }
      if e.Enter? {
        EnterBehind(t, n, e.i);
      }
      OpStage(t, n, e);
      hide Inv;
      hide Known;
      hide Newer;
      hide Since;
      OpFrame(t, e);
      hide Step;
      OpBehind(t, t', n, e.i);
    }
  }

  lemma OpStage(t: State, n: nat, e: Event)
    requires n < |t.resets| && Behind(t, n) && (e.Enter? ==> Settled(t.resets[n]))
    requires (e.Enter? || e.Track? || e.Ask? || e.Answer? || e.Reject? || e.Finish?) && Step(t, e) != t
    ensures !Step(t, e).ops[e.i].stage.Waiting?
    ensures !Settled(t.resets[n]) && Begun(Step(t, e).ops[e.i]) ==> Step(t, e).ops[e.i].epoch <= n
  {
  }

  lemma CallBehind(t: State, n: nat)
    requires n < |t.resets| && Behind(t, n)
    ensures Behind(Step(t, Call), n) && Behind(Resetting(t), n)
  {
    var t' := Step(t, Call);
    assert forall i :: 0 <= i < |t.ops| ==> t'.ops[i] == t.ops[i];
    assert Resetting(t).resets[n] == t.resets[n];
  }

  lemma ProceedBehind(t: State, n: nat, r: nat)
    requires n < |t.resets| && Behind(t, n)
    ensures Behind(Step(t, Proceed(r)), n)
  {
  }

  /** Once reset n has waited for the writes under way, the clear leaves nothing of the old account. */
  lemma ClearBehind(t: State, n: nat, r: nat, ok: bool)
    requires Inv(t) && n < |t.resets| && Behind(t, n)
    ensures Behind(Step(t, ClearAnswered(r, ok)), n)
  {
    var t' := Step(t, ClearAnswered(r, ok));
    if r == n && t.resets[n].progress.Clearing? {
      forall i | 0 <= i < |t'.ops|
        ensures Newer(t'.ops[i], n)
      {
        if Begun(t.ops[i]) {
          NoOldWrite(t, n, i);
        }
      }
    }
    hide Inv;
  }

  lemma NoOldWrite(t: State, n: nat, i: nat)
    requires Inv(t) && n < |t.resets| && Past(t.resets[n]) && i < |t.ops| && t.ops[i].epoch <= n
    ensures !Writing(t.ops[i])
  {
    assert AllEnded(t, t.resets[n].active);
    hide Fenced;
  }

  lemma StepBehind(t: State, n: nat, e: Event)
    requires Inv(t) && Known(t) && n < |t.resets| && Behind(t, n)
    ensures n < |Step(t, e).resets| && Behind(Step(t, e), n)
  {
    match e {
      case Call => CallBehind(t, n);
      case ResetCalled => CallBehind(t, n);
      case Proceed(r) => ProceedBehind(t, n, r);
      case ClearAnswered(r, ok) => ClearBehind(t, n, r, ok);
      case _ => OpStepBehind(t, n, e);
    }
    hide Behind;
    hide Inv;
    hide Known;
  }

  lemma {:induction false} RunBehind(z: State, n: nat, events: seq<Event>)
    requires Inv(z) && Known(z) && n < |z.resets| && Behind(z, n)
    ensures var t := Run(z, events); Inv(t) && Known(t) && n < |t.resets| && Behind(t, n)
    decreases |events|
  {
    hide Step;
    hide Inv;
    hide Known;
    hide Behind;
    if events != [] {
      var m := |events| - 1;
      RunBehind(z, n, events[..m]);
      var t := Run(z, events[..m]);
      StepKeeps(t, events[m]);
      StepKnown(t, events[m]);
      StepBehind(t, n, events[m]);
    }
  }

  lemma NothingWaits(s: State)
    requires Inv(s) && Known(s) && !SomeWaits(s)
    ensures !CanCarry(s)
  {
    var z, n := Resetting(s), |s.resets|;
    ResetKeeps(s);
    ResettingKnown(s);
    assert Behind(z, n);
    if CanCarry(s) {
      var events :| Carries(Run(z, events), n);
      RunBehind(z, n, events);
      hide Run;
      hide Inv;
      hide Known;
    }
  }

  // ---- nothing is carried when there is nothing to carry ----

  /** No bytes from before reset n are stored, on their way to the store, or held by an operation that may write. */
  predicate Gone(t: State, n: nat) {
    n < t.epoch && Since(t, n + 1) && forall i :: 0 <= i < |t.ops| ==> Newer(t.ops[i], n)
  }

  lemma OpGone(t: State, n: nat, e: Event)
    requires (e.Enter? || e.Track? || e.Ask? || e.Answer? || e.Reject? || e.Finish?) && Step(t, e) != t
    requires n < t.epoch && Since(t, n + 1) && e.i < |t.ops| && Newer(t.ops[e.i], n)
    ensures Since(Step(t, e), n + 1) && Newer(Step(t, e).ops[e.i], n)
  {
  }

  lemma StepGone(t: State, n: nat, e: Event)
    requires Gone(t, n)
    ensures Gone(Step(t, e), n)
  {
    var t' := Step(t, e);
    if e.Call? {
      assert forall i :: 0 <= i < |t.ops| ==> t'.ops[i] == t.ops[i];
    } else if !e.ResetCalled? && !e.Proceed? && !e.ClearAnswered? && t' != t {
      OpFrame(t, e);
      OpGone(t, n, e);
      hide Step;
      hide Newer;
      hide Since;
    }
  }

  lemma {:induction false} RunGone(z: State, n: nat, events: seq<Event>)
    requires Gone(z, n)
    ensures Gone(Run(z, events), n)
    decreases |events|
  {
    hide Step;
    hide Gone;
    if events != [] {
      RunGone(z, n, events[..|events| - 1]);
      StepGone(Run(z, events[..|events| - 1]), n, events[|events| - 1]);
    }
  }

  lemma NothingThere(s: State)
    requires Inv(s) && s.store == map[] && !SomeWrites(s)
    ensures !CanCarry(s)
  {
    var z, n := Resetting(s), |s.resets|;
    assert Gone(z, n) by {
      forall i | 0 <= i < |z.ops|
        ensures Newer(z.ops[i], n)
      {
        assert !Writing(s.ops[i]) && s.ops[i].epoch <= s.epoch;
      }
    }
    if CanCarry(s) {
      var events :| Carries(Run(z, events), n);
      RunGone(z, n, events);
      hide Run;
      hide Inv;
    }
  }

  // ---- what waits can carry ----

  lemma {:induction false} RunConcat(s: State, some: seq<Event>, more: seq<Event>)
    ensures Run(s, some + more) == Run(Run(s, some), more)
    decreases |more|
  {
    hide Step;
    if more == [] {
      assert some + more == some;
    } else {
      var m := |more| - 1;
      RunConcat(s, some, more[..m]);
      assert (some + more)[..|some + more| - 1] == some + more[..m];
    }
  }

  lemma RunTwo(s: State, a: Event, b: Event)
    ensures Run(s, [a, b]) == Step(Step(s, a), b)
  {
    hide Step;
    assert [a][..0] == [];
    assert Run(s, [a]) == Step(s, a);
    assert [a, b][..1] == [a];
  }

  /** Every request under way is rejected, and every operation that has begun ends. */
  function Quitting(m: nat): seq<Event> {
    if m == 0 then [] else Quitting(m - 1) + [Reject(m - 1), Finish(m - 1)]
  }

  /** The resets that a later one has overtaken give way, or fail. */
  function GivingWay(m: nat): seq<Event> {
    if m == 0 then [] else GivingWay(m - 1) + [Proceed(m - 1), ClearAnswered(m - 1, false)]
  }

  predicate AllOld(t: State) {
    forall k :: 0 <= k < |t.ops| ==> t.ops[k].epoch < t.epoch
  }

  predicate Quiet(t: State, m: nat) {
    forall k :: 0 <= k < m && k < |t.ops| ==> !Active(t.ops[k])
  }

  /** Operations have only ended. */
  predicate Wound(t: State, t': State) {
    && t' == t.(ops := t'.ops) && |t'.ops| == |t.ops|
    && forall k :: 0 <= k < |t.ops| ==> t'.ops[k] == t.ops[k] || (Active(t.ops[k]) && t'.ops[k] == t.ops[k].(stage := t'.ops[k].stage))
  }

  lemma QuitOne(t: State, k: nat)
    requires AllOld(t) && k < |t.ops|
    ensures var t' := Step(Step(t, Reject(k)), Finish(k));
            Wound(t, t') && !Active(t'.ops[k]) && forall j :: 0 <= j < |t.ops| && j != k ==> t'.ops[j] == t.ops[j]
  {
  }

  lemma {:induction false} Quits(t: State, m: nat)
    requires AllOld(t) && m <= |t.ops|
    ensures var t' := Run(t, Quitting(m)); Wound(t, t') && AllOld(t') && Quiet(t', m)
    decreases m
  {
    if m > 0 {
      Quits(t, m - 1);
      var u := Run(t, Quitting(m - 1));
      RunConcat(t, Quitting(m - 1), [Reject(m - 1), Finish(m - 1)]);
      RunTwo(u, Reject(m - 1), Finish(m - 1));
      QuitOne(u, m - 1);
      hide *;
      WoundMore(t, u, Run(t, Quitting(m)), m);
    }
  }

  lemma WoundMore(t: State, u: State, v: State, m: nat)
    requires 0 < m <= |t.ops| && Wound(t, u) && Wound(u, v) && AllOld(u) && Quiet(u, m - 1)
    requires !Active(v.ops[m - 1]) && forall j :: 0 <= j < |u.ops| && j != m - 1 ==> v.ops[j] == u.ops[j]
    ensures Wound(t, v) && AllOld(v) && Quiet(v, m)
  {
    forall k | 0 <= k < |t.ops|
      ensures v.ops[k] == t.ops[k] || (Active(t.ops[k]) && v.ops[k] == t.ops[k].(stage := v.ops[k].stage))
    {
      assert u.ops[k] == t.ops[k] || (Active(t.ops[k]) && u.ops[k] == t.ops[k].(stage := u.ops[k].stage));
    }
  }

  /** Only the progress of the first m resets has changed, and they have settled. */
  predicate Passed(t: State, t': State, m: nat) {
    && t' == t.(resets := t'.resets) && |t'.resets| == |t.resets|
    && (forall r :: 0 <= r < |t.resets| ==> t'.resets[r] == t.resets[r].(progress := t'.resets[r].progress))
    && (forall r :: m <= r < |t.resets| ==> t'.resets[r] == t.resets[r])
    && (forall r :: 0 <= r < m && r < |t.resets| ==> Settled(t'.resets[r]))
  }

  lemma PassOne(t: State, r: nat)
    requires Inv(t) && Known(t) && Quiet(t, |t.ops|) && r < |t.resets| - 1 && (r > 0 ==> Settled(t.resets[r - 1]))
    ensures var t' := Step(Step(t, Proceed(r)), ClearAnswered(r, false));
            Settled(t'.resets[r]) && t' == t.(resets := t.resets[r := t.resets[r].(progress := t'.resets[r].progress)])
  {
    assert Awaited(t.ops, t.resets[r].active);
    assert t.resets[r].epoch != t.epoch;
    hide Guarded;
    hide Fenced;
  }

  lemma {:induction false} Passes(t: State, m: nat)
    requires Inv(t) && Known(t) && Quiet(t, |t.ops|) && m < |t.resets|
    ensures var t' := Run(t, GivingWay(m)); Passed(t, t', m)
    decreases m
  {
    if m > 0 {
      Passes(t, m - 1);
      var u := Run(t, GivingWay(m - 1));
      RunConcat(t, GivingWay(m - 1), [Proceed(m - 1), ClearAnswered(m - 1, false)]);
      RunTwo(u, Proceed(m - 1), ClearAnswered(m - 1, false));
      RunKeepsKnown(t, GivingWay(m - 1));
      PassedKeeps(t, u, m - 1);
      PassOne(u, m - 1);
      hide *;
      PassedMore(t, u, Run(t, GivingWay(m)), m);
    }
  }

  lemma PassedKeeps(t: State, u: State, m: nat)
    requires Passed(t, u, m) && Quiet(t, |t.ops|) && m < |t.resets|
    ensures Quiet(u, |u.ops|) && |u.resets| == |t.resets| && (m > 0 ==> Settled(u.resets[m - 1]))
  {
  }

  lemma PassedMore(t: State, u: State, v: State, m: nat)
    requires 0 < m <= |t.resets| && Passed(t, u, m - 1)
    requires |u.resets| == |t.resets| && |v.resets| == |u.resets|
    requires Settled(v.resets[m - 1]) && v == u.(resets := u.resets[m - 1 := u.resets[m - 1].(progress := v.resets[m - 1].progress)])
    ensures Passed(t, v, m)
  {
  }

  lemma {:induction false} RunKeepsKnown(t: State, events: seq<Event>)
    requires Inv(t) && Known(t)
    ensures Inv(Run(t, events)) && Known(Run(t, events))
    decreases |events|
  {
    hide Inv;
    hide Known;
    hide Step;
    if events != [] {
      RunKeepsKnown(t, events[..|events| - 1]);
      StepKeeps(Run(t, events[..|events| - 1]), events[|events| - 1]);
      StepKnown(Run(t, events[..|events| - 1]), events[|events| - 1]);
    }
  }

  /** Operation i may begin, and the last reset is next. */
  predicate Free(u: State, i: nat) {
    && u.resets != [] && !u.failed && i < |u.ops| && u.ops[i].stage.Waiting? && u.ops[i].stage.barrier < |u.resets|
    && (forall r :: 0 <= r < |u.resets| - 1 ==> Settled(u.resets[r]))
    && (var last := u.resets[|u.resets| - 1];
        last.progress.Pending? && last.epoch == u.epoch && i !in last.active && AllEnded(u, last.active))
  }

  /** Operation i has gone on, and the last reset too. */
  function After(u: State, i: nat, stage: Stage, held: Option<(int, Rec)>, progress: Progress, store: map<int, Rec>): State
    requires i < |u.ops| && u.resets != []
  {
    var n := |u.resets| - 1;
    u.(ops := u.ops[i := Op(u.epoch, stage, held)], resets := u.resets[n := u.resets[n].(progress := progress)], store := store)
  }

  lemma Enters(u: State, i: nat)
    requires Free(u, i)
    ensures Run(u, [Enter(i), Track(i)]) == After(u, i, Idle, None, Pending, u.store)
  {
    assert u.resets[|u.resets| - 1 := u.resets[|u.resets| - 1].(progress := Pending)] == u.resets;
    assert Step(u, Enter(i)) == After(u, i, Entered, None, Pending, u.store);
    RunTwo(u, Enter(i), Track(i));
    hide Run;
  }

  lemma Reads(u: State, i: nat, id: int)
    requires Free(u, i) && id in u.store
    ensures Run(After(u, i, Idle, None, Pending, u.store), [Ask(i, Read(id)), Answer(i)]) ==
      After(u, i, Idle, Some((id, u.store[id])), Pending, u.store)
  {
    assert Step(After(u, i, Idle, None, Pending, u.store), Ask(i, Read(id))) == After(u, i, Asked(Read(id)), None, Pending, u.store);
    RunTwo(After(u, i, Idle, None, Pending, u.store), Ask(i, Read(id)), Answer(i));
    hide Run;
  }

  lemma Clears(u: State, i: nat, held: Option<(int, Rec)>)
    requires Free(u, i)
    ensures Run(After(u, i, Idle, held, Pending, u.store), [Proceed(|u.resets| - 1), ClearAnswered(|u.resets| - 1, true)]) ==
      After(u, i, Idle, held, Cleared, map[])
  {
    var n := |u.resets| - 1;
    assert Step(After(u, i, Idle, held, Pending, u.store), Proceed(n)) == After(u, i, Idle, held, Clearing, u.store);
    RunTwo(After(u, i, Idle, held, Pending, u.store), Proceed(n), ClearAnswered(n, true));
    hide Run;
  }

  lemma Writes(u: State, i: nat, id: int, rec: Rec)
    requires Free(u, i)
    ensures var held, back := Some((id, rec)), Write(id, Rec(u.epoch, rec.origin));
            Run(After(u, i, Idle, held, Cleared, map[]), [Ask(i, back), Answer(i)]) ==
              After(u, i, Idle, held, Cleared, map[id := Rec(u.epoch, rec.origin)])
  {
    var held, back := Some((id, rec)), Write(id, Rec(u.epoch, rec.origin));
    assert Step(After(u, i, Idle, held, Cleared, map[]), Ask(i, back)) == After(u, i, Asked(back), held, Cleared, map[]);
    RunTwo(After(u, i, Idle, held, Cleared, map[]), Ask(i, back), Answer(i));
    hide Run;
  }

  /** Read before the clear, write back after it. */
  lemma FreeCarries(u: State, i: nat, id: int)
    requires Free(u, i) && id in u.store && u.store[id].origin < |u.resets|
    ensures Reaches(u, |u.resets| - 1)
  {
    var rec, n := u.store[id], |u.resets| - 1;
    var back := Write(id, Rec(u.epoch, rec.origin));
    var one, two, three, four := [Enter(i), Track(i)], [Ask(i, Read(id)), Answer(i)], [Proceed(n), ClearAnswered(n, true)], [Ask(i, back), Answer(i)];
    CarriesAfter(u, i, Some((id, rec)), id, rec);
    assert i < |u.ops| && u.resets != [];
    hide *;
    Enters(u, i);
    Reads(u, i, id);
    Clears(u, i, Some((id, rec)));
    Writes(u, i, id, rec);
    RunConcat(u, one, two);
    RunConcat(u, one + two, three);
    RunConcat(u, one + two + three, four);
    ReachesBy(u, one + two + three + four, n);
  }

  lemma ReachesBy(z: State, events: seq<Event>, n: nat)
    requires Carries(Run(z, events), n)
    ensures Reaches(z, n)
  {
  }

  lemma ReachesLater(z: State, some: seq<Event>, n: nat)
    requires Reaches(Run(z, some), n)
    ensures Reaches(z, n)
  {
    var more :| Carries(Run(Run(z, some), more), n);
    hide Run;
    hide Carries;
    RunConcat(z, some, more);
    ReachesBy(z, some + more, n);
  }

  lemma CarriesAfter(u: State, i: nat, held: Option<(int, Rec)>, id: int, rec: Rec)
    requires i < |u.ops| && u.resets != [] && rec.origin < |u.resets|
    ensures Carries(After(u, i, Idle, held, Cleared, map[id := Rec(u.epoch, rec.origin)]), |u.resets| - 1)
  {
    assert id in map[id := Rec(u.epoch, rec.origin)];
  }

  /** Reset n has just been called, perhaps a request has been answered, and operation i waits. */
  predicate Called(z: State, n: nat, i: nat) {
    && Inv(z) && Known(z) && AllOld(z) && !z.failed && |z.resets| == n + 1 && z.epoch == n + 1
    && z.resets[n].progress.Pending? && i !in z.resets[n].active
    && i < |z.ops| && z.ops[i].stage.Waiting? && z.ops[i].stage.barrier <= n
  }

  lemma BecomesFree(z: State, t: State, u: State, n: nat, i: nat)
    requires Called(z, n, i) && Wound(z, t) && Quiet(t, |t.ops|) && Passed(t, u, n) && Known(u)
    ensures Free(u, i) && |u.resets| == n + 1 && u.store == z.store
  {
    assert u.resets[n] == t.resets[n] == z.resets[n];
    assert t.ops[i] == z.ops[i];
    assert Awaited(u.ops, u.resets[n].active);
    hide Inv;
  }

  lemma CalledFrees(z: State, n: nat, i: nat)
    requires Called(z, n, i)
    ensures var u := Run(Run(z, Quitting(|z.ops|)), GivingWay(n)); Free(u, i) && |u.resets| == n + 1 && u.store == z.store
  {
    var t := Run(z, Quitting(|z.ops|));
    assert Inv(z) && Known(z) && AllOld(z) && |z.resets| == n + 1;
    Quits(z, |z.ops|);
    assert |t.resets| == n + 1 && Quiet(t, |t.ops|) && t.store == z.store;
    hide *;
    RunKeepsKnown(z, Quitting(|z.ops|));
    Passes(t, n);
    RunKeepsKnown(t, GivingWay(n));
    BecomesFree(z, t, Run(t, GivingWay(n)), n, i);
  }

  lemma CalledCarries(z: State, n: nat, i: nat, id: int)
    requires Called(z, n, i) && id in z.store && z.store[id].origin <= n
    ensures Reaches(z, n)
  {
    var t := Run(z, Quitting(|z.ops|));
    CalledFrees(z, n, i);
    hide *;
    FreeCarries(Run(t, GivingWay(n)), i, id);
    ReachesLater(t, GivingWay(n), n);
    ReachesLater(z, Quitting(|z.ops|), n);
  }

  /** A record that is stored when reset() is called. */
  lemma StoredCarries(s: State, i: nat, id: int)
    requires Inv(s) && Known(s) && i < |s.ops| && s.ops[i].stage.Waiting? && id in s.store
    ensures CanCarry(s)
  {
    ResetKeeps(s);
    ResettingKnown(s);
    JustCalled(s, i);
    assert s.store[id].origin <= |s.resets| by { OriginAt(s, id); }
    hide *;
    assert Resetting(s).store == s.store by { SameRows(s); }
    CalledCarries(Resetting(s), |s.resets|, i, id);
    CanCarryBy(s);
  }

  lemma SameRows(s: State)
    ensures Resetting(s).store == s.store
  {
  }

  lemma CanCarryBy(s: State)
    requires Reaches(Resetting(s), |s.resets|)
    ensures CanCarry(s)
  {
  }

  lemma OriginAt(s: State, id: int)
    requires Inv(s) && Known(s) && id in s.store
    ensures s.store[id].origin <= |s.resets|
  {
  }

  lemma JustCalled(s: State, i: nat)
    requires Inv(s) && Known(s) && i < |s.ops| && s.ops[i].stage.Waiting?
    requires Inv(Resetting(s)) && Known(Resetting(s))
    ensures Called(Resetting(s), |s.resets|, i)
  {
  }

  /** A record whose write is under way then. */
  lemma WrittenCarries(s: State, i: nat, j: nat)
    requires Inv(s) && Known(s) && i < |s.ops| && s.ops[i].stage.Waiting? && j < |s.ops| && Writing(s.ops[j])
    ensures CanCarry(s)
  {
    var z, n := Resetting(s), |s.resets|;
    var id := s.ops[j].stage.request.id;
    ResetKeeps(s);
    ResettingKnown(s);
    JustCalled(s, i);
    StepKeeps(z, Answer(j));
    StepKnown(z, Answer(j));
    AnsweredCalled(s, i, j);
    hide *;
    CalledCarries(Step(z, Answer(j)), n, i, id);
    RunOne(z, Answer(j));
    ReachesLater(z, [Answer(j)], n);
    CanCarryBy(s);
  }

  lemma RunOne(s: State, e: Event)
    ensures Run(s, [e]) == Step(s, e)
  {
    assert [e][..0] == [];
    hide Step;
  }

  lemma AnsweredCalled(s: State, i: nat, j: nat)
    requires Inv(s) && Known(s) && i < |s.ops| && j < |s.ops| && Writing(s.ops[j]) && Called(Resetting(s), |s.resets|, i)
    requires Inv(Step(Resetting(s), Answer(j))) && Known(Step(Resetting(s), Answer(j)))
    ensures var z, id := Step(Resetting(s), Answer(j)), s.ops[j].stage.request.id;
            Called(z, |s.resets|, i) && id in z.store && z.store[id].origin <= |s.resets|
  {
    assert Bounded(s.ops[j], s.epoch);
    hide Guarded;
    hide Fenced;
  }

  lemma SomeKey(store: map<int, Rec>) returns (id: int)
    requires store != map[]
    ensures id in store
  {
    assert (forall k :: k !in store) ==> store == map[];
    id :| id in store;
  }

  lemma StateCarries(s: State)
    requires Inv(s) && Known(s)
    ensures CanCarry(s) <==> SomeWaits(s) && (s.store != map[] || SomeWrites(s))
  {
    hide Inv;
    hide Known;
    hide CanCarry;
    if !SomeWaits(s) {
      NothingWaits(s);
    } else if s.store == map[] && !SomeWrites(s) {
      NothingThere(s);
    } else {
      var i :| 0 <= i < |s.ops| && s.ops[i].stage.Waiting?;
      if s.store != map[] {
        var id := SomeKey(s.store);
        StoredCarries(s, i, id);
      } else {
        var j :| 0 <= j < |s.ops| && Writing(s.ops[j]);
        WrittenCarries(s, i, j);
      }
    }
  }

  /** After any run: bytes from before a reset that is called now can be stored once it has cleared the store exactly
      when an operation waits to begin, and a record is stored or its write is under way. */
  lemma CarryIff(store: map<int, Rec>, events: seq<Event>)
    requires Original(store)
    ensures var s := Run(Initial(store), events); CanCarry(s) <==> SomeWaits(s) && (s.store != map[] || SomeWrites(s))
  {
    RunKnown(store, events);
    hide *;
    StateCarries(Run(Initial(store), events));
  }

  /** Such a state is reached from an empty cache: one operation has stored a record and still runs, another waits. */
  lemma CarryReached()
    ensures var events := [Call, Enter(0)] + [Track(0), Ask(0, Write(7, Rec(0, 0)))] + [Answer(0), Call];
            CanCarry(Run(Initial(map[]), events)) && 7 in Run(Initial(map[]), events).store
  {
    var s0 := Initial(map[]);
    var s1 := State(0, [Op(0, Entered, None)], [], false, map[]);
    var s2 := State(0, [Op(0, Asked(Write(7, Rec(0, 0))), None)], [], false, map[]);
    var s3 := State(0, [Op(0, Idle, None), Op(0, Waiting(0), None)], [], false, map[7 := Rec(0, 0)]);
    var one, two, three := [Call, Enter(0)], [Track(0), Ask(0, Write(7, Rec(0, 0)))], [Answer(0), Call];
    assert Run(s0, one) == s1 by { RunTwo(s0, Call, Enter(0)); }
    assert Run(s1, two) == s2 by { RunTwo(s1, Track(0), Ask(0, Write(7, Rec(0, 0)))); }
    assert Run(s2, three) == s3 by { RunTwo(s2, Answer(0), Call); }
    assert SomeWaits(s3) by { assert s3.ops[1].stage.Waiting?; }
    assert 7 in s3.store && s3.store != map[];
    RunKeepsKnown(s0, one + two + three);
    assert Inv(s0) && Known(s0);
    hide *;
    RunConcat(s0, one, two);
    RunConcat(s0, one + two, three);
    StateCarries(s3);
  }
}
