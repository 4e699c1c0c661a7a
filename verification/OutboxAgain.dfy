/** The runs in which the outbox of clients/core/src/outbox.ts requests an accepted item again. */
module OutboxAgain {
  import opened Results
  import opened OutboxQueue
  import opened OutboxRows
  import opened OutboxOnce

  // ---- what may follow ----

  /** Nothing is retried, no deletion is rejected, and no new item takes the name. */
  predicate Plain(e: Event, id: Id) {
    !e.RetryCalled? && !e.RetryRead? && !e.RetryWrote? && (e.Removed? ==> e.ok) && (e.Enqueue? ==> e.id != id)
  }

  predicate Follows(e: Event, id: Id, exclusive: bool, chatOf: Id -> int) {
    Plain(e, id) && Chained(e, exclusive, chatOf)
  }

  predicate AllFollow(events: seq<Event>, id: Id, exclusive: bool, chatOf: Id -> int) {
    forall i :: 0 <= i < |events| ==> Follows(events[i], id, exclusive, chatOf)
  }

  /** The last request from s to t was for the item. */
  predicate Repeats(s: State, t: State, id: Id) {
    |s.log| < |t.log| && t.log[|t.log| - 1] < |t.sends| && t.sends[t.log[|t.log| - 1]].id == id
  }

  ghost predicate CanRepeat(s: State, id: Id, chatOf: Id -> int) {
    exists events :: AllFollow(events, id, s.exclusive, chatOf) && Repeats(s, Run(s, events), id)
  }

  lemma {:induction false} RunConcat(s: State, some: seq<Event>, more: seq<Event>)
    ensures Run(s, some + more) == Run(Run(s, some), more)
    decreases |more|
  {
    hide Step;
    if more == [] {
      assert some + more == some;
    } else {
      var m := |more| - 1;
      RunConcat(s, some, more[..m]);
      assert (some + more)[..|some + more| - 1] == some + more[..m];
    }
  }

  lemma RunOne(s: State, e: Event)
    ensures Run(s, [e]) == Step(s, e)
  {
    hide Step;
    assert [e][..0] == [];
  }

  // ---- a settled item stays off the wire ----

  lemma {:induction false} PlainSettles(s: State, events: seq<Event>, id: Id, chatOf: Id -> int)
    requires Base(s, chatOf) && Settled(s, id) && id in s.accepted && AllFollow(events, id, s.exclusive, chatOf)
    ensures var t := Run(s, events);
            Base(t, chatOf) && t.exclusive == s.exclusive && Settled(t, id) && id in t.accepted && NotAgain(s, t, id)
    decreases |events|
  {
    hide Settled;
    hide Base;
    hide Chained;
    if events == [] {
      NotAgainSelf(s, id);
    } else {
      hide Step;
      var n := |events| - 1;
      PlainSettles(s, events[..n], id, chatOf);
      var t := Run(s, events[..n]);
      assert Follows(events[n], id, s.exclusive, chatOf);
      assert !Revives(t, events[n], id);
      StepBase(t, events[n], chatOf);
      HolderOf(t, chatOf);
      StepSettles(t, events[n], id);
      NotAgainStep(s, t, events[n], id);
    }
  }

  lemma HolderOf(s: State, chatOf: Id -> int)
    requires Base(s, chatOf)
    ensures Inv(s) && OneHolder(s)
  {
  }

  lemma SettledSilent(s: State, id: Id, chatOf: Id -> int)
    requires Base(s, chatOf) && Settled(s, id) && id in s.accepted
    ensures !CanRepeat(s, id, chatOf)
  {
    hide Base;
    hide Run;
    hide Settled;
    hide AllFollow;
    if CanRepeat(s, id, chatOf) {
      var events :| AllFollow(events, id, s.exclusive, chatOf) && Repeats(s, Run(s, events), id);
      PlainSettles(s, events, id, chatOf);
    }
  }

  // ---- every send can be brought to its end ----

  /** The item has a row that a read will find and that no send is about to delete, and the queue runs. */
  predicate Alive(s: State, id: Id) {
    && !s.paused
    && (id in s.ram ==> !s.ram[id].status.Sent?)
    && (id !in s.ram ==> id in s.disk && !s.disk[id].status.Sent? && !RemovalPending(s, id))
  }

  /** Whatever its stage, these steps bring a send to its end: reads, writes and requests are rejected, deletions
      succeed.  A step that is not enabled changes nothing. */
  function Ending(i: nat): seq<Event> {
    [Begin(i), Claim(i), ReadBack(i, false, false), Wrote(i, false), Answer(i, false), Removed(i, true), Reread(i, false, false),
     FailureWritten(i, false)]
  }

  /** Stages that the first n steps of `Ending` leave, the first two only from a send that may start. */
  predicate Left(n: nat, stage: Stage, free: bool) {
    && (n >= 1 && free ==> !stage.Waiting?) && (n >= 2 && free ==> !stage.Leasing?)
    && (n >= 3 ==> !stage.Reading?) && (n >= 4 ==> !stage.Writing?) && (n >= 5 ==> !stage.Requesting?)
    && (n >= 6 ==> !stage.Removing?) && (n >= 7 ==> !stage.Rereading?) && (n >= 8 ==> !stage.Failing?)
  }

  /** A step of send i that leaves the row, and does not begin to delete it. */
  predicate LeavesRow(s: State, t: State, i: nat, id: Id)
    requires i < |s.sends| == |t.sends|
  {
    && t.paused == s.paused
    && (id in s.ram ==> id in t.ram) && (id in t.ram ==> (id in s.ram && t.ram[id] == s.ram[id]) || !t.ram[id].status.Sent?)
    && (id in s.disk && (s.sends[i].id == id ==> !s.sends[i].stage.Removing?) ==> id in t.disk && t.disk[id] == s.disk[id])
    && (t.sends[i].stage.Removing? ==> s.sends[i].stage.Removing?)
  }

  lemma ReadLeavesRow(s: State, i: nat, id: Id)
    requires i < |s.sends| && s.sends[i].stage.Reading?
    ensures LeavesRow(s, ReadFinished(s, i, false, false), i, id)
  {
    hide Live;
    hide Lookup;
  }

  lemma DeletionLeavesRow(s: State, i: nat, id: Id)
    requires i < |s.sends| && s.sends[i].stage.Removing?
    ensures LeavesRow(s, Deleted(s, i, true), i, id)
  {
    hide Live;
  }

  lemma NoteLeavesRow(s: State, i: nat, id: Id)
    requires i < |s.sends| && s.sends[i].stage.Rereading?
    ensures LeavesRow(s, FailureNoted(s, i, false, false), i, id)
  {
    hide Lookup;
  }

  lemma AtLeavesRow(s: State, i: nat, stage: Stage, id: Id)
    requires i < |s.sends| && !stage.Removing?
    ensures LeavesRow(s, At(s, i, stage), i, id)
  {
  }

  lemma EndingLeavesRow(s: State, i: nat, n: nat, id: Id)
    requires i < |s.sends| && n < 8 && Step(s, Ending(i)[n]) != s && i < |Step(s, Ending(i)[n]).sends| == |s.sends|
    ensures LeavesRow(s, Step(s, Ending(i)[n]), i, id)
  {
    var stage := s.sends[i].stage;
    if n == 2 && stage.Reading? {
      ReadLeavesRow(s, i, id);
    } else if n == 5 && stage.Removing? {
      DeletionLeavesRow(s, i, id);
    } else if n == 6 && stage.Rereading? {
      NoteLeavesRow(s, i, id);
    } else {
      AtLeavesRow(s, i,
                  if n == 0 && Live(s, i) then Leasing
                  else if n == 1 && Live(s, i) then Reading(Lookup(s.ram, s.sends[i].id))
                  else if n == 4 && Live(s, i) then Rereading(Lookup(s.ram, s.sends[i].id)) else Finished, id);
    }
    hide LeavesRow;
    hide At;
    hide ReadFinished;
    hide Deleted;
    hide FailureNoted;
    hide Lookup;
    hide Live;
    hide Ready;
    hide LeaseFree;
  }

  lemma RowStaysAlive(s: State, t: State, i: nat, id: Id)
    requires Alive(s, id) && Moved(s, t, i) && LeavesRow(s, t, i, id)
    ensures Alive(t, id)
  {
    hide Begun;
    hide Ready;
    hide Live;
    if id !in t.ram {
      assert s.sends[i].id == id ==> !Removes(s, i, id);
    }
    if RemovalPending(t, id) {
      WasPending(s, t, i, id);
    }
  }

  lemma WasPending(s: State, t: State, i: nat, id: Id)
    requires Moved(s, t, i) && LeavesRow(s, t, i, id) && RemovalPending(t, id)
    ensures RemovalPending(s, id)
  {
    hide Begun;
    hide Ready;
    hide Live;
    var r :| 0 <= r < |t.sends| && Removes(t, r, id);
    assert Removes(s, r, id);
  }

  lemma AliveMoves(s: State, i: nat, n: nat, id: Id)
    requires Alive(s, id) && i < |s.sends| && n < 8
    ensures Alive(Step(s, Ending(i)[n]), id)
  {
    var e := Ending(i)[n];
    assert Mover(e) == Some(i);
    hide Alive;
    hide Step;
    hide Ending;
    if Step(s, e) != s {
      StepMoves(s, e);
      MovedIndex(s, Step(s, e), i);
      hide Moved;
      EndingLeavesRow(s, i, n, id);
      RowStaysAlive(s, Step(s, e), i, id);
    }
  }

  predicate Onward(s: State, s': State, i: nat)
    requires i < |s.sends|
  {
    Moved(s, s', i) &&
    match s.sends[i].stage
    case Waiting => s'.sends[i].stage.Leasing? || s'.sends[i].stage.Finished?
    case Leasing => s'.sends[i].stage.Reading? || s'.sends[i].stage.Finished?
    case Reading(_) => s'.sends[i].stage.Writing? || s'.sends[i].stage.Finished?
    case Requesting => s'.sends[i].stage.Rereading? || s'.sends[i].stage.Finished?
    case Rereading(_) => s'.sends[i].stage.Failing? || s'.sends[i].stage.Finished?
    case _ => s'.sends[i].stage.Finished?
  }

  /** Whether step n of `Ending` is the one that a stage waits for. */
  predicate Turn(n: nat, stage: Stage) {
    match stage
    case Waiting => n == 0
    case Leasing => n == 1
    case Reading(_) => n == 2
    case Writing(_, _) => n == 3
    case Requesting => n == 4
    case Removing => n == 5
    case Rereading(_) => n == 6
    case Failing(_, _) => n == 7
    case Finished => false
  }

  lemma EarlyTurn(s: State, i: nat, n: nat)
    requires i < |s.sends| && n < 4 && Turn(n, s.sends[i].stage)
    requires n == 0 ==> Ready(s, i)
    requires n == 1 ==> LeaseFree(s, i)
    ensures Onward(s, Step(s, Ending(i)[n]), i)
  {
    StepMoves(s, Ending(i)[n]);
    hide Moved;
    hide Live;
    hide Ready;
    hide LeaseFree;
    hide Lookup;
    hide RamAfter;
  }

  lemma LateTurn(s: State, i: nat, n: nat)
    requires i < |s.sends| && 4 <= n < 8 && Turn(n, s.sends[i].stage)
    ensures Onward(s, Step(s, Ending(i)[n]), i)
  {
    StepMoves(s, Ending(i)[n]);
    match s.sends[i].stage {
      case Requesting => AnswerOnward(s, i);
      case Rereading(_) => NoteOnward(s, i);
      case _ =>
    }
    hide Moved;
    hide Live;
    hide Lookup;
    hide RamAfter;
    hide DiskAfter;
    hide Answered;
    hide FailureNoted;
  }

  lemma AnswerOnward(s: State, i: nat)
    requires i < |s.sends| && s.sends[i].stage.Requesting?
    ensures var t := Answered(s, i, false); |t.sends| == |s.sends| && (t.sends[i].stage.Rereading? || t.sends[i].stage.Finished?)
  {
    hide Live;
  }

  lemma NoteOnward(s: State, i: nat)
    requires i < |s.sends| && s.sends[i].stage.Rereading?
    ensures var t := FailureNoted(s, i, false, false); |t.sends| == |s.sends| && (t.sends[i].stage.Failing? || t.sends[i].stage.Finished?)
  {
    hide Lookup;
    hide RamAfter;
  }

  lemma NoTurn(s: State, i: nat, n: nat)
    requires i < |s.sends| && n < 8
    requires !Turn(n, s.sends[i].stage) || (n == 0 && !Ready(s, i)) || (n == 1 && !LeaseFree(s, i))
    ensures Step(s, Ending(i)[n]) == s
  {
    hide Ready;
    hide LeaseFree;
    hide Live;
    hide Lookup;
    hide RamAfter;
    hide DiskAfter;
  }

  /** Only send i differs, and only in its stage. */
  predicate Beside(s: State, t: State, i: nat) {
    && i < |s.sends| == |t.sends| && t.exclusive == s.exclusive
    && (forall j :: 0 <= j < |s.sends| && j != i ==> t.sends[j] == s.sends[j])
    && t.sends[i] == s.sends[i].(stage := t.sends[i].stage)
  }

  lemma OnwardLeft(s: State, t: State, i: nat, n: nat, free: bool)
    requires i < |s.sends| && Onward(s, t, i) && n < 8 && Turn(n, s.sends[i].stage) && Left(n, s.sends[i].stage, free)
    ensures Beside(s, t, i) && Left(n + 1, t.sends[i].stage, free)
  {
    hide Ready;
    hide Live;
    hide Begun;
  }

  lemma LeftMoves(s: State, i: nat, n: nat, free: bool)
    requires i < |s.sends| && n < 8 && Left(n, s.sends[i].stage, free)
    requires free ==> Ready(s, i) && LeaseFree(s, i)
    ensures var t := Step(s, Ending(i)[n]);
            Beside(s, t, i) && Left(n + 1, t.sends[i].stage, free)
  {
    hide Ready;
    hide LeaseFree;
    hide Step;
    hide Onward;
    if Turn(n, s.sends[i].stage) && (n == 0 ==> Ready(s, i)) && (n == 1 ==> LeaseFree(s, i)) {
      if n < 4 {
        EarlyTurn(s, i, n);
      } else {
        LateTurn(s, i, n);
      }
      OnwardLeft(s, Step(s, Ending(i)[n]), i, n, free);
    } else {
      NoTurn(s, i, n);
    }
  }

  lemma BesideFree(s: State, t: State, i: nat)
    requires Beside(s, t, i) && Linked(s) && Ready(s, i) && LeaseFree(s, i)
    ensures Ready(t, i) && LeaseFree(t, i)
  {
  }

  lemma BesideTrans(s: State, t: State, u: State, i: nat)
    requires Beside(s, t, i) && Beside(t, u, i)
    ensures Beside(s, u, i)
  {
  }

  lemma {:induction false} EndsBy(s: State, i: nat, n: nat, id: Id, free: bool)
    requires Inv(s) && Alive(s, id) && i < |s.sends| && n <= 8
    requires free ==> Ready(s, i) && LeaseFree(s, i)
    ensures var t := Run(s, Ending(i)[..n]);
            Alive(t, id) && Beside(s, t, i) && Left(n, t.sends[i].stage, free)
    decreases n
  {
    hide Inv;
    hide Alive;
    hide Ready;
    hide LeaseFree;
    if n > 0 {
      var t := Run(s, Ending(i)[..n - 1]);
      EndsBy(s, i, n - 1, id, free);
      assert Ending(i)[..n][..n - 1] == Ending(i)[..n - 1];
      assert Ending(i)[..n][n - 1] == Ending(i)[n - 1];
      hide Ending;
      if free {
        assert Linked(s) by { LinkedOf(s); }
        BesideFree(s, t, i);
      }
      AliveMoves(t, i, n - 1, id);
      LeftMoves(t, i, n - 1, free);
      hide Step;
      hide Left;
      BesideTrans(s, t, Step(t, Ending(i)[n - 1]), i);
    }
  }

  lemma LinkedOf(s: State)
    requires Inv(s)
    ensures Linked(s)
  {
  }

  lemma Ends(s: State, i: nat, id: Id)
    requires Inv(s) && Alive(s, id) && i < |s.sends|
    ensures var t := Run(s, Ending(i));
            Inv(t) && Alive(t, id) && Beside(s, t, i) && !Holding(t.sends[i].stage) &&
            (Ready(s, i) && LeaseFree(s, i) ==> t.sends[i].stage.Finished?)
  {
    RunKeeps(s, Ending(i));
    EndsBy(s, i, 8, id, Ready(s, i) && LeaseFree(s, i));
    assert Ending(i)[..8] == Ending(i);
    hide Run;
    hide Inv;
    hide Alive;
    hide Ready;
    hide LeaseFree;
    hide Ending;
  }

  function Sweep(n: nat): seq<Event> {
    if n == 0 then [] else Sweep(n - 1) + Ending(n - 1)
  }

  predicate NoneHolding(s: State, n: nat) {
    forall i :: 0 <= i < n && i < |s.sends| ==> !Holding(s.sends[i].stage)
  }

  predicate AllFinished(s: State, n: nat) {
    forall i :: 0 <= i < n && i < |s.sends| ==> s.sends[i].stage.Finished?
  }

  lemma BesideReleases(s: State, t: State, i: nat)
    requires Beside(s, t, i) && NoneHolding(s, i) && !Holding(t.sends[i].stage)
    ensures NoneHolding(t, i + 1) && (NoneHolding(s, |s.sends|) ==> NoneHolding(t, |t.sends|))
    ensures AllFinished(s, i) && t.sends[i].stage.Finished? ==> AllFinished(t, i + 1)
    ensures |t.sends| == |s.sends|
  {
    hide Holding;
  }

  lemma MayStart(s: State, i: nat)
    requires Inv(s) && i < |s.sends| && NoneHolding(s, |s.sends|) && AllFinished(s, i)
    ensures Ready(s, i) && LeaseFree(s, i)
  {
  }

  lemma NoneBelow(s: State, n: nat)
    requires n <= |s.sends| && NoneHolding(s, |s.sends|)
    ensures NoneHolding(s, n)
  {
  }

  lemma SweepsOn(s: State, n: nat)
    requires n > 0
    ensures Run(s, Sweep(n)) == Run(Run(s, Sweep(n - 1)), Ending(n - 1))
  {
    RunConcat(s, Sweep(n - 1), Ending(n - 1));
    hide Run;
    hide Ending;
  }

  lemma EndReleases(t: State, i: nat, id: Id)
    requires Inv(t) && Alive(t, id) && i < |t.sends| && NoneHolding(t, i)
    ensures var u := Run(t, Ending(i)); Inv(u) && Alive(u, id) && |u.sends| == |t.sends| && NoneHolding(u, i + 1)
  {
    Ends(t, i, id);
    hide *;
    BesideReleases(t, Run(t, Ending(i)), i);
  }

  /** One sweep releases every lease. */
  lemma {:induction false} Releases(s: State, n: nat, id: Id)
    requires Inv(s) && Alive(s, id) && n <= |s.sends|
    ensures var t := Run(s, Sweep(n));
            Inv(t) && Alive(t, id) && |t.sends| == |s.sends| && NoneHolding(t, n)
    decreases n
  {
    hide Inv;
    hide Alive;
    hide Ending;
    hide Step;
    hide Holding;
    if n > 0 {
      Releases(s, n - 1, id);
      SweepsOn(s, n);
      EndReleases(Run(s, Sweep(n - 1)), n - 1, id);
    }
  }

  lemma EndFinishes(t: State, i: nat, id: Id)
    requires Inv(t) && Alive(t, id) && i < |t.sends| && NoneHolding(t, |t.sends|) && AllFinished(t, i)
    ensures var u := Run(t, Ending(i));
            Inv(u) && Alive(u, id) && |u.sends| == |t.sends| && NoneHolding(u, |u.sends|) && AllFinished(u, i + 1)
  {
    MayStart(t, i);
    NoneBelow(t, i);
    Ends(t, i, id);
    hide *;
    BesideReleases(t, Run(t, Ending(i)), i);
  }

  /** Another one then brings every send to its end. */
  lemma {:induction false} Drains(s: State, n: nat, id: Id)
    requires Inv(s) && Alive(s, id) && n <= |s.sends| && NoneHolding(s, |s.sends|)
    ensures var t := Run(s, Sweep(n));
            Inv(t) && Alive(t, id) && |t.sends| == |s.sends| && NoneHolding(t, |t.sends|) && AllFinished(t, n)
    decreases n
  {
    hide Inv;
    hide Alive;
    hide Ending;
    hide Step;
    hide Holding;
    if n > 0 {
      Drains(s, n - 1, id);
      SweepsOn(s, n);
      EndFinishes(Run(s, Sweep(n - 1)), n - 1, id);
    }
  }

  lemma {:induction false} SweepFollows(n: nat, id: Id, exclusive: bool, chatOf: Id -> int)
    ensures AllFollow(Sweep(n), id, exclusive, chatOf)
    decreases n
  {
    if n > 0 {
      SweepFollows(n - 1, id, exclusive, chatOf);
      ConcatFollows(Sweep(n - 1), Ending(n - 1), id, exclusive, chatOf);
    }
  }

  lemma ConcatFollows(some: seq<Event>, more: seq<Event>, id: Id, exclusive: bool, chatOf: Id -> int)
    requires AllFollow(some, id, exclusive, chatOf) && AllFollow(more, id, exclusive, chatOf)
    ensures AllFollow(some + more, id, exclusive, chatOf)
  {
    hide Follows;
    assert forall i :: 0 <= i < |some + more| ==> (some + more)[i] == if i < |some| then some[i] else more[i - |some|];
  }

  // ---- a row that is there can be requested ----

  function RowOf(s: State, id: Id): Item
    requires id in s.ram || id in s.disk
  {
    if id in s.ram then s.ram[id] else s.disk[id]
  }

  /** The send that is scheduled, at some stage. */
  predicate Latest(s: State, t: State, id: Id, stage: Stage) {
    && !t.paused && |t.sends| == |s.sends| + 1 && t.sends[..|s.sends|] == s.sends && t.log == s.log
    && t.sends[|s.sends|].id == id && t.sends[|s.sends|].generation == t.generation && t.sends[|s.sends|].stage == stage
    && id !in t.holds
  }

  lemma SchedulesLatest(s: State, id: Id, chat: int)
    requires Inv(s) && Alive(s, id) && AllFinished(s, |s.sends|)
    ensures var t := Step(Step(s, Release(id)), Schedule(chat, id));
            Latest(s, t, id, Waiting) && Ready(t, |s.sends|) && t.ram == s.ram && t.disk == s.disk
  {
    hide Linked;
    hide Ordered;
    hide Logged;
  }

  lemma ClaimsLatest(s: State, t: State, id: Id)
    requires Latest(s, t, id, Waiting) && Ready(t, |s.sends|) && AllFinished(s, |s.sends|)
    ensures var u := Step(Step(t, Begin(|s.sends|)), Claim(|s.sends|));
            Latest(s, u, id, Reading(Lookup(t.ram, id))) && u.ram == t.ram && u.disk == t.disk
  {
    var n := |s.sends|;
    var b := Step(t, Begin(n));
    assert Latest(s, b, id, Leasing);
    forall j | 0 <= j < |b.sends| && j != n && b.sends[j].id == id
      ensures !Holding(b.sends[j].stage)
    {
      assert b.sends[j] == s.sends[j];
    }
    assert LeaseFree(b, n);
    hide Lookup;
    hide Ready;
    hide LeaseFree;
  }

  lemma RequestsLatest(s: State, t: State, id: Id)
    requires Latest(s, t, id, Reading(Lookup(t.ram, id)))
    requires id in t.ram || id in t.disk
    requires !RowOf(t, id).status.Sent?
    ensures Repeats(s, Step(Step(t, ReadBack(|s.sends|, true, true)), Wrote(|s.sends|, true)), id)
  {
    hide RamAfter;
    hide DiskAfter;
  }

  lemma RunMore(s: State, events: seq<Event>, e: Event)
    ensures Run(s, events + [e]) == Step(Run(s, events), e)
  {
    hide Step;
    assert (events + [e])[..|events|] == events;
  }

  lemma SixSteps(s: State, a: Event, b: Event, c: Event, d: Event, e: Event, f: Event)
    ensures Run(s, [a, b, c, d, e, f]) == Step(Step(Step(Step(Step(Step(s, a), b), c), d), e), f)
  {
    RunOne(s, a);
    RunMore(s, [a], b);
    RunMore(s, [a, b], c);
    RunMore(s, [a, b, c], d);
    RunMore(s, [a, b, c, d], e);
    RunMore(s, [a, b, c, d, e], f);
    hide Step;
    hide Run;
    assert [a] + [b] == [a, b];
    assert [a, b] + [c] == [a, b, c];
    assert [a, b, c] + [d] == [a, b, c, d];
    assert [a, b, c, d] + [e] == [a, b, c, d, e];
    assert [a, b, c, d, e] + [f] == [a, b, c, d, e, f];
  }

  lemma AliveRow(s: State, id: Id)
    requires Alive(s, id)
    ensures (id in s.ram || id in s.disk) && !RowOf(s, id).status.Sent?
  {
  }

  lemma StepsRepeat(s: State, id: Id, chat: int)
    requires Inv(s) && Alive(s, id) && AllFinished(s, |s.sends|)
    requires id in s.ram || id in s.disk
    ensures var n, t := |s.sends|, Step(Step(s, Release(id)), Schedule(chat, id));
            Repeats(s, Step(Step(Step(Step(t, Begin(n)), Claim(n)), ReadBack(n, true, true)), Wrote(n, true)), id)
  {
    AliveRow(s, id);
    var n := |s.sends|;
    SchedulesLatest(s, id, chat);
    hide Inv;
    hide Alive;
    hide RowOf;
    hide Step;
    hide Ready;
    hide Repeats;
    var t := Step(Step(s, Release(id)), Schedule(chat, id));
    ClaimsLatest(s, t, id);
    hide AllFinished;
    hide Latest;
    var u := Step(Step(t, Begin(n)), Claim(n));
    assert RowOf(u, id) == RowOf(s, id) by { SameRow(s, u, id); }
    RequestsLatest(s, u, id);
  }

  lemma SameRow(s: State, u: State, id: Id)
    requires u.ram == s.ram && u.disk == s.disk && (id in s.ram || id in s.disk)
    ensures RowOf(u, id) == RowOf(s, id)
  {
  }

  lemma SixFollow(id: Id, n: nat, exclusive: bool, chatOf: Id -> int)
    ensures AllFollow([Release(id), Schedule(chatOf(id), id), Begin(n), Claim(n), ReadBack(n, true, true), Wrote(n, true)], id,
                      exclusive, chatOf)
  {
  }

  lemma RepeatsBy(s: State, events: seq<Event>, id: Id, chatOf: Id -> int)
    requires AllFollow(events, id, s.exclusive, chatOf) && Repeats(s, Run(s, events), id)
    ensures CanRepeat(s, id, chatOf)
  {
  }

  lemma SendsNow(s: State, id: Id, chatOf: Id -> int)
    requires Inv(s) && Alive(s, id) && AllFinished(s, |s.sends|)
    ensures CanRepeat(s, id, chatOf)
  {
    AliveRow(s, id);
    var n, chat := |s.sends|, chatOf(id);
    StepsRepeat(s, id, chat);
    hide *;
    SixSteps(s, Release(id), Schedule(chat, id), Begin(n), Claim(n), ReadBack(n, true, true), Wrote(n, true));
    SixFollow(id, n, s.exclusive, chatOf);
    RepeatsBy(s, [Release(id), Schedule(chat, id), Begin(n), Claim(n), ReadBack(n, true, true), Wrote(n, true)], id, chatOf);
  }

  lemma Afterwards(s: State, some: seq<Event>, id: Id, chatOf: Id -> int)
    requires AllFollow(some, id, s.exclusive, chatOf) && Run(s, some).exclusive == s.exclusive && CanRepeat(Run(s, some), id, chatOf)
    ensures CanRepeat(s, id, chatOf)
  {
    hide Follows;
    var t := Run(s, some);
    RunExtends(s, some);
    hide Run;
    var events :| AllFollow(events, id, t.exclusive, chatOf) && Repeats(t, Run(t, events), id);
    ConcatFollows(some, events, id, s.exclusive, chatOf);
    hide AllFollow;
    RunConcat(s, some, events);
    assert Repeats(s, Run(s, some + events), id);
  }

  lemma SameLease(s: State, e: Event)
    ensures Step(s, e).exclusive == s.exclusive
  {
    if Mover(e).None? {
      OtherGrows(s, e);
    } else {
      MoverExclusive(s, e);
    }
    hide Step;
  }

  lemma {:induction false} RunLease(s: State, events: seq<Event>)
    ensures Run(s, events).exclusive == s.exclusive
    decreases |events|
  {
    hide Step;
    if events != [] {
      RunLease(s, events[..|events| - 1]);
      SameLease(Run(s, events[..|events| - 1]), events[|events| - 1]);
    }
  }

  lemma AliveRepeats(s: State, id: Id, chatOf: Id -> int)
    requires Inv(s) && Alive(s, id)
    ensures CanRepeat(s, id, chatOf)
  {
    hide Inv;
    hide Alive;
    var n := |s.sends|;
    Releases(s, n, id);
    var t := Run(s, Sweep(n));
    Drains(t, n, id);
    SendsNow(Run(t, Sweep(n)), id, chatOf);
    SweepFollows(n, id, s.exclusive, chatOf);
    RunLease(s, Sweep(n));
    RunLease(t, Sweep(n));
    hide *;
    Afterwards(t, Sweep(n), id, chatOf);
    Afterwards(s, Sweep(n), id, chatOf);
  }

  lemma ResumedRepeats(s: State, id: Id, chatOf: Id -> int)
    requires Inv(s) && Alive(s.(paused := false), id)
    ensures CanRepeat(s, id, chatOf)
  {
    StepKeeps(s, Resume);
    assert Step(s, Resume) == s.(paused := false);
    hide Inv;
    hide Alive;
    hide Step;
    AliveRepeats(Step(s, Resume), id, chatOf);
    RunOne(s, Resume);
    Afterwards(s, [Resume], id, chatOf);
  }

  // ---- exactly the reviving steps ----

  lemma RejectedRevives(s: State, i: nat, id: Id)
    requires OneHolder(s) && Settled(s, id) && Everywhere(UnsentRule(), s) && Removes(s, i, id) && id in s.disk
    ensures Alive(Deleted(s, i, false).(paused := false), id)
  {
    hide Live;
  }

  lemma ReadRevives(s: State, k: nat, ok: bool, id: Id)
    requires Settled(s, id) && k < |s.retries| && s.retries[k].id == id && s.retries[k].stage.Looking?
    requires RetryItem(s, k, ok).Some? && !RetryItem(s, k, ok).value.status.Sending?
    ensures Alive(Retried(s, k, false, ok).(paused := false), id)
  {
    hide RetryItem;
  }

  lemma WriteRevives(s: State, k: nat, id: Id)
    requires Settled(s, id) && Everywhere(UnsentRule(), s) && k < |s.retries| && s.retries[k].id == id
    requires s.retries[k].stage.Restoring? && s.retries[k].stage.durable && !RemovalPending(s, id)
    ensures Alive(Restored(s, k, true).(paused := false), id)
  {
    var t := Restored(s, k, true);
    assert RetryObeys(UnsentRule(), s.retries[k]);
    if RemovalPending(t.(paused := false), id) {
      var r :| 0 <= r < |t.sends| && Removes(t.(paused := false), r, id);
      assert r < |s.sends| && t.sends[r] == s.sends[r];
      assert Removes(s, r, id);
    }
  }

  lemma RevivedRepeats(s: State, e: Event, id: Id, chatOf: Id -> int)
    requires Inv(s) && OneHolder(s) && Settled(s, id) && Everywhere(UnsentRule(), s) && Revives(s, e, id)
    ensures CanRepeat(Step(s, e), id, chatOf)
  {
    StepKeeps(s, e);
    match e {
      case Removed(i, _) => RejectedRevives(s, i, id);
      case RetryRead(k, _, ok) => ReadRevives(s, k, ok, id);
      case RetryWrote(k, _) => WriteRevives(s, k, id);
      case _ =>
    }
    hide Inv;
    hide Alive;
    hide Everywhere;
    hide Settled;
    hide Retried;
    hide Restored;
    hide Deleted;
    ResumedRepeats(Step(s, e), id, chatOf);
  }

  lemma UnsentAtFirst(disk: map<Id, Item>, exclusive: bool)
    requires forall k :: k in disk ==> !disk[k].status.Sent?
    ensures Everywhere(UnsentRule(), Initial(disk, exclusive))
  {
  }

  /** After any run in which nothing has brought the accepted item back, under the lease or without it and without
      pauses: the item can be requested again after the next step, with no further rejected deletion, retry or reuse of
      its name, and no pause if there is no lease, exactly when that step is a rejected deletion of its row, or a retry
      that writes the row back. */
  lemma RepeatIff(disk: map<Id, Item>, exclusive: bool, events: seq<Event>, e: Event, id: Id, chatOf: Id -> int)
    requires Homed(disk, exclusive, chatOf) && forall k :: k in disk ==> !disk[k].status.Sent?
    requires Proper(Initial(disk, exclusive), events + [e], chatOf) && Unrevived(Initial(disk, exclusive), events, id)
    requires id in Run(Initial(disk, exclusive), events).accepted
    ensures var s := Run(Initial(disk, exclusive), events);
            CanRepeat(Step(s, e), id, chatOf) <==> Revives(s, e, id)
  {
    var start := Initial(disk, exclusive);
    var s := Run(start, events);
    assert (events + [e])[..|events|] == events;
    RunSettles(disk, exclusive, events, id, chatOf);
    UnsentAtFirst(disk, exclusive);
    RunUnsent(start, events);
    hide Run;
    StepBase(s, e, chatOf);
    HolderOf(s, chatOf);
    hide Base;
    hide Inv;
    hide OneHolder;
    hide Everywhere;
    hide Settled;
    hide Step;
    if Revives(s, e, id) {
      RevivedRepeats(s, e, id, chatOf);
    } else {
      hide Revives;
      StepSettles(s, e, id);
      AcceptedBy(s, e, id);
      SettledSilent(Step(s, e), id, chatOf);
    }
  }
}
