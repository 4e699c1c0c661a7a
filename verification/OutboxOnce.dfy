/** What the outbox of clients/core/src/outbox.ts never sends again: under the lease, across pauses too, and without it
    in a run without pauses, an accepted item that no rejected deletion and no retry has brought back. */
module OutboxOnce {
  import opened Results
  import opened OutboxQueue
  import opened OutboxRows

  // ---- one holder ----

  /** At most one send of an item is between its claim and its end. */
  predicate OneHolder(s: State) {
    forall i, j :: 0 <= i < |s.sends| && 0 <= j < |s.sends| && i != j && s.sends[i].id == s.sends[j].id ==>
      !(Holding(s.sends[i].stage) && Holding(s.sends[j].stage))
  }

  predicate OneGeneration(s: State, chatOf: Id -> int) {
    forall i :: 0 <= i < |s.sends| ==> s.sends[i].generation == s.generation && s.sends[i].chat == chatOf(s.sends[i].id)
  }

  /** The lease sees to it, or else the chain of the chat does, in a run without pauses. */
  ghost predicate Base(s: State, chatOf: Id -> int) {
    Inv(s) && OneHolder(s) && (!s.exclusive ==> OneGeneration(s, chatOf) && Everywhere(ChatRule(chatOf), s))
  }

  /** An item belongs to one chat. */
  predicate Placing(e: Event, chatOf: Id -> int) {
    (e.Schedule? ==> e.chat == chatOf(e.id)) && (e.Enqueue? ==> e.item.chat == chatOf(e.id))
  }

  /** What may happen at all: without the lease, the queue is not paused. */
  predicate Chained(e: Event, exclusive: bool, chatOf: Id -> int) {
    exclusive || (!e.Pause? && Placing(e, chatOf))
  }

  /** New items have new names. */
  predicate Allowed(s: State, e: Event, chatOf: Id -> int) {
    (e.Enqueue? ==> e.id !in s.accepted) && Chained(e, s.exclusive, chatOf)
  }

  /** A send that holds no lease only begins or claims. */
  lemma IdleSends(s: State, e: Event)
    requires Mover(e).Some? && Mover(e).value < |s.sends| && !Holding(s.sends[Mover(e).value].stage) && !e.Begin? && !e.Claim?
    ensures Step(s, e) == s
  {
    hide ReadFinished;
    hide Requested;
    hide Answered;
    hide FailureNoted;
    hide FailureStored;
    hide Deleted;
  }

  lemma ClaimOnly(s: State, e: Event)
    requires Mover(e).Some? && Step(s, e) != s && Mover(e).value < |s.sends|
    requires !Holding(s.sends[Mover(e).value].stage) && |Step(s, e).sends| == |s.sends|
    requires Holding(Step(s, e).sends[Mover(e).value].stage)
    ensures e.Claim? && LeaseFree(s, e.i)
  {
    if !e.Begin? && !e.Claim? {
      IdleSends(s, e);
    }
    hide ReadFinished;
    hide Requested;
    hide Answered;
    hide FailureNoted;
    hide FailureStored;
    hide Deleted;
    hide LeaseFree;
    hide Ready;
    hide Live;
  }

  lemma MovedHolders(s: State, s': State, i: nat)
    requires OneHolder(s) && Moved(s, s', i)
    requires Holding(s'.sends[i].stage) && !Holding(s.sends[i].stage) ==> s.exclusive && LeaseFree(s, i)
    ensures OneHolder(s')
  {
    hide Begun;
    hide Ready;
    hide Live;
    forall j, k | 0 <= j < |s'.sends| && 0 <= k < |s'.sends| && j != k && s'.sends[j].id == s'.sends[k].id
      ensures !(Holding(s'.sends[j].stage) && Holding(s'.sends[k].stage))
    {
      assert s.sends[j].id == s.sends[k].id;
    }
  }

  lemma ChainHolders(s: State, chatOf: Id -> int)
    requires Inv(s) && OneGeneration(s, chatOf)
    ensures OneHolder(s)
  {
    hide Linked;
    hide Tailed;
    hide Logged;
    forall i, j | 0 <= i < |s.sends| && 0 <= j < |s.sends| && i != j && s.sends[i].id == s.sends[j].id
      ensures !(Holding(s.sends[i].stage) && Holding(s.sends[j].stage))
    {
      if Holding(s.sends[i].stage) && Holding(s.sends[j].stage) {
        assert Alike(s, i, j);
        OneActive(s, i, j);
      }
    }
  }

  /** Steps that move no send keep what is known of the sends, and add at most one that waits. */
  predicate Grown(s: State, s': State) {
    && |s.sends| <= |s'.sends| && s'.sends[..|s.sends|] == s.sends
    && forall i :: |s.sends| <= i < |s'.sends| ==> s'.sends[i].stage.Waiting?
  }

  lemma ScheduledGrows(s: State, t: State, chat: int, id: Id)
    requires t.sends == s.sends
    ensures Grown(s, Scheduled(t, chat, id))
  {
  }

  lemma OtherGrows(s: State, e: Event)
    requires Mover(e).None?
    ensures Grown(s, Step(s, e)) && Step(s, e).exclusive == s.exclusive && Step(s, e).accepted == s.accepted
  {
    if Aside(e) {
      AsideSame(s, e);
      hide Step;
    } else if e.Schedule? {
      ScheduledGrows(s, s, e.chat, e.id);
    } else if e.RetryWrote? && e.k < |s.retries| && s.retries[e.k].stage.Restoring? {
      var r := s.retries[e.k];
      ScheduledGrows(s, RetryAt(s, e.k, Over).(disk := DiskAfter(s.disk, r.id, r.stage.item, r.stage.durable)), r.stage.item.chat, r.id);
      hide DiskAfter;
    }
  }

  lemma GrownHolders(s: State, s': State)
    requires OneHolder(s) && Grown(s, s')
    ensures OneHolder(s')
  {
    assert forall i :: 0 <= i < |s.sends| ==> s'.sends[i] == s.sends[i];
  }

  lemma ChainGeneration(s: State, e: Event, chatOf: Id -> int)
    requires OneGeneration(s, chatOf) && Everywhere(ChatRule(chatOf), s) && Chained(e, false, chatOf)
    ensures OneGeneration(Step(s, e), chatOf) && Everywhere(ChatRule(chatOf), Step(s, e))
  {
    StepObeys(ChatRule(chatOf), s, e);
    if Mover(e).Some? {
      StepMoves(s, e);
      hide Step;
      hide Begun;
      hide Ready;
      hide Live;
      hide Everywhere;
      if Step(s, e) != s {
        MovedGeneration(s, Step(s, e), Mover(e).value, chatOf);
      }
    } else if Aside(e) {
      AsideSame(s, e);
      hide Step;
      hide Everywhere;
    } else {
      RestGeneration(s, e, chatOf);
      hide Everywhere;
    }
  }

  lemma MovedGeneration(s: State, s': State, i: nat, chatOf: Id -> int)
    requires OneGeneration(s, chatOf) && Moved(s, s', i)
    ensures OneGeneration(s', chatOf)
  {
    hide Begun;
    hide Ready;
    hide Live;
  }

  lemma ScheduledGeneration(s: State, t: State, chatOf: Id -> int, id: Id)
    requires OneGeneration(s, chatOf) && t.sends == s.sends && t.generation == s.generation
    ensures OneGeneration(Scheduled(t, chatOf(id), id), chatOf)
  {
  }

  lemma RestGeneration(s: State, e: Event, chatOf: Id -> int)
    requires OneGeneration(s, chatOf) && Everywhere(ChatRule(chatOf), s) && Chained(e, false, chatOf)
    requires e.Schedule? || e.Resume? || e.RetryWrote?
    ensures OneGeneration(Step(s, e), chatOf)
  {
    if e.Schedule? {
      ScheduledGeneration(s, s, chatOf, e.id);
    } else if e.RetryWrote? && e.k < |s.retries| && s.retries[e.k].stage.Restoring? {
      var r := s.retries[e.k];
      assert RetryObeys(ChatRule(chatOf), r);
      ScheduledGeneration(s, RetryAt(s, e.k, Over).(disk := DiskAfter(s.disk, r.id, r.stage.item, r.stage.durable)), chatOf, r.id);
      hide DiskAfter;
      hide Scheduled;
    }
  }

  lemma MoverExclusive(s: State, e: Event)
    requires Mover(e).Some?
    ensures Step(s, e).exclusive == s.exclusive
  {
    StepMoves(s, e);
    hide Step;
    hide Begun;
    hide Ready;
    hide Live;
  }

  lemma MoverHolders(s: State, e: Event)
    requires OneHolder(s) && s.exclusive && Mover(e).Some? && Step(s, e) != s
    ensures OneHolder(Step(s, e))
  {
    var s' := Step(s, e);
    var i := Mover(e).value;
    StepMoves(s, e);
    MovedIndex(s, s', i);
    if Holding(s'.sends[i].stage) && !Holding(s.sends[i].stage) {
      ClaimOnly(s, e);
    }
    hide Moved;
    hide LeaseFree;
    hide OneHolder;
    MovedHolders(s, s', i);
  }

  lemma StepHolders(s: State, e: Event)
    requires OneHolder(s) && s.exclusive
    ensures OneHolder(Step(s, e)) && Step(s, e).exclusive
  {
    if Mover(e).None? {
      OtherGrows(s, e);
      GrownHolders(s, Step(s, e));
    } else {
      MoverExclusive(s, e);
      if Step(s, e) != s {
        MoverHolders(s, e);
      }
    }
    hide Step;
    hide OneHolder;
  }

  lemma StepBase(s: State, e: Event, chatOf: Id -> int)
    requires Base(s, chatOf) && Chained(e, s.exclusive, chatOf)
    ensures Base(Step(s, e), chatOf) && Step(s, e).exclusive == s.exclusive
  {
    StepKeeps(s, e);
    if s.exclusive {
      StepHolders(s, e);
    } else {
      ChainGeneration(s, e, chatOf);
      if Mover(e).None? {
        OtherGrows(s, e);
      } else {
        MoverExclusive(s, e);
      }
      ChainHolders(Step(s, e), chatOf);
    }
    hide Step;
    hide Inv;
    hide OneHolder;
    hide OneGeneration;
    hide Everywhere;
  }

  lemma MovedIndex(s: State, s': State, i: nat)
    requires Moved(s, s', i)
    ensures i < |s.sends| == |s'.sends|
  {
  }

  // ---- what acceptance leaves behind ----

  /** Stages in which a send of an accepted item may be. */
  predicate Quiet(stage: Stage) {
    match stage
    case Waiting => true
    case Leasing => true
    case Reading(found) => found.None?
    case Removing => true
    case Rereading(found) => found.None?
    case Finished => true
    case _ => false
  }

  predicate Removes(s: State, i: nat, id: Id) {
    i < |s.sends| && s.sends[i].id == id && s.sends[i].stage.Removing?
  }

  predicate RemovalPending(s: State, id: Id) {
    exists i :: 0 <= i < |s.sends| && Removes(s, i, id)
  }

  /** The item is gone, but for the disk row that its own send is about to delete. */
  predicate Settled(s: State, id: Id) {
    && id !in s.ram && (id in s.disk ==> RemovalPending(s, id))
    && forall i :: 0 <= i < |s.sends| && s.sends[i].id == id ==> Quiet(s.sends[i].stage)
  }

  /** The steps that bring an accepted item back: the deletion of its row is rejected, or a retry that has read it
      before writes it back, to RAM at once or to a disk from which nothing is about to delete it. */
  predicate Revives(s: State, e: Event, id: Id) {
    id in s.accepted &&
    match e
    case Removed(i, ok) => !ok && Removes(s, i, id) && id in s.disk
    case RetryRead(k, durable, ok) =>
      k < |s.retries| && s.retries[k].id == id && s.retries[k].stage.Looking? && !durable &&
      RetryItem(s, k, ok).Some? && !RetryItem(s, k, ok).value.status.Sending?
    case RetryWrote(k, ok) =>
      ok && k < |s.retries| && s.retries[k].id == id && s.retries[k].stage.Restoring? && s.retries[k].stage.durable && !RemovalPending(s, id)
    case _ => false
  }

  /** A send of a settled item that reads finds nothing. */
  lemma ReadsNothing(s: State, i: nat, id: Id)
    requires OneHolder(s) && Settled(s, id) && i < |s.sends| && s.sends[i].id == id
    requires s.sends[i].stage.Reading? || s.sends[i].stage.Rereading?
    ensures s.sends[i].stage.found.None? && id !in s.disk
  {
  }

  /** A step of send i leaves the item gone. */
  predicate LeavesGone(s: State, s': State, i: nat, id: Id)
    requires i < |s.sends| == |s'.sends|
  {
    && id !in s'.ram && (id in s'.disk ==> id in s.disk)
    && (s.sends[i].id == id ==> Quiet(s'.sends[i].stage) && (s.sends[i].stage.Removing? ==> id !in s'.disk))
  }

  predicate Sober(s: State, i: nat, id: Id)
    requires i < |s.sends|
  {
    id !in s.ram &&
    (s.sends[i].id == id ==>
      Quiet(s.sends[i].stage) && (s.sends[i].stage.Reading? || s.sends[i].stage.Rereading? ==> id !in s.disk))
  }

  lemma ReadLeaves(s: State, i: nat, durable: bool, ok: bool, id: Id)
    requires i < |s.sends| && Sober(s, i, id) && s.sends[i].stage.Reading?
    ensures LeavesGone(s, ReadFinished(s, i, durable, ok), i, id)
  {
    hide Live;
  }

  lemma RequestLeaves(s: State, i: nat, ok: bool, id: Id)
    requires i < |s.sends| && Sober(s, i, id) && s.sends[i].stage.Writing?
    ensures LeavesGone(s, Requested(s, i, ok), i, id)
  {
    hide Live;
  }

  lemma AnswerLeaves(s: State, i: nat, ok: bool, id: Id)
    requires i < |s.sends| && Sober(s, i, id) && s.sends[i].stage.Requesting?
    ensures LeavesGone(s, Answered(s, i, ok), i, id)
  {
    hide Live;
  }

  lemma DeletionLeaves(s: State, i: nat, ok: bool, id: Id)
    requires i < |s.sends| && Sober(s, i, id) && s.sends[i].stage.Removing?
    requires s.sends[i].id == id && id in s.disk ==> ok
    ensures LeavesGone(s, Deleted(s, i, ok), i, id)
  {
    hide Live;
  }

  lemma NoteLeaves(s: State, i: nat, durable: bool, ok: bool, id: Id)
    requires i < |s.sends| && Sober(s, i, id) && s.sends[i].stage.Rereading?
    ensures LeavesGone(s, FailureNoted(s, i, durable, ok), i, id)
  {
  }

  lemma StoreLeaves(s: State, i: nat, ok: bool, id: Id)
    requires i < |s.sends| && Sober(s, i, id) && s.sends[i].stage.Failing?
    ensures LeavesGone(s, FailureStored(s, i, ok), i, id)
  {
  }

  lemma PlainLeaves(s: State, i: nat, stage: Stage, id: Id)
    requires i < |s.sends| && Sober(s, i, id) && !s.sends[i].stage.Removing?
    requires s.sends[i].id == id ==> Quiet(stage)
    ensures LeavesGone(s, At(s, i, stage), i, id)
  {
  }

  lemma MoverLeaves(s: State, e: Event, id: Id)
    requires Mover(e).Some? && Step(s, e) != s && Mover(e).value < |s.sends| == |Step(s, e).sends|
    requires Sober(s, Mover(e).value, id) && id in s.accepted && !Revives(s, e, id)
    ensures LeavesGone(s, Step(s, e), Mover(e).value, id)
  {
    var i := Mover(e).value;
    match e {
      case Begin(_) => PlainLeaves(s, i, if Live(s, i) then Leasing else Finished, id);
      case Claim(_) => PlainLeaves(s, i, if Live(s, i) then Reading(Lookup(s.ram, s.sends[i].id)) else Finished, id);
      case ReadBack(_, durable, ok) => ReadLeaves(s, i, durable, ok, id);
      case Wrote(_, ok) => RequestLeaves(s, i, ok, id);
      case Answer(_, ok) => AnswerLeaves(s, i, ok, id);
      case Removed(_, ok) => DeletionLeaves(s, i, ok, id);
      case Reread(_, durable, ok) => NoteLeaves(s, i, durable, ok, id);
      case FailureWritten(_, ok) => StoreLeaves(s, i, ok, id);
    }
    hide LeavesGone;
    hide Sober;
    hide At;
    hide Live;
    hide Ready;
    hide LeaseFree;
    hide ReadFinished;
    hide Requested;
    hide Answered;
    hide Deleted;
    hide FailureNoted;
    hide FailureStored;
  }

  lemma MovedSettles(s: State, s': State, i: nat, id: Id)
    requires Settled(s, id) && Moved(s, s', i) && LeavesGone(s, s', i, id)
    ensures Settled(s', id)
  {
    hide Begun;
    hide Ready;
    hide Live;
    if id in s'.disk {
      var r :| 0 <= r < |s.sends| && Removes(s, r, id);
      assert Removes(s', r, id);
    }
  }

  lemma MoverSettles(s: State, e: Event, id: Id)
    requires OneHolder(s) && Settled(s, id) && id in s.accepted && Mover(e).Some? && !Revives(s, e, id)
    ensures Settled(Step(s, e), id)
  {
    if Step(s, e) != s {
      var i := Mover(e).value;
      StepMoves(s, e);
      MovedIndex(s, Step(s, e), i);
      assert Sober(s, i, id) by {
        if s.sends[i].id == id && (s.sends[i].stage.Reading? || s.sends[i].stage.Rereading?) {
          ReadsNothing(s, i, id);
        }
      }
      MoverLeaves(s, e, id);
      hide Step;
      hide Moved;
      hide LeavesGone;
      MovedSettles(s, Step(s, e), i, id);
    }
  }

  lemma GrownSettles(s: State, s': State, id: Id)
    requires Settled(s, id) && Grown(s, s') && id !in s'.ram && (id in s'.disk ==> RemovalPending(s, id))
    ensures Settled(s', id)
  {
    assert forall i :: 0 <= i < |s.sends| ==> s'.sends[i] == s.sends[i];
    if id in s'.disk {
      var r :| 0 <= r < |s.sends| && Removes(s, r, id);
      assert Removes(s', r, id);
    }
  }

  lemma OtherPlanes(s: State, e: Event, id: Id)
    requires Settled(s, id) && id in s.accepted && Mover(e).None? && !Revives(s, e, id) && (e.Enqueue? ==> e.id != id)
    ensures id !in Step(s, e).ram && (id in Step(s, e).disk ==> RemovalPending(s, id))
  {
    if e.RetryRead? {
      if e.k < |s.retries| && s.retries[e.k].stage.Looking? {
        RetryReadPlanes(s, e.k, e.durable, e.ok, id);
      }
    } else if e.RetryWrote? {
      if e.k < |s.retries| && s.retries[e.k].stage.Restoring? {
        RetryWrotePlanes(s, e.k, e.ok, id);
      }
    }
    hide Retried;
    hide Restored;
    hide Quiet;
    hide RemovalPending;
    hide RetryItem;
    hide Removes;
  }

  lemma RetryReadPlanes(s: State, k: nat, durable: bool, ok: bool, id: Id)
    requires id !in s.ram && id in s.accepted && k < |s.retries| && s.retries[k].stage.Looking?
    requires !Revives(s, RetryRead(k, durable, ok), id)
    ensures var t := Retried(s, k, durable, ok); id !in t.ram && t.disk == s.disk
  {
    hide RetryItem;
  }

  lemma RetryWrotePlanes(s: State, k: nat, ok: bool, id: Id)
    requires id !in s.ram && (id in s.disk ==> RemovalPending(s, id)) && id in s.accepted && k < |s.retries|
    requires s.retries[k].stage.Restoring? && !Revives(s, RetryWrote(k, ok), id)
    ensures var t := Restored(s, k, ok); id !in t.ram && (id in t.disk ==> RemovalPending(s, id))
  {
    hide RemovalPending;
  }

  lemma StepSettles(s: State, e: Event, id: Id)
    requires OneHolder(s) && Settled(s, id) && id in s.accepted && !Revives(s, e, id) && (e.Enqueue? ==> e.id != id)
    ensures Settled(Step(s, e), id)
  {
    if Mover(e).Some? {
      MoverSettles(s, e, id);
    } else {
      OtherGrows(s, e);
      OtherPlanes(s, e, id);
      hide Step;
      hide Settled;
      hide Grown;
      GrownSettles(s, Step(s, e), id);
    }
  }

  /** The step that accepts an item settles it. */
  lemma AcceptSettles(s: State, i: nat)
    requires OneHolder(s) && i < |s.sends| && s.sends[i].stage.Requesting? && Live(s, i)
    ensures Settled(Answered(s, i, true), s.sends[i].id)
  {
    var s', id := Answered(s, i, true), s.sends[i].id;
    assert Removes(s', i, id);
    forall j | 0 <= j < |s'.sends| && s'.sends[j].id == id
      ensures Quiet(s'.sends[j].stage)
    {
      if j != i {
        assert !(Holding(s.sends[i].stage) && Holding(s.sends[j].stage));
      }
    }
  }

  lemma AcceptedBy(s: State, e: Event, id: Id)
    ensures s.accepted <= Step(s, e).accepted
    ensures id in Step(s, e).accepted && id !in s.accepted ==>
      e.Answer? && e.ok && e.i < |s.sends| && s.sends[e.i].id == id && s.sends[e.i].stage.Requesting? && Live(s, e.i)
  {
    if Mover(e).None? {
      OtherGrows(s, e);
      hide Step;
    } else {
      hide RamAfter;
      hide DiskAfter;
      hide Lookup;
      hide Ready;
      hide LeaseFree;
      hide Live;
    }
  }

  // ---- over whole runs ----

  ghost predicate Proper(start: State, events: seq<Event>, chatOf: Id -> int) {
    events == [] ||
    (Proper(start, events[..|events| - 1], chatOf) && Allowed(Run(start, events[..|events| - 1]), events[|events| - 1], chatOf))
  }

  ghost predicate Unrevived(start: State, events: seq<Event>, id: Id) {
    events == [] ||
    (Unrevived(start, events[..|events| - 1], id) && !Revives(Run(start, events[..|events| - 1]), events[|events| - 1], id))
  }

  /** Without the lease, the rows that are there at the start belong to their chats. */
  predicate Homed(disk: map<Id, Item>, exclusive: bool, chatOf: Id -> int) {
    exclusive || forall id :: id in disk ==> disk[id].chat == chatOf(id)
  }

  lemma {:induction false} RunSettles(disk: map<Id, Item>, exclusive: bool, events: seq<Event>, id: Id, chatOf: Id -> int)
    requires Homed(disk, exclusive, chatOf)
    requires Proper(Initial(disk, exclusive), events, chatOf) && Unrevived(Initial(disk, exclusive), events, id)
    ensures var s := Run(Initial(disk, exclusive), events);
            Base(s, chatOf) && s.exclusive == exclusive && (id in s.accepted ==> Settled(s, id))
    decreases |events|
  {
    hide Settled;
    hide Revives;
    hide OneHolder;
    if events == [] {
      InitialBase(disk, exclusive, chatOf);
    } else {
      hide Step;
      hide Inv;
      hide OneGeneration;
      hide Everywhere;
      var n := |events| - 1;
      var s := Run(Initial(disk, exclusive), events[..n]);
      RunSettles(disk, exclusive, events[..n], id, chatOf);
      StepBase(s, events[n], chatOf);
      AcceptedBy(s, events[n], id);
      if id in s.accepted {
        StepSettles(s, events[n], id);
      } else if id in Step(s, events[n]).accepted {
        AnswerStep(s, events[n]);
        AcceptSettles(s, events[n].i);
      }
    }
  }

  lemma AnswerStep(s: State, e: Event)
    requires e.Answer? && e.ok && e.i < |s.sends| && s.sends[e.i].stage.Requesting?
    ensures Step(s, e) == Answered(s, e.i, true)
  {
  }

  lemma InitialBase(disk: map<Id, Item>, exclusive: bool, chatOf: Id -> int)
    requires Homed(disk, exclusive, chatOf)
    ensures Base(Initial(disk, exclusive), chatOf) && OneHolder(Initial(disk, exclusive))
  {
  }

  /** Under the lease, through any pauses, and without it in a run without pauses: an accepted item whose row was not
      brought back is never requested again, however often it is scheduled and retried. */
  lemma {:induction false} AcceptedOnce(disk: map<Id, Item>, exclusive: bool, events: seq<Event>, more: seq<Event>, id: Id,
                                        chatOf: Id -> int)
    requires Homed(disk, exclusive, chatOf)
    requires Proper(Initial(disk, exclusive), events + more, chatOf) && Unrevived(Initial(disk, exclusive), events + more, id)
    requires id in Run(Initial(disk, exclusive), events).accepted
    ensures var s, t := Run(Initial(disk, exclusive), events), Run(Initial(disk, exclusive), events + more);
            id in t.accepted && NotAgain(s, t, id)
    decreases |more|
  {
    var start := Initial(disk, exclusive);
    var s := Run(start, events);
    if more == [] {
      assert events + more == events;
      NotAgainSelf(s, id);
    } else {
      var m := |more| - 1;
      assert (events + more)[..|events + more| - 1] == events + more[..m];
      AcceptedOnce(disk, exclusive, events, more[..m], id, chatOf);
      var t := Run(start, events + more[..m]);
      RunSettles(disk, exclusive, events + more[..m], id, chatOf);
      NotAgainStep(s, t, more[m], id);
    }
  }

  /** From s to t no send of the item issued a request. */
  predicate NotAgain(s: State, t: State, id: Id) {
    Extends(s, t) && forall n :: |s.log| <= n < |t.log| ==> t.log[n] < |t.sends| && t.sends[t.log[n]].id != id
  }

  lemma NotAgainSelf(s: State, id: Id)
    ensures NotAgain(s, s, id)
  {
  }

  lemma NotAgainStep(s: State, t: State, e: Event, id: Id)
    requires Settled(t, id) && NotAgain(s, t, id) && id in t.accepted
    ensures NotAgain(s, Step(t, e), id) && id in Step(t, e).accepted
  {
    StepExtends(t, e);
    ExtendsTrans(s, t, Step(t, e));
    IssuedLive(t, e);
    AcceptedBy(t, e, id);
    hide Step;
  }
}
