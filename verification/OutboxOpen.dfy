/** When the outbox of clients/core/src/outbox.ts can still request an item: after any run, under the lease or without it,
    with pauses, retries and rejected store operations. */
module OutboxOpen {
  import opened Results
  import opened OutboxQueue
  import opened OutboxRows
  import opened OutboxOnce
  import opened OutboxAgain

  // ---- what may follow ----

  predicate AllOther(events: seq<Event>, id: Id) {
    forall i :: 0 <= i < |events| && events[i].Enqueue? ==> events[i].id != id
  }

  /** Some continuation in which no new item takes the name ends with a request for the item. */
  ghost predicate CanRequest(s: State, id: Id) {
    exists events :: AllOther(events, id) && Repeats(s, Run(s, events), id)
  }

  /** Besides, nothing is retried anew, and without the lease no deletion is rejected and every item is sent in its own
      chat. */
  predicate Gentle(e: Event, id: Id, exclusive: bool, chatOf: Id -> int) {
    !e.RetryCalled? && (e.Enqueue? ==> e.id != id) && (exclusive || ((e.Removed? ==> e.ok) && Placing(e, chatOf)))
  }

  predicate AllGentle(events: seq<Event>, id: Id, exclusive: bool, chatOf: Id -> int) {
    forall i :: 0 <= i < |events| ==> Gentle(events[i], id, exclusive, chatOf)
  }

  ghost predicate CanGently(s: State, id: Id, chatOf: Id -> int) {
    exists events :: AllGentle(events, id, s.exclusive, chatOf) && Repeats(s, Run(s, events), id)
  }

  /** At most one send of an item holds its lease. */
  predicate Held(s: State) {
    Inv(s) && (s.exclusive ==> OneHolder(s))
  }

  lemma StepHeld(s: State, e: Event)
    requires Held(s)
    ensures Held(Step(s, e)) && Step(s, e).exclusive == s.exclusive
  {
    StepKeeps(s, e);
    SameLease(s, e);
    if s.exclusive {
      StepHolders(s, e);
    }
    hide Inv;
    hide OneHolder;
    hide Step;
  }

  lemma {:induction false} RunHeld(s: State, events: seq<Event>)
    requires Held(s)
    ensures Held(Run(s, events)) && Run(s, events).exclusive == s.exclusive
    decreases |events|
  {
    hide Held;
    hide Step;
    if events != [] {
      RunHeld(s, events[..|events| - 1]);
      StepHeld(Run(s, events[..|events| - 1]), events[|events| - 1]);
    }
  }

  // ---- spent items ----

  predicate SpentSend(stage: Stage, live: bool) {
    match stage
    case Reading(found) => found.None? || !live
    case Writing(_, durable) => !durable && !live
    case Rereading(found) => found.None?
    case Failing(_, durable) => !durable
    case _ => true
  }

  predicate SpentRetry(stage: RetryStage) {
    match stage
    case Looking(found) => found.None? || found.value.status.Sending?
    case Restoring(_, durable) => !durable
    case Over => true
  }

  predicate SendsSpent(s: State, id: Id) {
    forall i :: 0 <= i < |s.sends| && s.sends[i].id == id ==> SpentSend(s.sends[i].stage, Live(s, i))
  }

  predicate RetriesSpent(s: State, id: Id) {
    forall k :: 0 <= k < |s.retries| && s.retries[k].id == id ==> SpentRetry(s.retries[k].stage)
  }

  predicate NoRow(s: State, id: Id) {
    id !in s.ram && id !in s.disk
  }

  /** No plane holds the item, and no send or retry of it carries a row that it can still write or request. */
  predicate Spent(s: State, id: Id) {
    NoRow(s, id) && SendsSpent(s, id) && RetriesSpent(s, id)
  }

  // ---- spent for good ----

  /** A step of send i leaves it spent. */
  predicate SpentAt(s': State, i: nat, id: Id)
    requires i < |s'.sends|
  {
    NoRow(s', id) && (s'.sends[i].id == id ==> SpentSend(s'.sends[i].stage, Live(s', i)))
  }

  lemma MovedSpent(s: State, s': State, i: nat, id: Id)
    requires Spent(s, id) && Moved(s, s', i) && SpentAt(s', i, id)
    ensures Spent(s', id)
  {
    hide Begun;
    hide Ready;
    hide SpentSend;
    hide SpentRetry;
  }

  lemma ReadSpends(s: State, i: nat, durable: bool, ok: bool, id: Id)
    requires i < |s.sends| && SpentAt(s, i, id) && s.sends[i].stage.Reading?
    ensures SpentAt(ReadFinished(s, i, durable, ok), i, id)
  {
  }

  lemma RequestSpends(s: State, i: nat, ok: bool, id: Id)
    requires i < |s.sends| && SpentAt(s, i, id) && s.sends[i].stage.Writing?
    ensures SpentAt(Requested(s, i, ok), i, id)
  {
  }

  lemma AnswerSpends(s: State, i: nat, ok: bool, id: Id)
    requires i < |s.sends| && SpentAt(s, i, id) && s.sends[i].stage.Requesting?
    ensures SpentAt(Answered(s, i, ok), i, id)
  {
    hide Live;
  }

  lemma DeletionSpends(s: State, i: nat, ok: bool, id: Id)
    requires i < |s.sends| && SpentAt(s, i, id) && s.sends[i].stage.Removing?
    ensures SpentAt(Deleted(s, i, ok), i, id)
  {
    hide Live;
  }

  lemma NoteSpends(s: State, i: nat, durable: bool, ok: bool, id: Id)
    requires i < |s.sends| && SpentAt(s, i, id) && s.sends[i].stage.Rereading?
    ensures SpentAt(FailureNoted(s, i, durable, ok), i, id)
  {
    hide Live;
  }

  lemma StoreSpends(s: State, i: nat, ok: bool, id: Id)
    requires i < |s.sends| && SpentAt(s, i, id) && s.sends[i].stage.Failing?
    ensures SpentAt(FailureStored(s, i, ok), i, id)
  {
    hide Live;
  }

  lemma ClaimSpends(s: State, i: nat, id: Id)
    requires i < |s.sends| && SpentAt(s, i, id)
    ensures SpentAt(At(s, i, Leasing), i, id) && SpentAt(At(s, i, Finished), i, id)
    ensures SpentAt(At(s, i, Reading(Lookup(s.ram, s.sends[i].id))), i, id)
  {
    hide Live;
  }

  lemma MoverSpends(s: State, e: Event, id: Id)
    requires Mover(e).Some? && Step(s, e) != s && Mover(e).value < |s.sends| == |Step(s, e).sends|
    requires SpentAt(s, Mover(e).value, id)
    ensures SpentAt(Step(s, e), Mover(e).value, id)
  {
    match e {
      case Begin(i) => ClaimSpends(s, i, id);
      case Claim(i) => ClaimSpends(s, i, id);
      case ReadBack(i, durable, ok) => ReadSpends(s, i, durable, ok, id);
      case Wrote(i, ok) => RequestSpends(s, i, ok, id);
      case Answer(i, ok) => AnswerSpends(s, i, ok, id);
      case Removed(i, ok) => DeletionSpends(s, i, ok, id);
      case Reread(i, durable, ok) => NoteSpends(s, i, durable, ok, id);
      case FailureWritten(i, ok) => StoreSpends(s, i, ok, id);
    }
    hide SpentAt;
    hide At;
    hide ReadFinished;
    hide Requested;
    hide Answered;
    hide Deleted;
    hide FailureNoted;
    hide FailureStored;
    hide Lookup;
    hide Live;
    hide Ready;
    hide LeaseFree;
  }

  lemma ScheduledSpent(s: State, chat: int, other: Id, id: Id)
    requires Spent(s, id)
    ensures Spent(Scheduled(s, chat, other), id)
  {
    var t := Scheduled(s, chat, other);
    assert forall i :: 0 <= i < |s.sends| ==> t.sends[i] == s.sends[i] && Live(t, i) == Live(s, i);
    hide RetriesSpent;
  }

  lemma RetryReadSpent(s: State, k: nat, durable: bool, ok: bool, id: Id)
    requires Spent(s, id) && k < |s.retries| && s.retries[k].stage.Looking?
    ensures Spent(Retried(s, k, durable, ok), id)
  {
    RetryPlanes(s, k, durable, ok, id);
    RetrySame(s, k, durable, ok);
    hide Retried;
    SameSpent(s, Retried(s, k, durable, ok), id);
  }

  lemma RetryPlanes(s: State, k: nat, durable: bool, ok: bool, id: Id)
    requires NoRow(s, id) && RetriesSpent(s, id) && k < |s.retries| && s.retries[k].stage.Looking?
    ensures NoRow(Retried(s, k, durable, ok), id) && RetriesSpent(Retried(s, k, durable, ok), id)
  {
    assert s.retries[k].id == id ==> SpentRetry(s.retries[k].stage);
  }

  lemma SameSpent(s: State, t: State, id: Id)
    requires SendsSpent(s, id) && SameQueue(s, t)
    ensures SendsSpent(t, id)
  {
    assert forall i :: 0 <= i < |s.sends| ==> t.sends[i] == s.sends[i] && Live(t, i) == Live(s, i);
    hide SpentSend;
    hide Live;
  }

  lemma RetryWroteSpent(s: State, k: nat, ok: bool, id: Id)
    requires Spent(s, id) && k < |s.retries| && s.retries[k].stage.Restoring?
    ensures Spent(Restored(s, k, ok), id)
  {
    var r := s.retries[k];
    var t := RetryAt(s, k, Over);
    assert forall i :: 0 <= i < |s.sends| ==> t.sends[i] == s.sends[i] && Live(t, i) == Live(s, i);
    assert Spent(t, id);
    if ok {
      var u := t.(disk := DiskAfter(s.disk, r.id, r.stage.item, r.stage.durable));
      assert forall i :: 0 <= i < |s.sends| ==> u.sends[i] == s.sends[i] && Live(u, i) == Live(s, i);
      assert Spent(u, id);
      ScheduledSpent(u, r.stage.item.chat, r.id, id);
      hide Scheduled;
    }
    hide SpentSend;
    hide Live;
  }

  /** A send that a pause has overtaken never becomes live again. */
  lemma PauseSpent(s: State, id: Id)
    requires Inv(s) && Spent(s, id)
    ensures Spent(Paused(s), id) && Spent(s.(paused := false), id)
  {
    var t, u := Paused(s), s.(paused := false);
    assert forall i :: 0 <= i < |s.sends| ==> Live(t, i) ==> Live(s, i);
    assert forall i :: 0 <= i < |s.sends| ==> Live(u, i) ==> Live(s, i);
    hide Linked;
    hide Ordered;
    hide Logged;
  }

  lemma AsideSpent(s: State, e: Event, id: Id)
    requires Spent(s, id) && (e.Enqueue? ==> e.id != id)
    requires e.Enqueue? || e.Hold? || e.Release? || e.Cancel? || e.RetryCalled?
    ensures Spent(Step(s, e), id)
  {
    var t := Step(s, e);
    AsideSame(s, e);
    assert forall i :: 0 <= i < |s.sends| ==> t.sends[i] == s.sends[i] && Live(t, i) == Live(s, i);
    hide SpentSend;
    hide Live;
  }

  lemma StepSpent(s: State, e: Event, id: Id)
    requires Inv(s) && Spent(s, id) && (e.Enqueue? ==> e.id != id)
    ensures Spent(Step(s, e), id)
  {
    if Mover(e).Some? {
      if Step(s, e) != s {
        StepMoves(s, e);
        MovedIndex(s, Step(s, e), Mover(e).value);
        hide Moved;
        MoverSpends(s, e, id);
        hide Step;
        hide SpentAt;
        MovedSpent(s, Step(s, e), Mover(e).value, id);
      }
    } else if e.RetryRead? {
      if e.k < |s.retries| && s.retries[e.k].stage.Looking? {
        RetryReadSpent(s, e.k, e.durable, e.ok, id);
        hide Retried;
      }
    } else if e.RetryWrote? {
      if e.k < |s.retries| && s.retries[e.k].stage.Restoring? {
        RetryWroteSpent(s, e.k, e.ok, id);
        hide Restored;
      }
    } else if e.Schedule? {
      ScheduledSpent(s, e.chat, e.id, id);
    } else if e.Pause? || e.Resume? {
      PauseSpent(s, id);
    } else {
      AsideSpent(s, e, id);
    }
    hide Spent;
  }

  /** No send of a spent item issues a request. */
  lemma SpentSilent(s: State, t: State, e: Event, id: Id)
    requires Spent(t, id) && NotAgain(s, t, id)
    ensures NotAgain(s, Step(t, e), id)
  {
    StepExtends(t, e);
    ExtendsTrans(s, t, Step(t, e));
    IssuedLive(t, e);
    hide Step;
  }

  lemma {:induction false} SpentForGood(s: State, events: seq<Event>, id: Id)
    requires Inv(s) && Spent(s, id) && AllOther(events, id)
    ensures Inv(Run(s, events)) && Spent(Run(s, events), id) && NotAgain(s, Run(s, events), id)
    decreases |events|
  {
    hide Spent;
    hide Inv;
    if events == [] {
      NotAgainSelf(s, id);
    } else {
      hide Step;
      var n := |events| - 1;
      SpentForGood(s, events[..n], id);
      var t := Run(s, events[..n]);
      StepKeeps(t, events[n]);
      StepSpent(t, events[n], id);
      SpentSilent(s, t, events[n], id);
    }
  }

  lemma SpentIsSilent(s: State, id: Id)
    requires Inv(s) && Spent(s, id)
    ensures !CanRequest(s, id)
  {
    hide Inv;
    hide Spent;
    hide Run;
    if CanRequest(s, id) {
      var events :| AllOther(events, id) && Repeats(s, Run(s, events), id);
      SpentForGood(s, events, id);
    }
  }

  lemma GentleRequests(s: State, id: Id, chatOf: Id -> int)
    requires CanGently(s, id, chatOf)
    ensures CanRequest(s, id)
  {
    hide Run;
    hide Repeats;
    var events: seq<Event> :| AllGentle(events, id, s.exclusive, chatOf) && Repeats(s, Run(s, events), id);
    forall i: int | 0 <= i < |events| && events[i].Enqueue?
      ensures events[i].id != id
    {
      assert Gentle(events[i], id, s.exclusive, chatOf);
    }
    assert AllOther(events, id);
  }

  // ---- an item that is not spent ----

  lemma GentlyBy(s: State, events: seq<Event>, id: Id, chatOf: Id -> int)
    requires AllGentle(events, id, s.exclusive, chatOf) && Repeats(s, Run(s, events), id)
    ensures CanGently(s, id, chatOf)
  {
  }

  lemma ConcatGentle(some: seq<Event>, more: seq<Event>, id: Id, exclusive: bool, chatOf: Id -> int)
    requires AllGentle(some, id, exclusive, chatOf) && AllGentle(more, id, exclusive, chatOf)
    ensures AllGentle(some + more, id, exclusive, chatOf)
  {
    hide Gentle;
    assert forall i :: 0 <= i < |some + more| ==> (some + more)[i] == if i < |some| then some[i] else more[i - |some|];
  }

  lemma After(s: State, e: Event, id: Id, chatOf: Id -> int)
    requires Gentle(e, id, s.exclusive, chatOf) && CanGently(Step(s, e), id, chatOf)
    ensures CanGently(s, id, chatOf)
  {
    var t := Step(s, e);
    StepExtends(s, e);
    SameLease(s, e);
    RunOne(s, e);
    assert AllGentle([e], id, s.exclusive, chatOf);
    hide Gentle;
    hide Step;
    hide Run;
    var events :| AllGentle(events, id, s.exclusive, chatOf) && Repeats(t, Run(t, events), id);
    RunExtends(t, events);
    ConcatGentle([e], events, id, s.exclusive, chatOf);
    hide AllGentle;
    RunConcat(s, [e], events);
    assert Repeats(s, Run(s, [e] + events), id);
    GentlyBy(s, [e] + events, id, chatOf);
  }

  lemma AtOnce(s: State, e: Event, id: Id, chatOf: Id -> int)
    requires Gentle(e, id, s.exclusive, chatOf) && Repeats(s, Step(s, e), id)
    ensures CanGently(s, id, chatOf)
  {
    RunOne(s, e);
    assert AllGentle([e], id, s.exclusive, chatOf);
    hide Step;
    hide Run;
    GentlyBy(s, [e], id, chatOf);
  }

  lemma FromPlain(s: State, id: Id, chatOf: Id -> int)
    requires CanRepeat(s, id, chatOf)
    ensures CanGently(s, id, chatOf)
  {
    hide Run;
    hide Repeats;
    var events :| AllFollow(events, id, s.exclusive, chatOf) && Repeats(s, Run(s, events), id);
    forall i | 0 <= i < |events|
      ensures Gentle(events[i], id, s.exclusive, chatOf)
    {
      assert Follows(events[i], id, s.exclusive, chatOf);
    }
    assert AllGentle(events, id, s.exclusive, chatOf);
  }

  // ---- a row on disk ----

  /** After a pause a send scheduled in any chat waits for none, and nothing is held. */
  predicate Fresh(s: State, n: nat, id: Id, chat: int, stage: Stage) {
    && !s.exclusive && !s.paused && |s.sends| == n + 1 && s.sends[n] == Send(s.generation, chat, id, None, stage)
    && s.holds == {} && s.ram == map[]
  }

  lemma PausesFresh(s: State, id: Id, chat: int)
    requires !s.exclusive
    ensures var t := Step(Step(Step(Step(s, Resume), Pause), Resume), Schedule(chat, id));
            Fresh(t, |s.sends|, id, chat, Waiting) && t.disk == s.disk
  {
  }

  lemma FreshClaims(s: State, n: nat, id: Id, chat: int)
    requires Fresh(s, n, id, chat, Waiting)
    ensures var t := Step(Step(s, Begin(n)), Claim(n));
            Fresh(t, n, id, chat, Reading(None)) && t.disk == s.disk
  {
    assert Ready(s, n) && Live(s, n);
    var b := Step(s, Begin(n));
    assert b == At(s, n, Leasing);
    assert LeaseFree(b, n) && Live(b, n);
    assert Step(b, Claim(n)) == At(b, n, Reading(Lookup(b.ram, id)));
    hide Ready;
    hide LeaseFree;
    hide Live;
  }

  lemma FreshRequests(s: State, n: nat, id: Id, chat: int)
    requires Fresh(s, n, id, chat, Reading(None)) && id in s.disk && !s.disk[id].status.Sent?
    ensures Repeats(s, Step(Step(s, ReadBack(n, true, true)), Wrote(n, true)), id)
  {
    hide RamAfter;
    hide DiskAfter;
  }

  lemma RequestNow(s: State, n: nat, id: Id, chat: int, chatOf: Id -> int)
    requires Fresh(s, n, id, chat, Reading(None)) && id in s.disk && !s.disk[id].status.Sent?
    ensures CanGently(s, id, chatOf)
  {
    FreshRequests(s, n, id, chat);
    var a, b := ReadBack(n, true, true), Wrote(n, true);
    RunOne(s, a);
    RunMore(s, [a], b);
    assert [a] + [b] == [a, b];
    assert AllGentle([a, b], id, s.exclusive, chatOf);
    hide Step;
    hide Run;
    hide Repeats;
    hide Fresh;
    GentlyBy(s, [a, b], id, chatOf);
  }

  lemma DiskRequests(s: State, id: Id, chatOf: Id -> int)
    requires !s.exclusive && id in s.disk && !s.disk[id].status.Sent?
    ensures CanGently(s, id, chatOf)
  {
    var chat, n := chatOf(id), |s.sends|;
    PausesFresh(s, id, chat);
    hide Fresh;
    hide Step;
    var a := Step(s, Resume);
    var b := Step(a, Pause);
    var c := Step(b, Resume);
    var d := Step(c, Schedule(chat, id));
    FreshClaims(d, n, id, chat);
    var f := Step(d, Begin(n));
    var g := Step(f, Claim(n));
    RequestNow(g, n, id, chat, chatOf);
    hide CanGently;
    After(f, Claim(n), id, chatOf);
    After(d, Begin(n), id, chatOf);
    After(c, Schedule(chat, id), id, chatOf);
    After(b, Resume, id, chatOf);
    After(a, Pause, id, chatOf);
    After(s, Resume, id, chatOf);
  }

  // ---- a row anywhere ----

  /** A row in RAM, or one on disk that no send is about to delete, is read once all sends are brought to their ends. */
  lemma AliveRequests(s: State, id: Id, chatOf: Id -> int)
    requires Inv(s) && Everywhere(UnsentRule(), s) && !NoRow(s, id) && (id !in s.ram ==> !RemovalPending(s, id))
    ensures CanGently(s, id, chatOf)
  {
    assert Alive(s.(paused := false), id) by {
      assert id in s.ram ==> Obeys(UnsentRule(), id, s.ram[id]);
      assert id in s.disk ==> Obeys(UnsentRule(), id, s.disk[id]);
      SamePending(s, id);
    }
    hide Inv;
    hide Everywhere;
    hide Alive;
    hide CanRepeat;
    ResumedRepeats(s, id, chatOf);
    FromPlain(s, id, chatOf);
  }

  lemma SamePending(s: State, id: Id)
    ensures RemovalPending(s.(paused := false), id) ==> RemovalPending(s, id)
  {
    var t := s.(paused := false);
    if RemovalPending(t, id) {
      var r :| 0 <= r < |t.sends| && Removes(t, r, id);
      assert Removes(s, r, id);
    }
  }

  /** Under the lease a row that its holder is about to delete stays if the deletion is rejected. */
  lemma PendingRejected(s: State, r: nat, id: Id)
    requires OneHolder(s) && Removes(s, r, id) && id in s.disk
    ensures var t := Step(s, Removed(r, false)); !NoRow(t, id) && !RemovalPending(t, id)
  {
    hide Live;
  }

  lemma PendingRequests(s: State, r: nat, id: Id, chatOf: Id -> int)
    requires Held(s) && s.exclusive && Everywhere(UnsentRule(), s) && id in s.disk && Removes(s, r, id)
    ensures CanGently(s, id, chatOf)
  {
    var e := Removed(r, false);
    PendingRejected(s, r, id);
    StepKeeps(s, e);
    StepUnsent(s, e);
    hide *;
    AliveRequests(Step(s, e), id, chatOf);
    assert Gentle(e, id, s.exclusive, chatOf) by { RejectionGentle(r, id, chatOf); }
    After(s, e, id, chatOf);
  }

  lemma RejectionGentle(r: nat, id: Id, chatOf: Id -> int)
    ensures Gentle(Removed(r, false), id, true, chatOf)
  {
  }

  lemma RowRequests(s: State, id: Id, chatOf: Id -> int)
    requires Held(s) && Everywhere(UnsentRule(), s) && !NoRow(s, id)
    ensures CanGently(s, id, chatOf)
  {
    assert id in s.disk ==> Obeys(UnsentRule(), id, s.disk[id]);
    hide Inv;
    hide Everywhere;
    hide CanGently;
    hide OneHolder;
    if id in s.ram || !RemovalPending(s, id) {
      AliveRequests(s, id, chatOf);
    } else if s.exclusive {
      var r :| 0 <= r < |s.sends| && Removes(s, r, id);
      PendingRequests(s, r, id, chatOf);
    } else {
      DiskRequests(s, id, chatOf);
    }
  }

  // ---- a row under way ----

  /** The step that puts back the row a failed send carries. */
  function FailureBack(s: State, i: nat): Event
    requires i < |s.sends|
  {
    if s.sends[i].stage.Rereading? then Reread(i, false, true) else FailureWritten(i, true)
  }

  function RetryBack(s: State, k: nat): Event
    requires k < |s.retries|
  {
    if s.retries[k].stage.Looking? then RetryRead(k, false, true) else RetryWrote(k, true)
  }

  lemma RowBack(s: State, e: Event, id: Id, chatOf: Id -> int)
    requires Held(s) && Everywhere(UnsentRule(), s) && Gentle(e, id, s.exclusive, chatOf) && !NoRow(Step(s, e), id)
    ensures CanGently(s, id, chatOf)
  {
    StepHeld(s, e);
    StepUnsent(s, e);
    hide *;
    RowRequests(Step(s, e), id, chatOf);
    After(s, e, id, chatOf);
  }

  lemma WritingRequests(s: State, i: nat, chatOf: Id -> int)
    requires Held(s) && Everywhere(UnsentRule(), s) && i < |s.sends| && s.sends[i].stage.Writing?
    requires s.sends[i].stage.durable || Live(s, i)
    ensures CanGently(s, s.sends[i].id, chatOf)
  {
    var id, e := s.sends[i].id, Wrote(i, true);
    if s.sends[i].stage.durable {
      assert id in Step(s, e).disk;
      hide Step;
      RowBack(s, e, id, chatOf);
    } else {
      assert Repeats(s, Step(s, e), id);
      hide Step;
      AtOnce(s, e, id, chatOf);
    }
  }

  lemma ReadingWrites(s: State, i: nat)
    requires Everywhere(UnsentRule(), s) && i < |s.sends| && s.sends[i].stage.Reading? && s.sends[i].stage.found.Some? && Live(s, i)
    requires s.sends[i].id !in s.holds
    ensures var t := Step(s, ReadBack(i, true, true));
            i < |t.sends| && t.sends[i].id == s.sends[i].id && t.sends[i].stage.Writing? && t.sends[i].stage.durable
  {
    assert StageObeys(UnsentRule(), s.sends[i].id, s.sends[i].stage);
    hide Everywhere;
    hide RamAfter;
  }

  lemma ReadingRequests(s: State, i: nat, chatOf: Id -> int)
    requires Held(s) && Everywhere(UnsentRule(), s) && i < |s.sends| && s.sends[i].stage.Reading?
    requires s.sends[i].stage.found.Some? && Live(s, i)
    ensures CanGently(s, s.sends[i].id, chatOf)
  {
    var id := s.sends[i].id;
    var t := Step(s, Release(id));
    assert t == s.(holds := s.holds - {id}) && Live(t, i);
    StepHeld(s, Release(id));
    StepUnsent(s, Release(id));
    hide Step;
    hide Held;
    hide Everywhere;
    hide Live;
    ReadingWrites(t, i);
    StepHeld(t, ReadBack(i, true, true));
    StepUnsent(t, ReadBack(i, true, true));
    WritingRequests(Step(t, ReadBack(i, true, true)), i, chatOf);
    hide CanGently;
    After(t, ReadBack(i, true, true), id, chatOf);
    After(s, Release(id), id, chatOf);
  }

  lemma FailingFills(s: State, i: nat)
    requires i < |s.sends| && (s.sends[i].stage.Rereading? || s.sends[i].stage.Failing?) && !SpentSend(s.sends[i].stage, Live(s, i))
    ensures !NoRow(Step(s, FailureBack(s, i)), s.sends[i].id)
  {
    hide Live;
  }

  lemma SendRequests(s: State, i: nat, chatOf: Id -> int)
    requires Held(s) && Everywhere(UnsentRule(), s) && i < |s.sends| && !SpentSend(s.sends[i].stage, Live(s, i))
    ensures CanGently(s, s.sends[i].id, chatOf)
  {
    hide Held;
    hide Everywhere;
    hide Live;
    hide CanGently;
    if s.sends[i].stage.Reading? {
      ReadingRequests(s, i, chatOf);
    } else if s.sends[i].stage.Writing? {
      WritingRequests(s, i, chatOf);
    } else {
      FailingFills(s, i);
      hide Step;
      hide NoRow;
      RowBack(s, FailureBack(s, i), s.sends[i].id, chatOf);
    }
  }

  lemma RetryFills(s: State, k: nat)
    requires k < |s.retries| && !SpentRetry(s.retries[k].stage)
    ensures !NoRow(Step(s, RetryBack(s, k)), s.retries[k].id)
  {
  }

  lemma RetryRequests(s: State, k: nat, chatOf: Id -> int)
    requires Held(s) && Everywhere(UnsentRule(), s) && k < |s.retries| && !SpentRetry(s.retries[k].stage)
    ensures CanGently(s, s.retries[k].id, chatOf)
  {
    RetryFills(s, k);
    hide Step;
    hide NoRow;
    hide Held;
    hide Everywhere;
    hide CanGently;
    RowBack(s, RetryBack(s, k), s.retries[k].id, chatOf);
  }

  lemma UnspentRequests(s: State, id: Id, chatOf: Id -> int)
    requires Held(s) && Everywhere(UnsentRule(), s) && !Spent(s, id)
    ensures CanGently(s, id, chatOf)
  {
    hide Held;
    hide Everywhere;
    hide CanGently;
    hide SpentSend;
    hide SpentRetry;
    hide Live;
    if !NoRow(s, id) {
      RowRequests(s, id, chatOf);
    } else if !SendsSpent(s, id) {
      var i :| 0 <= i < |s.sends| && s.sends[i].id == id && !SpentSend(s.sends[i].stage, Live(s, i));
      SendRequests(s, i, chatOf);
    } else {
      var k :| 0 <= k < |s.retries| && s.retries[k].id == id && !SpentRetry(s.retries[k].stage);
      RetryRequests(s, k, chatOf);
    }
  }

  lemma HeldKeeps(s: State)
    requires Held(s)
    ensures Inv(s)
  {
  }

  /** After any run, under the lease or without it: an item, accepted or not, can be requested, by a gentle continuation
      or by any other in which no new item takes its name, exactly when it is not spent. */
  lemma OpenIff(disk: map<Id, Item>, exclusive: bool, events: seq<Event>, id: Id, chatOf: Id -> int)
    requires forall k :: k in disk ==> !disk[k].status.Sent?
    ensures var s := Run(Initial(disk, exclusive), events);
            (CanRequest(s, id) <==> !Spent(s, id)) && (CanGently(s, id, chatOf) <==> !Spent(s, id))
  {
    var start := Initial(disk, exclusive);
    UnsentAtFirst(disk, exclusive);
    assert Held(start);
    RunHeld(start, events);
    RunUnsent(start, events);
    var s := Run(start, events);
    hide Run;
    hide Held;
    hide Everywhere;
    hide Spent;
    hide CanRequest;
    hide CanGently;
    if Spent(s, id) {
      HeldKeeps(s);
      SpentIsSilent(s, id);
      if CanGently(s, id, chatOf) {
        GentleRequests(s, id, chatOf);
      }
    } else {
      UnspentRequests(s, id, chatOf);
      GentleRequests(s, id, chatOf);
    }
  }
}
