/** What a locked app keeps in the RAM plane of clients/core/src/outbox.ts.  A pause empties it; the failure branch of a
    send and a retry write to it without asking whether the queue is paused. */
module OutboxLocked {
  import opened Results
  import opened OutboxQueue
  import opened OutboxAgain

  /** A step of the locked app: the rows of some items belong in RAM only. */
  predicate Locked(s: State, e: Event, ramOnly: Id -> bool) {
    match e
    case Resume => false
    case Reread(i, durable, _) => i < |s.sends| && !durable ==> ramOnly(s.sends[i].id)
    case RetryRead(k, durable, _) => k < |s.retries| && !durable ==> ramOnly(s.retries[k].id)
    case _ => true
  }

  predicate AllLocked(s: State, events: seq<Event>, ramOnly: Id -> bool) {
    events == [] ||
    (AllLocked(s, events[..|events| - 1], ramOnly) && Locked(Run(s, events[..|events| - 1]), events[|events| - 1], ramOnly))
  }

  /** Before the next resume some row is in RAM. */
  ghost predicate CanFill(s: State, ramOnly: Id -> bool) {
    exists events :: AllLocked(s, events, ramOnly) && Run(s, events).ram != map[]
  }

  // ---- what is still under way ----

  /** `idle` asks for a row that no send has marked as its own: a retry passes over the others. */
  predicate Fitting(item: Item, idle: bool) {
    idle ==> !item.status.Sending?
  }

  predicate SendBrings(s: State, j: nat, id: Id, idle: bool) {
    && j < |s.sends| && s.sends[j].id == id && (s.sends[j].stage.Writing? || s.sends[j].stage.Failing?)
    && s.sends[j].stage.durable && Fitting(s.sends[j].stage.item, idle)
  }

  predicate RetryBrings(s: State, j: nat, id: Id, idle: bool) {
    && j < |s.retries| && s.retries[j].id == id && s.retries[j].stage.Restoring?
    && s.retries[j].stage.durable && Fitting(s.retries[j].stage.item, idle)
  }

  predicate OnDisk(s: State, id: Id, idle: bool) {
    id in s.disk && Fitting(s.disk[id], idle)
  }

  /** The disk holds a row of the item, or a write that puts one there is under way. */
  predicate Arrives(s: State, id: Id, idle: bool) {
    || OnDisk(s, id, idle)
    || (exists j :: 0 <= j < |s.sends| && SendBrings(s, j, id, idle))
    || (exists j :: 0 <= j < |s.retries| && RetryBrings(s, j, id, idle))
  }

  /** A failed send that rereads finds a row. */
  predicate SendFills(s: State, i: nat, id: Id) {
    && i < |s.sends| && s.sends[i].id == id && s.sends[i].stage.Rereading?
    && (s.sends[i].stage.found.Some? || Arrives(s, id, false))
  }

  /** A retry that reads finds a row that is not on its way. */
  predicate RetryFills(s: State, k: nat, id: Id) {
    && k < |s.retries| && s.retries[k].id == id && s.retries[k].stage.Looking?
    && if s.retries[k].stage.found.Some? then Fitting(s.retries[k].stage.found.value, true) else Arrives(s, id, true)
  }

  predicate Open(s: State, id: Id) {
    (exists i :: 0 <= i < |s.sends| && SendFills(s, i, id)) || (exists k :: 0 <= k < |s.retries| && RetryFills(s, k, id))
  }

  ghost predicate SomeOpen(s: State, ramOnly: Id -> bool) {
    exists id :: ramOnly(id) && Open(s, id)
  }

  // ---- a closed queue stays closed ----

  /** Paused, with nothing in RAM and no send live. */
  predicate Emptied(s: State) {
    s.paused && s.ram == map[]
  }

  /** What step i of a send may do to the disk while nothing is live. */
  predicate DiskFrom(s: State, s': State, i: nat, id: Id)
    requires i < |s.sends|
  {
    id in s'.disk ==>
      (id in s.disk && s'.disk[id] == s.disk[id]) ||
      (s.sends[i].id == id && (s.sends[i].stage.Writing? || s.sends[i].stage.Failing?) && s.sends[i].stage.durable &&
       s'.disk[id] == s.sends[i].stage.item)
  }

  lemma MovedArrives(s: State, s': State, i: nat, id: Id, idle: bool)
    requires Moved(s, s', i) && DiskFrom(s, s', i, id) && (s.sends[i].id == id ==> s'.sends[i].stage.Finished?)
    requires Arrives(s', id, idle)
    ensures Arrives(s, id, idle)
  {
    hide Begun;
    hide Ready;
    hide Live;
    hide Fitting;
    if OnDisk(s', id, idle) {
      assert OnDisk(s, id, idle) || SendBrings(s, i, id, idle);
    } else if exists j :: 0 <= j < |s'.sends| && SendBrings(s', j, id, idle) {
      var j :| 0 <= j < |s'.sends| && SendBrings(s', j, id, idle);
      assert SendBrings(s, j, id, idle);
    } else {
      var j :| 0 <= j < |s'.retries| && RetryBrings(s', j, id, idle);
      assert RetryBrings(s, j, id, idle);
    }
  }

  lemma MovedOpen(s: State, s': State, i: nat, id: Id)
    requires Moved(s, s', i) && DiskFrom(s, s', i, id) && (s.sends[i].id == id ==> s'.sends[i].stage.Finished?)
    requires Open(s', id)
    ensures Open(s, id)
  {
    if Arrives(s', id, false) {
      MovedArrives(s, s', i, id, false);
    }
    if Arrives(s', id, true) {
      MovedArrives(s, s', i, id, true);
    }
    hide Arrives;
    hide DiskFrom;
    hide Begun;
    hide Ready;
    hide Live;
    hide Fitting;
    if exists j :: 0 <= j < |s'.sends| && SendFills(s', j, id) {
      var j :| 0 <= j < |s'.sends| && SendFills(s', j, id);
      assert SendFills(s, j, id);
    } else {
      var k :| 0 <= k < |s'.retries| && RetryFills(s', k, id);
      assert RetryFills(s, k, id);
    }
  }

  /** A step of send i: it ends, or it is a failed send of an item whose row belongs on disk. */
  predicate Quietly(s: State, s': State, i: nat, ramOnly: Id -> bool)
    requires i < |s.sends| == |s'.sends|
  {
    && s'.ram == map[] && s'.paused
    && (s'.sends[i].stage.Finished? || !ramOnly(s.sends[i].id))
  }

  lemma ReadQuiet(s: State, i: nat, durable: bool, ok: bool, id: Id)
    requires Emptied(s) && i < |s.sends| && s.sends[i].stage.Reading?
    ensures var t := ReadFinished(s, i, durable, ok); t == At(s, i, Finished) && DiskFrom(s, t, i, id)
  {
    hide Lookup;
    hide RamAfter;
  }

  lemma WriteQuiet(s: State, i: nat, ok: bool, id: Id)
    requires Emptied(s) && i < |s.sends| && s.sends[i].stage.Writing?
    ensures var t := Requested(s, i, ok); t.(disk := s.disk) == At(s, i, Finished) && DiskFrom(s, t, i, id)
  {
  }

  lemma RestQuiet(s: State, i: nat, ok: bool, id: Id)
    requires Emptied(s) && i < |s.sends|
    ensures s.sends[i].stage.Requesting? ==> Answered(s, i, ok) == At(s, i, Finished)
    ensures s.sends[i].stage.Removing? ==> Deleted(s, i, ok).(disk := s.disk) == At(s, i, Finished) && DiskFrom(s, Deleted(s, i, ok), i, id)
    ensures s.sends[i].stage.Failing? ==>
      FailureStored(s, i, ok).(disk := s.disk) == At(s, i, Finished) && DiskFrom(s, FailureStored(s, i, ok), i, id)
    ensures DiskFrom(s, At(s, i, Finished), i, id)
  {
    hide Lookup;
  }

  lemma NoteQuiet(s: State, i: nat, durable: bool, ok: bool, id: Id, ramOnly: Id -> bool)
    requires Emptied(s) && i < |s.sends| && s.sends[i].stage.Rereading? && Locked(s, Reread(i, durable, ok), ramOnly)
    requires ramOnly(s.sends[i].id) ==> !Open(s, s.sends[i].id)
    ensures var t := FailureNoted(s, i, durable, ok);
            |t.sends| == |s.sends| && Quietly(s, t, i, ramOnly) && DiskFrom(s, t, i, id)
  {
    var c := s.sends[i];
    if ramOnly(c.id) {
      assert !SendFills(s, i, c.id);
      assert c.stage.found.None? && !OnDisk(s, c.id, false);
    }
    hide Open;
    hide Arrives;
  }

  lemma MoverQuiet(s: State, e: Event, id: Id, ramOnly: Id -> bool)
    requires Emptied(s) && Mover(e).Some? && Step(s, e) != s && Mover(e).value < |s.sends| == |Step(s, e).sends|
    requires Locked(s, e, ramOnly) && (ramOnly(s.sends[Mover(e).value].id) ==> !Open(s, s.sends[Mover(e).value].id))
    ensures Quietly(s, Step(s, e), Mover(e).value, ramOnly) && DiskFrom(s, Step(s, e), Mover(e).value, id)
  {
    assert forall i :: 0 <= i < |s.sends| ==> !Live(s, i);
    match e {
      case ReadBack(i, durable, ok) => ReadQuiet(s, i, durable, ok, id);
      case Wrote(i, ok) => WriteQuiet(s, i, ok, id);
      case Reread(i, durable, ok) => NoteQuiet(s, i, durable, ok, id, ramOnly);
      case Begin(i) => RestQuiet(s, i, true, id);
      case Claim(i) => RestQuiet(s, i, true, id);
      case Answer(i, ok) => RestQuiet(s, i, ok, id);
      case Removed(i, ok) => RestQuiet(s, i, ok, id);
      case FailureWritten(i, ok) => RestQuiet(s, i, ok, id);
    }
    hide DiskFrom;
    hide Open;
    hide Locked;
    hide Live;
    hide Ready;
    hide LeaseFree;
    hide Lookup;
    hide ReadFinished;
    hide Requested;
    hide Answered;
    hide Deleted;
    hide FailureNoted;
    hide FailureStored;
  }

  lemma MoverCloses(s: State, e: Event, ramOnly: Id -> bool)
    requires Emptied(s) && Mover(e).Some? && Locked(s, e, ramOnly) && !SomeOpen(s, ramOnly)
    ensures Emptied(Step(s, e)) && !SomeOpen(Step(s, e), ramOnly)
  {
    var t := Step(s, e);
    if t != s {
      var i := Mover(e).value;
      StepMoves(s, e);
      assert i < |s.sends| == |t.sends|;
      hide Moved;
      hide Step;
      hide Open;
      MoverQuiet(s, e, "", ramOnly);
      if SomeOpen(t, ramOnly) {
        var id :| ramOnly(id) && Open(t, id);
        MoverQuiet(s, e, id, ramOnly);
        MovedOpen(s, t, i, id);
      }
    }
  }

  /** A step of retry k alone. */
  predicate RetryFrom(s: State, s': State, k: nat, id: Id) {
    && k < |s.retries| == |s'.retries| && s'.sends == s.sends
    && (forall j :: 0 <= j < |s.retries| && j != k ==> s'.retries[j] == s.retries[j])
    && s'.retries[k].id == s.retries[k].id
    && (s.retries[k].id == id ==> s'.retries[k].stage.Over?)
    && (id in s'.disk ==>
          (id in s.disk && s'.disk[id] == s.disk[id]) ||
          (s.retries[k].id == id && s.retries[k].stage.Restoring? && s.retries[k].stage.durable && s'.disk[id] == s.retries[k].stage.item))
  }

  lemma RetryArrives(s: State, s': State, k: nat, id: Id, idle: bool)
    requires RetryFrom(s, s', k, id) && Arrives(s', id, idle)
    ensures Arrives(s, id, idle)
  {
    hide Fitting;
    if OnDisk(s', id, idle) {
      assert OnDisk(s, id, idle) || RetryBrings(s, k, id, idle);
    } else if exists j :: 0 <= j < |s'.sends| && SendBrings(s', j, id, idle) {
      var j :| 0 <= j < |s'.sends| && SendBrings(s', j, id, idle);
      assert SendBrings(s, j, id, idle);
    } else {
      var j :| 0 <= j < |s'.retries| && RetryBrings(s', j, id, idle);
      assert RetryBrings(s, j, id, idle);
    }
  }

  lemma RetryOpen(s: State, s': State, k: nat, id: Id)
    requires RetryFrom(s, s', k, id) && Open(s', id)
    ensures Open(s, id)
  {
    if Arrives(s', id, false) {
      RetryArrives(s, s', k, id, false);
    }
    if Arrives(s', id, true) {
      RetryArrives(s, s', k, id, true);
    }
    hide Arrives;
    hide Fitting;
    if exists j :: 0 <= j < |s'.sends| && SendFills(s', j, id) {
      var j :| 0 <= j < |s'.sends| && SendFills(s', j, id);
      assert SendFills(s, j, id);
    } else {
      var j :| 0 <= j < |s'.retries| && RetryFills(s', j, id);
      assert RetryFills(s, j, id);
    }
  }

  lemma RetryReadQuiet(s: State, k: nat, durable: bool, ok: bool, id: Id, ramOnly: Id -> bool)
    requires Emptied(s) && k < |s.retries| && s.retries[k].stage.Looking? && Locked(s, RetryRead(k, durable, ok), ramOnly)
    requires (ramOnly(s.retries[k].id) ==> !Open(s, s.retries[k].id)) && ramOnly(id)
    ensures var t := Retried(s, k, durable, ok); Emptied(t) && RetryFrom(s, t, k, id)
  {
    var r := s.retries[k];
    if ramOnly(r.id) {
      assert !RetryFills(s, k, r.id);
      assert r.stage.found.None? ==> !OnDisk(s, r.id, true);
    }
    hide Open;
    hide Arrives;
  }

  lemma RetryWriteQuiet(s: State, k: nat, ok: bool, id: Id)
    requires Emptied(s) && k < |s.retries| && s.retries[k].stage.Restoring?
    ensures var t := Restored(s, k, ok); Emptied(t) && RetryFrom(s, t, k, id)
  {
  }

  lemma RetryCloses(s: State, e: Event, ramOnly: Id -> bool)
    requires Emptied(s) && (e.RetryRead? || e.RetryWrote?) && Locked(s, e, ramOnly) && !SomeOpen(s, ramOnly)
    ensures Emptied(Step(s, e)) && !SomeOpen(Step(s, e), ramOnly)
  {
    var t := Step(s, e);
    hide Open;
    if t != s && SomeOpen(t, ramOnly) {
      var id :| ramOnly(id) && Open(t, id);
      RetryQuiet(s, e, id, ramOnly);
      RetryOpen(s, t, e.k, id);
    }
    if t != s && !Emptied(t) {
      RetryStaysEmpty(s, e, ramOnly);
    }
  }

  lemma RetryQuiet(s: State, e: Event, id: Id, ramOnly: Id -> bool)
    requires Emptied(s) && (e.RetryRead? || e.RetryWrote?) && Locked(s, e, ramOnly) && !SomeOpen(s, ramOnly) && ramOnly(id)
    requires Step(s, e) != s
    ensures RetryFrom(s, Step(s, e), e.k, id)
  {
    hide Open;
    if e.RetryRead? {
      RetryReadQuiet(s, e.k, e.durable, e.ok, id, ramOnly);
    } else {
      RetryWriteQuiet(s, e.k, e.ok, id);
    }
    hide Retried;
    hide Restored;
    hide RetryFrom;
  }

  lemma RetryStaysEmpty(s: State, e: Event, ramOnly: Id -> bool)
    requires Emptied(s) && (e.RetryRead? || e.RetryWrote?) && Locked(s, e, ramOnly) && !SomeOpen(s, ramOnly)
    ensures Emptied(Step(s, e))
  {
    if e.RetryRead? && e.k < |s.retries| && s.retries[e.k].stage.Looking? && !e.durable {
      RetryReadQuiet(s, e.k, e.durable, e.ok, s.retries[e.k].id, ramOnly);
      hide Retried;
    }
    hide Open;
    hide Lookup;
  }

  /** The other steps of a paused queue remove rows at most. */
  lemma LessOpen(s: State, s': State, id: Id)
    requires s'.sends == s.sends && s'.retries == s.retries && (id in s'.disk ==> id in s.disk && s'.disk[id] == s.disk[id])
    requires Open(s', id)
    ensures Open(s, id)
  {
    LessArrives(s, s', id, false);
    LessArrives(s, s', id, true);
    hide Arrives;
    hide Fitting;
    if exists j :: 0 <= j < |s'.sends| && SendFills(s', j, id) {
      var j :| 0 <= j < |s'.sends| && SendFills(s', j, id);
      assert SendFills(s, j, id);
    } else {
      var j :| 0 <= j < |s'.retries| && RetryFills(s', j, id);
      assert RetryFills(s, j, id);
    }
  }

  lemma LessArrives(s: State, s': State, id: Id, idle: bool)
    requires s'.sends == s.sends && s'.retries == s.retries && (id in s'.disk ==> id in s.disk && s'.disk[id] == s.disk[id])
    ensures Arrives(s', id, idle) ==> Arrives(s, id, idle)
  {
    assert forall j :: SendBrings(s', j, id, idle) == SendBrings(s, j, id, idle);
    assert forall j :: RetryBrings(s', j, id, idle) == RetryBrings(s, j, id, idle);
    hide SendBrings;
    hide RetryBrings;
    hide Fitting;
  }

  lemma OtherPaused(s: State, e: Event, id: Id)
    requires Emptied(s) && Mover(e).None? && !e.Resume? && !e.RetryRead? && !e.RetryWrote?
    ensures var t := Step(s, e);
            t.sends == s.sends && t.retries == s.retries && Emptied(t) && (id in t.disk ==> id in s.disk && t.disk[id] == s.disk[id])
  {
  }

  lemma StepCloses(s: State, e: Event, ramOnly: Id -> bool)
    requires Emptied(s) && Locked(s, e, ramOnly) && !SomeOpen(s, ramOnly)
    ensures Emptied(Step(s, e)) && !SomeOpen(Step(s, e), ramOnly)
  {
    if Mover(e).Some? {
      MoverCloses(s, e, ramOnly);
    } else if e.RetryRead? || e.RetryWrote? {
      RetryCloses(s, e, ramOnly);
    } else {
      OtherPaused(s, e, "");
      hide Open;
      var t := Step(s, e);
      if SomeOpen(t, ramOnly) {
        var id :| ramOnly(id) && Open(t, id);
        OtherPaused(s, e, id);
        hide Step;
        LessOpen(s, t, id);
      }
    }
  }

  lemma {:induction false} ClosedStaysEmpty(s: State, events: seq<Event>, ramOnly: Id -> bool)
    requires Emptied(s) && AllLocked(s, events, ramOnly) && !SomeOpen(s, ramOnly)
    ensures Emptied(Run(s, events)) && !SomeOpen(Run(s, events), ramOnly)
    decreases |events|
  {
    hide SomeOpen;
    hide Step;
    hide Locked;
    if events != [] {
      ClosedStaysEmpty(s, events[..|events| - 1], ramOnly);
      StepCloses(Run(s, events[..|events| - 1]), events[|events| - 1], ramOnly);
    }
  }

  // ---- an open one can be filled ----

  lemma FillsBy(s: State, e: Event, ramOnly: Id -> bool)
    requires Locked(s, e, ramOnly) && Step(s, e).ram != map[]
    ensures CanFill(s, ramOnly)
  {
    RunOne(s, e);
    hide Step;
    assert [e][..0] == [];
    assert AllLocked(s, [e], ramOnly);
  }

  lemma FillsAfter(s: State, d: Event, e: Event, ramOnly: Id -> bool)
    requires Locked(s, d, ramOnly) && Locked(Step(s, d), e, ramOnly) && Step(Step(s, d), e).ram != map[]
    ensures CanFill(s, ramOnly)
  {
    RunOne(s, d);
    RunMore(s, [d], e);
    hide Step;
    hide Locked;
    assert [d] + [e] == [d, e] && [d, e][..1] == [d] && [d][..0] == [];
    assert AllLocked(s, [d], ramOnly);
    assert AllLocked(s, [d, e], ramOnly);
  }

  lemma SendFillsNow(s: State, i: nat, id: Id, ramOnly: Id -> bool)
    requires i < |s.sends| && s.sends[i].id == id && s.sends[i].stage.Rereading? && ramOnly(id)
    requires s.sends[i].stage.found.Some? || OnDisk(s, id, false)
    ensures Locked(s, Reread(i, false, true), ramOnly) && id in Step(s, Reread(i, false, true)).ram
  {
  }

  lemma RetryFillsNow(s: State, k: nat, id: Id, ramOnly: Id -> bool)
    requires k < |s.retries| && s.retries[k].id == id && s.retries[k].stage.Looking? && ramOnly(id)
    requires if s.retries[k].stage.found.Some? then Fitting(s.retries[k].stage.found.value, true) else OnDisk(s, id, true)
    ensures Locked(s, RetryRead(k, false, true), ramOnly) && id in Step(s, RetryRead(k, false, true)).ram
  {
  }

  /** The write that is under way. */
  function Bringer(s: State, j: nat): Event
    requires j < |s.sends|
  {
    if s.sends[j].stage.Writing? then Wrote(j, true) else FailureWritten(j, true)
  }

  lemma SendBrought(s: State, j: nat, id: Id, idle: bool, i: nat)
    requires Emptied(s) && SendBrings(s, j, id, idle)
    ensures var t := Step(s, Bringer(s, j));
            && OnDisk(t, id, idle) && t.retries == s.retries && |t.sends| == |s.sends|
            && (i < |s.sends| && s.sends[i].stage.Rereading? ==> t.sends[i] == s.sends[i])
  {
    hide Fitting;
  }

  lemma RetryBrought(s: State, j: nat, id: Id, idle: bool, k: nat)
    requires Emptied(s) && RetryBrings(s, j, id, idle)
    ensures var t := Step(s, RetryWrote(j, true));
            && OnDisk(t, id, idle) && t.sends == s.sends && |t.retries| == |s.retries|
            && (k < |s.retries| && s.retries[k].stage.Looking? ==> t.retries[k] == s.retries[k])
  {
    hide Fitting;
  }

  lemma SendCanFill(s: State, i: nat, id: Id, ramOnly: Id -> bool)
    requires Emptied(s) && ramOnly(id) && SendFills(s, i, id)
    ensures CanFill(s, ramOnly)
  {
    var e := Reread(i, false, true);
    hide CanFill;
    if s.sends[i].stage.found.Some? || OnDisk(s, id, false) {
      SendFillsNow(s, i, id, ramOnly);
      hide Step;
      FillsBy(s, e, ramOnly);
    } else if exists j :: 0 <= j < |s.sends| && SendBrings(s, j, id, false) {
      var j :| 0 <= j < |s.sends| && SendBrings(s, j, id, false);
      SendBrought(s, j, id, false, i);
      hide Step;
      SendFillsNow(Step(s, Bringer(s, j)), i, id, ramOnly);
      FillsAfter(s, Bringer(s, j), e, ramOnly);
    } else {
      var j :| 0 <= j < |s.retries| && RetryBrings(s, j, id, false);
      RetryBrought(s, j, id, false, 0);
      hide Step;
      SendFillsNow(Step(s, RetryWrote(j, true)), i, id, ramOnly);
      FillsAfter(s, RetryWrote(j, true), e, ramOnly);
    }
  }

  lemma RetryCanFill(s: State, k: nat, id: Id, ramOnly: Id -> bool)
    requires Emptied(s) && ramOnly(id) && RetryFills(s, k, id)
    ensures CanFill(s, ramOnly)
  {
    var e := RetryRead(k, false, true);
    hide CanFill;
    if s.retries[k].stage.found.Some? || OnDisk(s, id, true) {
      RetryFillsNow(s, k, id, ramOnly);
      hide Step;
      FillsBy(s, e, ramOnly);
    } else if exists j :: 0 <= j < |s.sends| && SendBrings(s, j, id, true) {
      var j :| 0 <= j < |s.sends| && SendBrings(s, j, id, true);
      SendBrought(s, j, id, true, 0);
      hide Step;
      RetryFillsNow(Step(s, Bringer(s, j)), k, id, ramOnly);
      FillsAfter(s, Bringer(s, j), e, ramOnly);
    } else {
      var j :| 0 <= j < |s.retries| && RetryBrings(s, j, id, true);
      RetryBrought(s, j, id, true, k);
      hide Step;
      RetryFillsNow(Step(s, RetryWrote(j, true)), k, id, ramOnly);
      FillsAfter(s, RetryWrote(j, true), e, ramOnly);
    }
  }

  /** From a pause of the running queue to the next resume the RAM plane can be filled exactly when a failed send
      rereads, or a retry reads, a row that belongs in RAM only: one it has found, one on disk, or one that a write
      under way will put there. */
  lemma LockedIff(s: State, ramOnly: Id -> bool)
    requires !s.paused
    ensures Paused(s).ram == map[]
    ensures CanFill(Paused(s), ramOnly) <==> SomeOpen(Paused(s), ramOnly)
  {
    var p := Paused(s);
    assert Emptied(p);
    hide Run;
    hide Paused;
    hide Open;
    hide AllLocked;
    if SomeOpen(p, ramOnly) {
      var id :| ramOnly(id) && Open(p, id);
      OpenFills(p, id, ramOnly);
    } else if CanFill(p, ramOnly) {
      var events :| AllLocked(p, events, ramOnly) && Run(p, events).ram != map[];
      ClosedStaysEmpty(p, events, ramOnly);
    }
  }

  lemma OpenFills(s: State, id: Id, ramOnly: Id -> bool)
    requires Emptied(s) && ramOnly(id) && Open(s, id)
    ensures CanFill(s, ramOnly)
  {
    hide CanFill;
    hide SendFills;
    hide RetryFills;
    if exists i :: 0 <= i < |s.sends| && SendFills(s, i, id) {
      var i :| 0 <= i < |s.sends| && SendFills(s, i, id);
      SendCanFill(s, i, id, ramOnly);
    } else {
      var k :| 0 <= k < |s.retries| && RetryFills(s, k, id);
      RetryCanFill(s, k, id, ramOnly);
    }
  }
}
