/** The outbox object of clients/core/src/outbox.ts: its queue methods, a stretch between two awaits each, and the
    reconciliation of its two planes with the persistence policy. */
module OutboxRunner {
  import opened Results
  import opened OutboxQueue

  type Rows = map<Id, Item>

  /** The answer to "does this chat's queue belong on disk", with an optional override for all chats. */
  datatype Policy = Policy(durable: int -> bool, override: Option<bool>, only: Option<int>)

  predicate InScope(p: Policy, item: Item) {
    p.only.None? || item.chat == p.only.value
  }

  predicate Durable(p: Policy, item: Item) {
    if p.override.Some? then p.override.value else p.durable(item.chat)
  }

  /** A disk row that must leave the disk, and a RAM row that must go there. */
  predicate LeavesDisk(p: Policy, item: Item) {
    InScope(p, item) && !Durable(p, item)
  }

  predicate LeavesRam(p: Policy, item: Item) {
    InScope(p, item) && Durable(p, item)
  }

  /** What readItem and list() show: RAM before disk. */
  function View(ram: Rows, disk: Rows): Rows {
    disk + ram
  }

  // ---- what the reconciliation computes ----

  function Leaving(p: Policy, disk: Rows): Rows {
    map id | id in disk && LeavesDisk(p, disk[id]) :: disk[id]
  }

  function Arriving(p: Policy, ram: Rows): Rows {
    map id | id in ram && LeavesRam(p, ram[id]) :: ram[id]
  }

  function RamThen(p: Policy, ram: Rows, disk: Rows): Rows {
    ram + Leaving(p, disk)
  }

  function FinalRam(p: Policy, ram: Rows, disk: Rows): Rows {
    RamThen(p, ram, disk) - Arriving(p, RamThen(p, ram, disk)).Keys
  }

  function FinalDisk(p: Policy, ram: Rows, disk: Rows): Rows {
    disk - Leaving(p, disk).Keys + Arriving(p, RamThen(p, ram, disk))
  }

  /** Rows in both planes agree unless the disk row stays. */
  predicate Agree(p: Policy, ram: Rows, disk: Rows) {
    forall id :: id in ram && id in disk && LeavesDisk(p, disk[id]) ==> ram[id] == disk[id]
  }

  /** The reconciliation drops no operation and changes none exactly when a row it takes off the disk is not also
      in RAM in another state. */
  lemma PolicyKeepsView(p: Policy, ram: Rows, disk: Rows)
    ensures View(FinalRam(p, ram, disk), FinalDisk(p, ram, disk)) == View(ram, disk) <==> Agree(p, ram, disk)
  {
    forall id
      ensures id in View(FinalRam(p, ram, disk), FinalDisk(p, ram, disk)) <==> id in View(ram, disk)
      ensures id in View(ram, disk) ==>
        View(FinalRam(p, ram, disk), FinalDisk(p, ram, disk))[id] == ShownAfter(p, ram, disk, id)
    {
      PolicyShows(p, ram, disk, id);
    }
    hide FinalRam;
    hide FinalDisk;
    hide LeavesDisk;
  }

  function ShownAfter(p: Policy, ram: Rows, disk: Rows, id: Id): Item
    requires id in View(ram, disk)
  {
    if id in disk && LeavesDisk(p, disk[id]) then disk[id] else View(ram, disk)[id]
  }

  lemma PolicyShows(p: Policy, ram: Rows, disk: Rows, id: Id)
    ensures id in View(FinalRam(p, ram, disk), FinalDisk(p, ram, disk)) <==> id in View(ram, disk)
    ensures id in View(ram, disk) ==>
      View(FinalRam(p, ram, disk), FinalDisk(p, ram, disk))[id] == ShownAfter(p, ram, disk, id)
  {
  }

  /** From disjoint planes every row ends in the plane the policy names, and only there. */
  lemma PolicyPlaces(p: Policy, ram: Rows, disk: Rows, id: Id)
    requires ram.Keys !! disk.Keys && id in View(ram, disk)
    ensures var item := View(ram, disk)[id];
            var onDisk := if InScope(p, item) then Durable(p, item) else id in disk;
            (id in FinalDisk(p, ram, disk) <==> onDisk) && (id in FinalRam(p, ram, disk) <==> !onDisk)
  {
  }

  // ---- the object ----

  class Outbox {
    const exclusive: bool
    var paused: bool
    var generation: nat
    var sends: seq<Send>
    var retries: seq<Retry>
    var tails: map<int, nat>
    var holds: set<Id>
    var ram: Rows
    var disk: Rows
    ghost var log: seq<nat>
    ghost var accepted: set<Id>

    constructor (rows: Rows, exclusive: bool)
      ensures Now() == Initial(rows, exclusive)
    {
      this.exclusive := exclusive;
      paused, generation, sends, retries, tails, holds := false, 0, [], [], map[], {};
      ram, disk, log, accepted := map[], rows, [], {};
    }

    ghost function Now(): State
      reads this
    {
      State(exclusive, paused, generation, sends, retries, tails, holds, ram, disk, log, accepted)
    }

    method PauseQueue()
      modifies this
      ensures Now() == Step(old(Now()), Pause)
    {
      if paused {
        return;
      }
      paused := true;
      generation := generation + 1;
      holds := {};
      tails := map[];
      ram := map[];
    }

    method ScheduleSend(chat: int, id: Id)
      modifies this
      ensures Now() == Step(old(Now()), Schedule(chat, id))
    {
      if paused {
        return;
      }
      var prev := if chat in tails then Some(tails[chat]) else None;
      sends, tails := sends + [Send(generation, chat, id, prev, Waiting)], tails[chat := |sends|];
    }

    method CancelItem(id: Id) returns (removed: bool)
      modifies this
      ensures Now() == Step(old(Now()), Cancel(id))
      ensures removed ==> id !in View(ram, disk)
    {
      var item := if id in ram then Some(ram[id]) else Lookup(disk, id);
      if item.None? || !item.value.status.Queued? {
        return false;
      }
      holds := holds - {id};
      ram := ram - {id};
      disk := disk - {id};
      return true;
    }

    method Move(i: nat, stage: Stage)
      requires i < |sends|
      modifies this`sends
      ensures sends == old(sends)[i := old(sends)[i].(stage := stage)]
    {
      sends := sends[i := sends[i].(stage := stage)];
    }

    /** send: the guard when the chain reaches it. */
    method BeginSend(i: nat)
      requires i < |sends| && sends[i].stage.Waiting? && Ready(Now(), i)
      modifies this
      ensures Now() == Step(old(Now()), Begin(i))
    {
      if paused || sends[i].generation != generation {
        Move(i, Finished);
        return;
      }
      Move(i, Leasing);
    }

    /** sendClaimed: the lease is granted while no other send holds it; then the guard, and the start of the read. */
    method ClaimSend(i: nat)
      requires i < |sends| && sends[i].stage.Leasing? && LeaseFree(Now(), i)
      modifies this
      ensures Now() == Step(old(Now()), Claim(i))
    {
      if paused || sends[i].generation != generation {
        Move(i, Finished);
        return;
      }
      Move(i, Reading(Lookup(ram, sends[i].id)));
    }

    method AfterRead(i: nat, durable: bool, ok: bool)
      requires i < |sends| && sends[i].stage.Reading?
      modifies this
      ensures Now() == Step(old(Now()), ReadBack(i, durable, ok))
    {
      var id := sends[i].id;
      var item := if sends[i].stage.found.Some? then sends[i].stage.found else if ok then Lookup(disk, id) else None;
      if paused || sends[i].generation != generation || item.None? || item.value.status.Sent? {
        Move(i, Finished);
        return;
      }
      if item.value.status.Queued? && id in holds {
        Move(i, Finished);
        return;
      }
      var sending := item.value.(status := Sending, attempts := item.value.attempts + 1);
      ram := RamAfter(ram, id, sending, durable);
      Move(i, Writing(sending, durable));
    }

    method AfterWrite(i: nat, ok: bool)
      requires i < |sends| && sends[i].stage.Writing?
      modifies this
      ensures Now() == Step(old(Now()), Wrote(i, ok))
    {
      if !ok {
        Move(i, Finished);
        return;
      }
      disk := DiskAfter(disk, sends[i].id, sends[i].stage.item, sends[i].stage.durable);
      if paused || sends[i].generation != generation {
        Move(i, Finished);
        return;
      }
      Move(i, Requesting);
      log := log + [i];
    }

    method AfterAnswer(i: nat, ok: bool)
      requires i < |sends| && sends[i].stage.Requesting?
      modifies this
      ensures Now() == Step(old(Now()), Answer(i, ok))
    {
      var id := sends[i].id;
      if paused || sends[i].generation != generation {
        Move(i, Finished);
      } else if ok {
        ram := ram - {id};
        accepted := accepted + {id};
        Move(i, Removing);
      } else {
        Move(i, Rereading(Lookup(ram, id)));
      }
    }

    /** A rejected deletion of the accepted row enters the catch branch. */
    method AfterRemoval(i: nat, ok: bool)
      requires i < |sends| && sends[i].stage.Removing?
      modifies this
      ensures Now() == Step(old(Now()), Removed(i, ok))
    {
      if ok {
        disk := disk - {sends[i].id};
        Move(i, Finished);
      } else if paused || sends[i].generation != generation {
        Move(i, Finished);
      } else {
        Move(i, Rereading(Lookup(ram, sends[i].id)));
      }
    }

    method AfterReread(i: nat, durable: bool, ok: bool)
      requires i < |sends| && sends[i].stage.Rereading?
      modifies this
      ensures Now() == Step(old(Now()), Reread(i, durable, ok))
    {
      var id := sends[i].id;
      var item := if sends[i].stage.found.Some? then sends[i].stage.found else if ok then Lookup(disk, id) else None;
      if item.None? {
        Move(i, Finished);
        return;
      }
      var failed := item.value.(status := Failed);
      ram := RamAfter(ram, id, failed, durable);
      Move(i, Failing(failed, durable));
    }

    method AfterFailureWrite(i: nat, ok: bool)
      requires i < |sends| && sends[i].stage.Failing?
      modifies this
      ensures Now() == Step(old(Now()), FailureWritten(i, ok))
    {
      if ok {
        disk := DiskAfter(disk, sends[i].id, sends[i].stage.item, sends[i].stage.durable);
      }
      Move(i, Finished);
    }

    /** retry: the guard, and the start of its read. */
    method CallRetry(id: Id)
      modifies this
      ensures Now() == Step(old(Now()), RetryCalled(id))
    {
      if paused {
        return;
      }
      retries := retries + [Retry(id, Looking(Lookup(ram, id)))];
    }

    method AfterRetryRead(k: nat, durable: bool, ok: bool)
      requires k < |retries| && retries[k].stage.Looking?
      modifies this
      ensures Now() == Step(old(Now()), RetryRead(k, durable, ok))
    {
      var id := retries[k].id;
      var item := if retries[k].stage.found.Some? then retries[k].stage.found else if ok then Lookup(disk, id) else None;
      if item.None? || item.value.status.Sending? {
        retries := retries[k := retries[k].(stage := Over)];
        return;
      }
      var queued := item.value.(status := Queued);
      ram := RamAfter(ram, id, queued, durable);
      retries := retries[k := retries[k].(stage := Restoring(queued, durable))];
    }

    method AfterRetryWrite(k: nat, ok: bool)
      requires k < |retries| && retries[k].stage.Restoring?
      modifies this
      ensures Now() == Step(old(Now()), RetryWrote(k, ok))
    {
      var id, item, durable := retries[k].id, retries[k].stage.item, retries[k].stage.durable;
      retries := retries[k := retries[k].(stage := Over)];
      if ok {
        disk := DiskAfter(disk, id, item, durable);
        ScheduleSend(item.chat, id);
      }
    }

    /** Reconcile the planes; `views` lists what a reader would have seen after each write. */
    method ApplyPersistencePolicy(p: Policy, scanned: seq<Id>, order: Rows -> seq<Id>) returns (ghost views: seq<Rows>)
      requires forall id :: id in scanned <==> id in disk
      requires forall rows: Rows :: forall id :: id in order(rows) <==> id in rows
      modifies this`ram, this`disk
      ensures ram == FinalRam(p, old(ram), old(disk)) && disk == FinalDisk(p, old(ram), old(disk))
      ensures old(ram).Keys !! old(disk).Keys ==> forall k :: 0 <= k < |views| ==> views[k] == View(old(ram), old(disk))
    {
      views := DiskToRam(p, scanned);
      var more := RamToDisk(p, order(ram));
      views := views + more;
    }

    method DiskToRam(p: Policy, scanned: seq<Id>) returns (ghost views: seq<Rows>)
      requires forall id :: id in scanned <==> id in disk
      modifies this`ram, this`disk
      ensures ram == RamThen(p, old(ram), old(disk)) && disk == old(disk) - Leaving(p, old(disk)).Keys
      ensures Agree(p, old(ram), old(disk)) ==>
        View(ram, disk) == View(old(ram), old(disk)) && forall k :: 0 <= k < |views| ==> views[k] == View(old(ram), old(disk))
    {
      hide View;
      hide Leaving;
      hide LeavesDisk;
      hide Agree;
      hide Restrict;
      hide Onto;
      hide Off;
      views := [];
      ghost var rows, into := disk, ram;
      LeavingNone(p, into, rows);
      for n := 0 to |scanned|
        invariant ram == Onto(into, Restrict(Leaving(p, rows), scanned[..n]))
        invariant disk == Off(rows, Restrict(Leaving(p, rows), scanned[..n]))
        invariant Agree(p, into, rows) ==> View(ram, disk) == View(into, rows)
        invariant Agree(p, into, rows) ==> forall k :: 0 <= k < |views| ==> views[k] == View(into, rows)
      {
        var id := scanned[n];
        LeavingStep(p, into, rows, scanned, n);
        if id in disk && LeavesDisk(p, disk[id]) {
          ram := ram[id := disk[id]];
          views := views + [View(ram, disk)];
          disk := disk - {id};
          views := views + [View(ram, disk)];
        }
      }
      LeavingAll(p, into, rows, scanned);
    }

    method RamToDisk(p: Policy, keys: seq<Id>) returns (ghost views: seq<Rows>)
      requires forall id :: id in keys <==> id in ram
      modifies this`ram, this`disk
      ensures ram == old(ram) - Arriving(p, old(ram)).Keys && disk == old(disk) + Arriving(p, old(ram))
      ensures View(ram, disk) == View(old(ram), old(disk)) && forall k :: 0 <= k < |views| ==> views[k] == View(old(ram), old(disk))
    {
      hide View;
      hide Arriving;
      hide LeavesRam;
      hide Restrict;
      hide Onto;
      hide Off;
      views := [];
      ghost var rows, into := ram, disk;
      ArrivingNone(p, into, rows);
      for n := 0 to |keys|
        invariant disk == Onto(into, Restrict(Arriving(p, rows), keys[..n]))
        invariant ram == Off(rows, Restrict(Arriving(p, rows), keys[..n]))
        invariant View(ram, disk) == View(rows, into)
        invariant forall k :: 0 <= k < |views| ==> views[k] == View(rows, into)
      {
        var id := keys[n];
        ArrivingStep(p, into, rows, keys, n);
        if id in ram && LeavesRam(p, ram[id]) {
          disk := disk[id := ram[id]];
          views := views + [View(ram, disk)];
          ram := ram - {id};
          views := views + [View(ram, disk)];
        }
      }
      ArrivingAll(p, into, rows, keys);
    }
  }

  // ---- one row at a time ----

  function Restrict(rows: Rows, keys: seq<Id>): Rows {
    map id | id in rows && id in keys :: rows[id]
  }

  /** `moved` lists rows with the values they have. */
  predicate Part(moved: Rows, rows: Rows) {
    forall id :: id in moved ==> id in rows && moved[id] == rows[id]
  }

  function Onto(rows: Rows, moved: Rows): Rows {
    rows + moved
  }

  function Off(rows: Rows, moved: Rows): Rows {
    rows - moved.Keys
  }

  lemma RestrictAll(rows: Rows, keys: seq<Id>)
    requires forall id :: id in rows ==> id in keys
    ensures Restrict(rows, keys) == rows
  {
  }

  lemma LeavingNone(p: Policy, ram: Rows, disk: Rows)
    ensures Onto(ram, Restrict(Leaving(p, disk), [])) == ram && Off(disk, Restrict(Leaving(p, disk), [])) == disk
  {
  }

  lemma ArrivingNone(p: Policy, disk: Rows, ram: Rows)
    ensures Onto(disk, Restrict(Arriving(p, ram), [])) == disk && Off(ram, Restrict(Arriving(p, ram), [])) == ram
  {
  }

  lemma LeavingAll(p: Policy, ram: Rows, disk: Rows, keys: seq<Id>)
    requires forall id :: id in disk ==> id in keys
    ensures Onto(ram, Restrict(Leaving(p, disk), keys[..|keys|])) == RamThen(p, ram, disk)
    ensures Off(disk, Restrict(Leaving(p, disk), keys[..|keys|])) == disk - Leaving(p, disk).Keys
  {
    assert keys[..|keys|] == keys;
    RestrictAll(Leaving(p, disk), keys);
  }

  lemma ArrivingAll(p: Policy, disk: Rows, ram: Rows, keys: seq<Id>)
    requires forall id :: id in ram ==> id in keys
    ensures Onto(disk, Restrict(Arriving(p, ram), keys[..|keys|])) == disk + Arriving(p, ram)
    ensures Off(ram, Restrict(Arriving(p, ram), keys[..|keys|])) == ram - Arriving(p, ram).Keys
  {
    assert keys[..|keys|] == keys;
    RestrictAll(Arriving(p, ram), keys);
  }

  lemma RestrictStep(rows: Rows, keys: seq<Id>, n: nat)
    requires n < |keys|
    ensures Restrict(rows, keys[..n + 1]) ==
      if keys[n] in rows then Restrict(rows, keys[..n])[keys[n] := rows[keys[n]]] else Restrict(rows, keys[..n])
  {
    assert keys[..n + 1] == keys[..n] + [keys[n]];
  }

  lemma PlaneStep(rows: Rows, into: Rows, all: Rows, keys: seq<Id>, n: nat)
    requires n < |keys| && Part(all, rows)
    ensures var a, a' := Restrict(all, keys[..n]), Restrict(all, keys[..n + 1]);
            var id := keys[n];
            if id in Off(rows, a) && id in all then
              Onto(into, a') == Onto(into, a)[id := Off(rows, a)[id]] && Off(rows, a') == Off(rows, a) - {id}
            else Onto(into, a') == Onto(into, a) && Off(rows, a') == Off(rows, a)
  {
    var a, a' := Restrict(all, keys[..n]), Restrict(all, keys[..n + 1]);
    RestrictStep(all, keys, n);
    if keys[n] in Off(rows, a) && keys[n] in all {
      assert a' == a[keys[n] := rows[keys[n]]];
    } else {
      assert a' == a;
    }
    hide Restrict;
  }

  lemma PartsGrow(rows: Rows, all: Rows, keys: seq<Id>, n: nat)
    requires n < |keys| && Part(all, rows)
    ensures var a, a' := Restrict(all, keys[..n]), Restrict(all, keys[..n + 1]);
            Part(a, a') && Part(a', rows) && Part(a', all)
  {
    assert forall id :: id in keys[..n] ==> id in keys[..n + 1];
  }

  /** Copying one more row and deleting it: the planes, and what a reader sees in between and after. */
  lemma LeavingStep(p: Policy, ram: Rows, disk: Rows, keys: seq<Id>, n: nat)
    requires n < |keys|
    ensures var a, a' := Restrict(Leaving(p, disk), keys[..n]), Restrict(Leaving(p, disk), keys[..n + 1]);
            var id := keys[n];
            if id in Off(disk, a) && LeavesDisk(p, Off(disk, a)[id]) then
              && Onto(ram, a') == Onto(ram, a)[id := Off(disk, a)[id]] && Off(disk, a') == Off(disk, a) - {id}
              && (Agree(p, ram, disk) ==>
                    View(Onto(ram, a'), Off(disk, a)) == View(ram, disk) && View(Onto(ram, a'), Off(disk, a')) == View(ram, disk))
            else Onto(ram, a') == Onto(ram, a) && Off(disk, a') == Off(disk, a)
  {
    var id := keys[n];
    var all := Leaving(p, disk);
    var a, a' := Restrict(all, keys[..n]), Restrict(all, keys[..n + 1]);
    assert Part(all, disk) && forall k :: k in all <==> k in disk && LeavesDisk(p, disk[k]);
    assert Agree(p, ram, disk) ==> forall k :: k in all && k in ram ==> ram[k] == all[k];
    hide Agree;
    hide Leaving;
    hide LeavesDisk;
    PlaneStep(disk, ram, all, keys, n);
    PartsGrow(disk, all, keys, n);
    hide Restrict;
    if Agree(p, ram, disk) {
      PartMoved(ram, disk, a, a');
    }
    hide View;
    hide Onto;
  }

  lemma ArrivingStep(p: Policy, disk: Rows, ram: Rows, keys: seq<Id>, n: nat)
    requires n < |keys|
    ensures var a, a' := Restrict(Arriving(p, ram), keys[..n]), Restrict(Arriving(p, ram), keys[..n + 1]);
            var id := keys[n];
            if id in Off(ram, a) && LeavesRam(p, Off(ram, a)[id]) then
              && Onto(disk, a') == Onto(disk, a)[id := Off(ram, a)[id]] && Off(ram, a') == Off(ram, a) - {id}
              && View(Off(ram, a), Onto(disk, a')) == View(ram, disk) && View(Off(ram, a'), Onto(disk, a')) == View(ram, disk)
            else Onto(disk, a') == Onto(disk, a) && Off(ram, a') == Off(ram, a)
  {
    var id := keys[n];
    var all := Arriving(p, ram);
    var a, a' := Restrict(all, keys[..n]), Restrict(all, keys[..n + 1]);
    assert Part(all, ram) && forall k :: k in all <==> k in ram && LeavesRam(p, ram[k]);
    hide Arriving;
    hide LeavesRam;
    PlaneStep(ram, disk, all, keys, n);
    PartsGrow(ram, all, keys, n);
    hide Restrict;
    PartSaved(ram, disk, a, a');
    hide View;
    hide Onto;
  }

  lemma PartMoved(ram: Rows, disk: Rows, a: Rows, a': Rows)
    requires Part(a, a') && Part(a', disk) && forall id :: id in a' && id in ram ==> ram[id] == a'[id]
    ensures View(Onto(ram, a'), Off(disk, a)) == View(ram, disk) && View(Onto(ram, a'), Off(disk, a')) == View(ram, disk)
  {
  }

  lemma PartSaved(ram: Rows, disk: Rows, a: Rows, a': Rows)
    requires Part(a, a') && Part(a', ram)
    ensures View(Off(ram, a), Onto(disk, a')) == View(ram, disk) && View(Off(ram, a'), Onto(disk, a')) == View(ram, disk)
  {
  }
}
