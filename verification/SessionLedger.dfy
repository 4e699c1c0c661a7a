/** The session ledger of clients/core/src/session_quality.ts, for one day, platform and version.  Sessions are
    event rows; a flush posts the running total, writes it with the ids it covers, deletes the rows and strikes
    the ids.  Every storage operation may be the last before a crash. */
module SessionLedger {
  import opened Results

  type Id = nat

  const CAP: nat := 10000

  datatype Aggregate = Aggregate(total: nat, crashed: nat, acked: seq<Id>)

  /** The rows with their crash flag, the stored aggregate, and the server's totals. */
  datatype Ledger = Ledger(rows: map<Id, bool>, aggregate: Option<Aggregate>, serverTotal: nat, serverCrashed: nat)

  function Baseline(l: Ledger): Aggregate {
    if l.aggregate.Some? then l.aggregate.value else Aggregate(0, 0, [])
  }

  predicate ValidAggregate(a: Aggregate) {
    a.crashed <= a.total && |a.acked| <= CAP
  }

  predicate Distinct(ids: seq<Id>) {
    forall i, j :: 0 <= i < j < |ids| ==> ids[i] != ids[j]
  }

  function Ids(ids: seq<Id>): set<Id> {
    set id | id in ids
  }

  function Max(a: nat, b: nat): nat {
    if a < b then b else a
  }

  // ---- conservation ----

  /** Recorded sessions that the stored total covers: those without a row, and those whose row is listed. */
  function Covered(l: Ledger, recorded: map<Id, bool>): set<Id> {
    set id | id in recorded && (id !in l.rows || id in Baseline(l).acked)
  }

  function Crashed(ids: set<Id>, recorded: map<Id, bool>): set<Id> {
    set id | id in ids && id in recorded && recorded[id]
  }

  /** The stored total and the waiting rows together are the recorded sessions, no more and no fewer, and the
      server has counted at least the stored and at most the recorded ones. */
  ghost predicate Conserved(l: Ledger, recorded: map<Id, bool>) {
    var a := Baseline(l);
    && (forall id :: id in l.rows ==> id in recorded && recorded[id] == l.rows[id])
    && (forall id :: id in a.acked ==> id in recorded)
    && Distinct(a.acked) && |recorded| <= CAP
    && a.total == |Covered(l, recorded)|
    && a.crashed == |Crashed(Covered(l, recorded), recorded)|
    && a.total <= l.serverTotal <= |recorded|
    && a.crashed <= l.serverCrashed <= |Crashed(recorded.Keys, recorded)|
  }

  lemma SubsetSize(a: set<Id>, b: set<Id>)
    requires a <= b
    ensures |a| <= |b|
    ensures |a| == |b| ==> a == b
  {
    assert b == a + (b - a);
  }

  lemma {:induction false} IdsSize(ids: seq<Id>)
    requires Distinct(ids)
    ensures |Ids(ids)| == |ids|
    decreases |ids|
  {
    if ids != [] {
      var n := |ids| - 1;
      IdsSize(ids[..n]);
      assert Ids(ids) == Ids(ids[..n]) + {ids[n]};
    }
  }

  /** What is stored always passes the check that is made on reading it back. */
  lemma StoredIsValid(l: Ledger, recorded: map<Id, bool>)
    requires Conserved(l, recorded)
    ensures ValidAggregate(Baseline(l))
  {
    SubsetSize(Crashed(Covered(l, recorded), recorded), Covered(l, recorded));
    IdsSize(Baseline(l).acked);
    SubsetSize(Ids(Baseline(l).acked), recorded.Keys);
  }

  // ---- the storage operations ----

  function Removed(l: Ledger, id: Id): Ledger {
    l.(rows := l.rows - {id})
  }

  function Written(l: Ledger, a: Aggregate): Ledger {
    l.(aggregate := Some(a))
  }

  /** Deleting a row keeps the ledger conserved exactly when its id is listed, or there was no such row. */
  lemma RemoveRow(l: Ledger, recorded: map<Id, bool>, id: Id)
    requires Conserved(l, recorded)
    ensures Conserved(Removed(l, id), recorded) <==> id !in l.rows || id in Baseline(l).acked
  {
    var l' := Removed(l, id);
    if id !in l.rows || id in Baseline(l).acked {
      assert Covered(l', recorded) == Covered(l, recorded);
    } else {
      assert Covered(l', recorded) == Covered(l, recorded) + {id};
      assert id !in Covered(l, recorded);
    }
  }

  /** Striking ids from the list keeps the ledger conserved exactly when none of them has a row left. */
  lemma StrikeIds(l: Ledger, recorded: map<Id, bool>, acked: seq<Id>)
    requires Conserved(l, recorded) && l.aggregate.Some? && Distinct(acked)
    requires forall id :: id in acked ==> id in Baseline(l).acked
    ensures Conserved(Written(l, Baseline(l).(acked := acked)), recorded) <==>
      forall id :: id in Baseline(l).acked && id in l.rows ==> id in acked
  {
    var l' := Written(l, Baseline(l).(acked := acked));
    assert Covered(l', recorded) <= Covered(l, recorded);
    if forall id :: id in Baseline(l).acked && id in l.rows ==> id in acked {
      assert Covered(l', recorded) == Covered(l, recorded);
    } else {
      var id :| id in Baseline(l).acked && id in l.rows && id !in acked;
      assert id in Covered(l, recorded) && id !in Covered(l', recorded);
      SubsetSize(Covered(l', recorded), Covered(l, recorded));
    }
  }

  /** A request: the rows it covers, and the totals it posts. */
  datatype Request = Request(snapshot: seq<Id>, total: nat, crashed: nat)

  /** The request covers every row that the total does not, and posts what that makes. */
  ghost predicate Covers(l: Ledger, recorded: map<Id, bool>, r: Request) {
    && Distinct(r.snapshot)
    && (forall id :: id in r.snapshot ==> id in l.rows)
    && r.total == |Covered(l, recorded) + Ids(r.snapshot)|
    && r.crashed == |Crashed(Covered(l, recorded) + Ids(r.snapshot), recorded)|
  }

  function Committed(l: Ledger, r: Request, acked: seq<Id>): Ledger {
    var a := Baseline(l);
    Written(l, Aggregate(Max(a.total, r.total), Max(a.crashed, r.crashed), acked))
  }

  /** Writing the acknowledgement moves the covered rows from waiting to counted, in one step. */
  lemma CommitKeeps(l: Ledger, recorded: map<Id, bool>, r: Request, acked: seq<Id>)
    requires Conserved(l, recorded) && Covers(l, recorded, r)
    requires r.total <= l.serverTotal && r.crashed <= l.serverCrashed
    requires Distinct(acked) && forall id :: id in acked <==> id in Baseline(l).acked || id in r.snapshot
    ensures Conserved(Committed(l, r, acked), recorded)
  {
    var l' := Committed(l, r, acked);
    var covered, snapshot := Covered(l, recorded), Ids(r.snapshot);
    assert Covered(l', recorded) == covered + snapshot;
    SubsetSize(covered, covered + snapshot);
    SubsetSize(Crashed(covered, recorded), Crashed(covered + snapshot, recorded));
  }

  // ---- the server ----

  /** The server keeps the larger of what it has and what is posted, and answers with it. */
  function Posted(l: Ledger, r: Request): Ledger {
    l.(serverTotal := Max(l.serverTotal, r.total), serverCrashed := Max(l.serverCrashed, r.crashed))
  }

  lemma PostKeeps(l: Ledger, recorded: map<Id, bool>, r: Request)
    requires Conserved(l, recorded) && Covers(l, recorded, r)
    ensures Conserved(Posted(l, r), recorded)
  {
    var all := Covered(l, recorded) + Ids(r.snapshot);
    SubsetSize(all, recorded.Keys);
    SubsetSize(Crashed(all, recorded), Crashed(recorded.Keys, recorded));
  }

  /** A request that covers every row posts every recorded session, so the server is never ahead of it. */
  lemma ServerNeverAhead(l: Ledger, recorded: map<Id, bool>, r: Request)
    requires Conserved(l, recorded) && Covers(l, recorded, r) && forall id :: id in l.rows ==> id in r.snapshot
    ensures r.total == |recorded| && r.crashed == |Crashed(recorded.Keys, recorded)|
    ensures Posted(l, r).serverTotal == r.total && Posted(l, r).serverCrashed == r.crashed
  {
    assert Covered(l, recorded) + Ids(r.snapshot) == recorded.Keys;
  }

  // ---- recording ----

  function Recorded(l: Ledger, id: Id, crashed: bool): Ledger {
    l.(rows := l.rows[id := crashed])
  }

  lemma RecordedCovered(l: Ledger, recorded: map<Id, bool>, id: Id, crashed: bool)
    requires (forall id :: id in l.rows ==> id in recorded) && (forall id :: id in Baseline(l).acked ==> id in recorded) && id !in recorded
    ensures Covered(Recorded(l, id, crashed), recorded[id := crashed]) == Covered(l, recorded)
  {
  }

  lemma RecordedCrashed(recorded: map<Id, bool>, id: Id, crashed: bool, ids: set<Id>)
    requires id !in recorded && ids <= recorded.Keys
    ensures Crashed(ids, recorded[id := crashed]) == Crashed(ids, recorded)
    ensures |Crashed(recorded.Keys, recorded)| <= |Crashed(recorded[id := crashed].Keys, recorded[id := crashed])|
    ensures |recorded[id := crashed]| == |recorded| + 1
  {
    SubsetSize(Crashed(recorded.Keys, recorded), Crashed(recorded[id := crashed].Keys, recorded[id := crashed]));
    assert recorded[id := crashed].Keys == recorded.Keys + {id};
    assert |recorded.Keys + {id}| == |recorded.Keys| + 1;
  }

  /** A new session waits: it is neither counted yet nor lost. */
  lemma RecordKeeps(l: Ledger, recorded: map<Id, bool>, id: Id, crashed: bool)
    requires Conserved(l, recorded) && id !in recorded && |recorded| < CAP
    ensures Conserved(Recorded(l, id, crashed), recorded[id := crashed])
  {
    RecordedCovered(l, recorded, id, crashed);
    RecordedCrashed(recorded, id, crashed, Covered(l, recorded));
    hide Covered;
    hide Crashed;
  }

  /** A session recorded while a request is under way leaves the request as good as it was. */
  lemma RequestSurvives(l: Ledger, recorded: map<Id, bool>, r: Request, id: Id, crashed: bool)
    requires Conserved(l, recorded) && Covers(l, recorded, r) && id !in recorded
    ensures Covers(Recorded(l, id, crashed), recorded[id := crashed], r)
  {
    RecordedCovered(l, recorded, id, crashed);
    assert Covered(l, recorded) + Ids(r.snapshot) <= recorded.Keys;
    RecordedCrashed(recorded, id, crashed, Covered(l, recorded) + Ids(r.snapshot));
    hide Covered;
    hide Crashed;
    hide Conserved;
  }

  // ---- the flush ----

  class Sessions {
    var rows: map<Id, bool>
    var aggregate: Option<Aggregate>
    var serverTotal: nat
    var serverCrashed: nat
    /** The process has not crashed; from a crash on nothing is stored or posted. */
    var alive: bool
    /** A write has failed since the flush began. */
    var failed: bool
    ghost var recorded: map<Id, bool>

    constructor ()
      ensures Valid() && alive && !failed && recorded == map[]
    {
      rows, aggregate, serverTotal, serverCrashed, alive, failed, recorded := map[], None, 0, 0, true, false, map[];
    }

    function Model(): Ledger
      reads this
    {
      Ledger(rows, aggregate, serverTotal, serverCrashed)
    }

    ghost predicate Valid()
      reads this
    {
      Conserved(Model(), recorded)
    }

    /** Neither a crash nor a failed write so far. */
    predicate Smooth()
      reads this
    {
      alive && !failed
    }

    /** A new process over the same storage. */
    method Restart()
      requires Valid()
      modifies this`alive
      ensures Valid() && alive
    {
      alive := true;
    }

    /** The crash may come before any storage operation. */
    method MayCrash()
      modifies this`alive
      ensures alive ==> old(alive)
    {
      var crash: bool := *;
      if crash {
        alive := false;
      }
    }

    method Remove(id: Id)
      requires Valid() && (id !in rows || id in Baseline(Model()).acked)
      modifies this`alive, this`rows
      ensures Valid()
      ensures rows == if alive then old(rows) - {id} else old(rows)
      ensures alive ==> old(alive)
    {
      RemoveRow(Model(), recorded, id);
      MayCrash();
      if alive {
        rows := rows - {id};
      }
    }

    /** A write may also fail, and says so. */
    method Write(a: Aggregate) returns (ok: bool)
      requires Valid() && Conserved(Written(Model(), a), recorded)
      modifies this`alive, this`failed, this`aggregate
      ensures Valid()
      ensures aggregate == if ok then Some(a) else old(aggregate)
      ensures alive ==> old(alive)
      ensures Smooth() ==> ok && old(Smooth())
    {
      MayCrash();
      ok := *;
      if !alive {
        ok := false;
      }
      if ok {
        aggregate := Some(a);
      } else {
        failed := true;
      }
    }

    /** One write of a row; the caller keeps the marker of the session unless it succeeded. */
    method Record(id: Id, crashed: bool) returns (ok: bool)
      requires Valid() && id !in recorded && |recorded| < CAP
      modifies this
      ensures Valid() && aggregate == old(aggregate)
      ensures rows == if ok then old(rows)[id := crashed] else old(rows)
      ensures recorded == if ok then old(recorded)[id := crashed] else old(recorded)
      ensures Smooth() ==> ok && old(Smooth())
    {
      RecordKeeps(Model(), recorded, id, crashed);
      MayCrash();
      ok := *;
      if !alive {
        ok := false;
      }
      if ok {
        rows := rows[id := crashed];
        recorded := recorded[id := crashed];
      } else {
        failed := true;
      }
    }

    /** Deletes the rows of acknowledged sessions and strikes their ids. */
    method Reconcile()
      requires Valid()
      modifies this`alive, this`failed, this`rows, this`aggregate
      ensures Valid() && (alive ==> forall id :: id in Baseline(Model()).acked ==> id !in rows)
      ensures forall id :: id in rows ==> id in old(rows)
      ensures alive ==> old(alive)
      ensures Smooth() ==> old(Smooth()) && Baseline(Model()).acked == []
      ensures Smooth() ==> forall id :: id in rows <==> id in old(rows) && id !in old(Baseline(Model()).acked)
    {
      if aggregate.None? || aggregate.value.acked == [] {
        return;
      }
      var stored := aggregate.value;
      for k := 0 to |stored.acked|
        invariant Valid() && aggregate == Some(stored)
        invariant forall id :: id in rows ==> id in old(rows)
        invariant alive ==> old(alive)
        invariant failed == old(failed)
        invariant alive ==> forall j :: 0 <= j < k ==> stored.acked[j] !in rows
        invariant alive ==> forall id :: id in old(rows) && id !in stored.acked ==> id in rows
      {
        Remove(stored.acked[k]);
      }
      if !alive {
        return;
      }
      StrikeIds(Model(), recorded, []);
      var _ := Write(stored.(acked := []));
    }

    /** The rows, in whatever order the storage lists them. */
    method Keys() returns (ids: seq<Id>)
      ensures Distinct(ids) && forall id :: id in ids <==> id in rows
    {
      ids := [];
      var left := rows.Keys;
      while left != {}
        invariant Distinct(ids) && left <= rows.Keys
        invariant forall id :: id in ids <==> id in rows && id !in left
        decreases |left|
      {
        var id :| id in left;
        left := left - {id};
        ids := ids + [id];
      }
    }

    /** The first half of a flush, up to the request; None when there is nothing to send or a crash came. */
    method BeginFlush() returns (r: Option<Request>)
      requires Valid()
      modifies this`alive, this`failed, this`rows, this`aggregate
      ensures Valid()
      ensures r.Some? ==> alive && Covers(Model(), recorded, r.value) && forall id :: id in rows ==> id in r.value.snapshot
      ensures alive ==> old(alive)
      ensures Smooth() ==> old(Smooth()) && Baseline(Model()).acked == [] && (r.None? ==> rows == map[])
    {
      Reconcile();
      var ids := Keys();
      if !alive || ids == [] {
        return None;
      }
      var baseline := Baseline(Model());
      UncoveredRows(Model(), recorded, ids);
      var remaining := CAP - baseline.total;
      var snapshot := ids[..if remaining < |ids| then remaining else |ids|];
      assert snapshot == ids;
      var crashed := CountCrashed(snapshot);
      return Some(Request(snapshot, baseline.total + |snapshot|, baseline.crashed + crashed));
    }

    method CountCrashed(snapshot: seq<Id>) returns (crashed: nat)
      requires Distinct(snapshot) && forall id :: id in snapshot ==> id in rows
      ensures crashed == |Crashed(Ids(snapshot), rows)|
    {
      crashed := 0;
      for k := 0 to |snapshot|
        invariant crashed == |Crashed(Ids(snapshot[..k]), rows)|
      {
        CrashedSnoc(snapshot, k, rows);
        assert snapshot[k] in snapshot;
        crashed := crashed + (if rows[snapshot[k]] then 1 else 0);
      }
      assert snapshot[..|snapshot|] == snapshot;
    }

    /** The second half, once the server has answered: the acknowledgement is written first, then the rows go,
        then their ids are struck. */
    method FinishFlush(r: Request, total: nat, crashed: nat) returns (again: bool)
      requires Valid() && Covers(Model(), recorded, r)
      requires r.total <= serverTotal && r.crashed <= serverCrashed
      modifies this`alive, this`failed, this`rows, this`aggregate
      ensures total == r.total && crashed == r.crashed ==> Valid()
      ensures again ==> total != r.total || crashed != r.crashed
      ensures Smooth() ==> old(Smooth())
      ensures total == r.total && crashed == r.crashed && crashed <= total <= CAP && Smooth() ==>
        && (forall id :: id in rows <==> id in old(rows) && id !in r.snapshot)
        && (forall id :: id in Baseline(Model()).acked <==> id in old(Baseline(Model()).acked) && id !in r.snapshot)
        && Baseline(Model()).total == Max(old(Baseline(Model()).total), r.total)
    {
      hide Covers;
      hide Crashed;
      hide Covered;
      again := false;
      if total < r.total || crashed < r.crashed || crashed > total || total > CAP {
        return;
      }
      if total != r.total || crashed != r.crashed {
        again := Heal(total, crashed);
        return;
      }
      var latest := Baseline(Model());
      var acked := Union(latest.acked, r.snapshot);
      CommitKeeps(Model(), recorded, r, acked);
      var ok := Write(Aggregate(Max(latest.total, r.total), Max(latest.crashed, r.crashed), acked));
      if !ok {
        return;
      }
      DeleteRows(r.snapshot);
      if !alive {
        return;
      }
      var left := Without(acked, r.snapshot);
      StrikeIds(Model(), recorded, left);
      var _ := Write(Baseline(Model()).(acked := left));
    }

    method DeleteRows(snapshot: seq<Id>)
      requires Valid() && forall id :: id in snapshot ==> id in Baseline(Model()).acked
      modifies this`alive, this`rows
      ensures alive ==> old(alive)
      ensures Valid() && (alive ==> forall id :: id in rows <==> id in old(rows) && id !in snapshot)
      ensures forall id :: id in rows ==> id in old(rows)
    {
      for k := 0 to |snapshot|
        invariant Valid() && (alive ==> old(alive))
        invariant forall id :: id in rows ==> id in old(rows)
        invariant alive ==> forall j :: 0 <= j < k ==> snapshot[j] !in rows
        invariant alive ==> forall id :: id in old(rows) && id !in snapshot ==> id in rows
      {
        assert snapshot[k] in snapshot;
        Remove(snapshot[k]);
      }
    }

    /** The server is ahead: the stored totals are raised to its. */
    method Heal(total: nat, crashed: nat) returns (again: bool)
      modifies this`alive, this`failed, this`aggregate
      ensures aggregate == if again
        then Some(old(Baseline(Model())).(total := Max(old(Baseline(Model())).total, total), crashed := Max(old(Baseline(Model())).crashed, crashed)))
        else old(aggregate)
      ensures Smooth() ==> again && old(Smooth())
    {
      var latest := Baseline(Model());
      MayCrash();
      again := *;
      if !alive {
        again := false;
      }
      if again {
        aggregate := Some(latest.(total := Max(latest.total, total), crashed := Max(latest.crashed, crashed)));
      } else {
        failed := true;
      }
    }

    /** A whole flush against a server that keeps the larger totals: unless a crash, a failed write or a lost answer
        comes between, the server has counted every recorded session and no row is left. */
    method Flush() returns (answered: bool)
      requires Valid()
      modifies this
      ensures Valid() && recorded == old(recorded)
      ensures answered && Smooth() ==>
        rows == map[] && Baseline(Model()).acked == [] &&
        serverTotal == |recorded| && serverCrashed == |Crashed(recorded.Keys, recorded)|
    {
      hide Covers;
      hide Conserved;
      hide Covered;
      hide Crashed;
      failed := false;
      var r := BeginFlush();
      if r.None? {
        NothingWaits(Model(), recorded);
        return true;
      }
      ServerNeverAhead(Model(), recorded, r.value);
      WithinCap(Model(), recorded);
      PostKeeps(Model(), recorded, r.value);
      PostCovers(Model(), recorded, r.value);
      serverTotal := Max(serverTotal, r.value.total);
      serverCrashed := Max(serverCrashed, r.value.crashed);
      answered := *;
      if answered {
        var _ := FinishFlush(r.value, serverTotal, serverCrashed);
        assert Baseline(Model()).acked != [] ==> Baseline(Model()).acked[0] in Baseline(Model()).acked;
      }
    }
  }

  lemma PostCovers(l: Ledger, recorded: map<Id, bool>, r: Request)
    requires Covers(l, recorded, r)
    ensures Covers(Posted(l, r), recorded, r)
  {
    assert Covered(Posted(l, r), recorded) == Covered(l, recorded);
  }

  lemma WithinCap(l: Ledger, recorded: map<Id, bool>)
    requires Conserved(l, recorded)
    ensures |Crashed(recorded.Keys, recorded)| <= |recorded| <= CAP
  {
    SubsetSize(Crashed(recorded.Keys, recorded), recorded.Keys);
  }

  /** With no row waiting the server has counted all. */
  lemma NothingWaits(l: Ledger, recorded: map<Id, bool>)
    requires Conserved(l, recorded)
    ensures l.rows == map[] ==> l.serverTotal == |recorded| && l.serverCrashed == |Crashed(recorded.Keys, recorded)|
  {
    if l.rows == map[] {
      assert Covered(l, recorded) == recorded.Keys;
    }
  }

  method Union(p: seq<Id>, q: seq<Id>) returns (r: seq<Id>)
    requires Distinct(p)
    ensures Distinct(r) && forall id :: id in r <==> id in p || id in q
  {
    r := p;
    for k := 0 to |q|
      invariant Distinct(r) && forall id :: id in r <==> id in p || id in q[..k]
    {
      if q[k] !in r {
        r := r + [q[k]];
      }
    }
    assert q[..|q|] == q;
  }

  method Without(p: seq<Id>, q: seq<Id>) returns (r: seq<Id>)
    requires Distinct(p)
    ensures Distinct(r) && forall id :: id in r <==> id in p && id !in q
  {
    r := [];
    for k := 0 to |p|
      invariant Distinct(r) && forall id :: id in r <==> id in p[..k] && id !in q
    {
      if p[k] !in q {
        r := r + [p[k]];
      }
    }
    assert p[..|p|] == p;
  }

  lemma CrashedSnoc(ids: seq<Id>, k: nat, rows: map<Id, bool>)
    requires Distinct(ids) && k < |ids| && forall id :: id in ids ==> id in rows
    ensures |Crashed(Ids(ids[..k + 1]), rows)| == |Crashed(Ids(ids[..k]), rows)| + (if rows[ids[k]] then 1 else 0)
  {
    var before, after := Crashed(Ids(ids[..k]), rows), Crashed(Ids(ids[..k + 1]), rows);
    assert ids[..k + 1] == ids[..k] + [ids[k]];
    assert ids[k] !in ids[..k];
    assert after == if rows[ids[k]] then before + {ids[k]} else before;
  }

  lemma UncoveredCrashed(covered: set<Id>, snapshot: set<Id>, rows: map<Id, bool>, recorded: map<Id, bool>)
    requires covered !! snapshot && snapshot <= rows.Keys
    requires forall id :: id in rows ==> id in recorded && recorded[id] == rows[id]
    ensures |Crashed(covered + snapshot, recorded)| == |Crashed(covered, recorded)| + |Crashed(snapshot, rows)|
  {
    assert Crashed(covered + snapshot, recorded) == Crashed(covered, recorded) + Crashed(snapshot, rows);
    assert Crashed(covered, recorded) !! Crashed(snapshot, rows);
  }

  /** After reconciliation no row is covered, so rows and total add up. */
  lemma UncoveredRows(l: Ledger, recorded: map<Id, bool>, ids: seq<Id>)
    requires Conserved(l, recorded) && Distinct(ids) && forall id :: id in ids <==> id in l.rows
    requires forall id :: id in Baseline(l).acked ==> id !in l.rows
    ensures Covers(l, recorded, Request(ids, Baseline(l).total + |ids|, Baseline(l).crashed + |Crashed(Ids(ids), l.rows)|))
    ensures Baseline(l).total + |ids| <= CAP
  {
    var covered, snapshot := Covered(l, recorded), Ids(ids);
    assert covered !! snapshot;
    assert covered + snapshot <= recorded.Keys;
    hide Covered;
    IdsSize(ids);
    SubsetSize(covered + snapshot, recorded.Keys);
    UncoveredCrashed(covered, snapshot, l.rows, recorded);
    hide Crashed;
  }

  /** A row whose deletion failed is counted a second time once its id is struck: the next request then posts
      two sessions for one. */
  lemma FailedDeletionCountsTwice(id: Id, crashed: bool)
    ensures var c := if crashed then 1 else 0;
            var l := Ledger(map[id := crashed], Some(Aggregate(1, c, [id])), 1, c);
            var struck := Written(l, Baseline(l).(acked := []));
            && Conserved(l, map[id := crashed]) && !Conserved(struck, map[id := crashed])
            && Baseline(struck).total + |struck.rows| == 2
  {
    var c := if crashed then 1 else 0;
    var l, recorded := Ledger(map[id := crashed], Some(Aggregate(1, c, [id])), 1, c), map[id := crashed];
    assert recorded.Keys == {id} && Covered(l, recorded) == {id};
    assert Crashed({id}, recorded) == if crashed then {id} else {};
    assert id in [id];
    StrikeIds(l, recorded, []);
  }
}
