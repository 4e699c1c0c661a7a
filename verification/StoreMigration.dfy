/** The one-time rewrite of plaintext records into envelopes, clients/core/src/encrypted_store.ts. */
module StoreMigration {
  import opened Results
  import opened StoreCodec
  import opened EncryptedStore
  import MS = MemoryStore

  // ---- what a rewrite does ----

  /** An operation that seals a plain row under its own key, with what the codec keeps of its value. */
  predicate SealsRow(p: Posture, d: MS.Data<Cell>, op: MS.Op<Cell>) {
    op.Put? && !op.collection.Media? && op.key in MS.Rows(d, op.collection) &&
    var was := MS.Rows(d, op.collection)[op.key];
    was.Plain? && !Marked(was.value) &&
    op.value.Sealed? && op.value.k == op.key && OpenEnvelope(p, op.collection, op.value) == Some(Kept(was.value))
  }

  predicate Names(op: MS.Op<Cell>, c: MS.Collection, k: MS.Key) {
    op.collection == c && op.key == k
  }

  predicate Named(ops: seq<MS.Op<Cell>>, c: MS.Collection, k: MS.Key) {
    exists i :: 0 <= i < |ops| && Names(ops[i], c, k)
  }

  /** A row that the check for full encryption accepts. */
  predicate EncryptedRow(c: MS.Collection, k: MS.Key, cell: Cell) {
    c.Media? || (cell.Sealed? && cell.k == k)
  }

  predicate EncryptedRows(c: MS.Collection, rows: map<MS.Key, Cell>) {
    forall k :: k in rows ==> EncryptedRow(c, k, rows[k])
  }

  ghost predicate FullyEncrypted(d: MS.Data<Cell>) {
    forall c :: EncryptedRows(c, MS.Rows(d, c))
  }

  ghost predicate Rewrite(p: Posture, d: MS.Data<Cell>, ops: seq<MS.Op<Cell>>) {
    && (forall i :: 0 <= i < |ops| ==> SealsRow(p, d, ops[i]))
    && (forall c, k :: k in MS.Rows(d, c) ==> EncryptedRow(c, k, MS.Rows(d, c)[k]) || Named(ops, c, k))
  }

  /** What a slot holds afterwards: its old cell, or an envelope of the same value if an operation named it. */
  predicate SlotAfter(p: Posture, c: MS.Collection, k: MS.Key, was: Cell, cell: Cell, named: bool) {
    if !named then cell == was
    else
      !c.Media? && was.Plain? && !Marked(was.value) &&
      cell.Sealed? && cell.k == k && OpenEnvelope(p, c, cell) == Some(Kept(was.value))
  }

  lemma {:induction false} SlotsAfter(p: Posture, d: MS.Data<Cell>, ops: seq<MS.Op<Cell>>, c: MS.Collection, k: MS.Key)
    requires forall i :: 0 <= i < |ops| ==> SealsRow(p, d, ops[i])
    ensures k in MS.Rows(MS.AllApplied(d, ops), c) <==> k in MS.Rows(d, c)
    ensures k in MS.Rows(d, c) ==>
      SlotAfter(p, c, k, MS.Rows(d, c)[k], MS.Rows(MS.AllApplied(d, ops), c)[k], Named(ops, c, k))
    decreases |ops|
  {
    hide OpenEnvelope;
    hide Marked;
    if ops != [] {
      var n := |ops| - 1;
      SlotsAfter(p, d, ops[..n], c, k);
      MS.RowsApplied(MS.AllApplied(d, ops[..n]), ops[n], c);
      assert SealsRow(p, d, ops[n]);
      NamedStep(ops, c, k);
      hide MS.Rows;
      hide MS.Applied;
      hide Named;
    }
  }

  lemma NamedStep(ops: seq<MS.Op<Cell>>, c: MS.Collection, k: MS.Key)
    requires ops != []
    ensures Named(ops, c, k) <==> Named(ops[..|ops| - 1], c, k) || Names(ops[|ops| - 1], c, k)
  {
    var n := |ops| - 1;
    if Named(ops, c, k) {
      var i :| 0 <= i < |ops| && Names(ops[i], c, k);
      assert i < n ==> Names(ops[..n][i], c, k);
    }
    if Named(ops[..n], c, k) {
      var i :| 0 <= i < n && Names(ops[..n][i], c, k);
      assert Names(ops[i], c, k);
    }
    if Names(ops[n], c, k) {
      assert Named(ops, c, k);
    }
  }

  /** What a row shows after it has been sealed. */
  function KeptShown(p: Posture, c: MS.Collection, k: MS.Key, was: Cell): Value {
    if !c.Media? && was.Plain? then Kept(was.value) else Shown(p, c, k, was)
  }

  /** No plain row outside the media collection has a field named __proto__ at any depth. */
  predicate FaithfulRows(c: MS.Collection, rows: map<MS.Key, Cell>) {
    forall k :: k in rows && !c.Media? && rows[k].Plain? ==> NoProto(rows[k].value)
  }

  ghost predicate Faithful(d: MS.Data<Cell>) {
    forall c :: FaithfulRows(c, MS.Rows(d, c))
  }

  /** Applying a rewrite leaves no plaintext row and a store that is sound even for a reader that refuses plaintext;
      to that reader it shows what was shown before, if and only if no plain row had a field named __proto__. */
  lemma RewriteKeepsView(p: Posture, d: MS.Data<Cell>, ops: seq<MS.Op<Cell>>)
    requires p.plaintext && Sound(p, d) && Rewrite(p, d, ops)
    ensures FullyEncrypted(MS.AllApplied(d, ops))
    ensures Sound(p.(plaintext := false), MS.AllApplied(d, ops))
    ensures MS.Same(View(p.(plaintext := false), MS.AllApplied(d, ops)), View(p, d)) <==> Faithful(d)
  {
    var d' := MS.AllApplied(d, ops);
    var q := p.(plaintext := false);
    hide MS.AllApplied;
    forall c
      ensures EncryptedRows(c, MS.Rows(d', c)) && SoundRows(q, c, MS.Rows(d', c))
      ensures MS.Rows(View(q, d'), c) == MS.Rows(View(p, d), c) <==> FaithfulRows(c, MS.Rows(d, c))
    {
      RowsRewritten(p, d, ops, c);
      ViewRows(q, d', c);
      ViewRows(p, d, c);
      assert SoundRows(p, c, MS.Rows(d, c));
      RowsShown(p, c, MS.Rows(d, c), MS.Rows(d', c));
    }
    hide EncryptedRows;
    hide SoundRows;
    hide FaithfulRows;
    hide View;
    hide MS.Rows;
  }

  lemma RowsRewritten(p: Posture, d: MS.Data<Cell>, ops: seq<MS.Op<Cell>>, c: MS.Collection)
    requires p.plaintext && Sound(p, d) && Rewrite(p, d, ops)
    ensures EncryptedRows(c, MS.Rows(MS.AllApplied(d, ops), c))
    ensures SoundRows(p.(plaintext := false), c, MS.Rows(MS.AllApplied(d, ops), c))
    ensures MS.Rows(MS.AllApplied(d, ops), c).Keys == MS.Rows(d, c).Keys
    ensures forall k :: k in MS.Rows(d, c) ==>
      Shown(p.(plaintext := false), c, k, MS.Rows(MS.AllApplied(d, ops), c)[k]) == KeptShown(p, c, k, MS.Rows(d, c)[k])
  {
    hide OpenCell;
    hide MS.Rows;
    hide MS.AllApplied;
    hide SlotAfter;
    hide SealsRow;
    hide EncryptedRow;
    hide Shown;
    hide KeptShown;
    var q := p.(plaintext := false);
    var rows, rows' := MS.Rows(d, c), MS.Rows(MS.AllApplied(d, ops), c);
    assert SoundRows(p, c, rows);
    forall k
      ensures k in rows' <==> k in rows
      ensures k in rows ==> EncryptedRow(c, k, rows'[k]) && OpenCell(q, c, k, rows'[k]).Some?
      ensures k in rows ==> Shown(q, c, k, rows'[k]) == KeptShown(p, c, k, rows[k])
    {
      SlotsAfter(p, d, ops, c, k);
      if k in rows {
        CellRewritten(p, c, k, rows[k], rows'[k], Named(ops, c, k));
      }
    }
    hide Named;
  }

  lemma CellRewritten(p: Posture, c: MS.Collection, k: MS.Key, was: Cell, cell: Cell, named: bool)
    requires p.plaintext && OpenCell(p, c, k, was).Some? && SlotAfter(p, c, k, was, cell, named)
    requires EncryptedRow(c, k, was) || named
    ensures EncryptedRow(c, k, cell)
    ensures OpenCell(p.(plaintext := false), c, k, cell).Some?
    ensures Shown(p.(plaintext := false), c, k, cell) == KeptShown(p, c, k, was)
  {
  }

  /** Rows show the same after sealing exactly when the codec keeps every plain value whole. */
  lemma RowsShown(p: Posture, c: MS.Collection, rows: map<MS.Key, Cell>, rows': map<MS.Key, Cell>)
    requires p.plaintext && SoundRows(p, c, rows) && rows'.Keys == rows.Keys
    requires forall k :: k in rows ==> Shown(p.(plaintext := false), c, k, rows'[k]) == KeptShown(p, c, k, rows[k])
    ensures ShownRows(p.(plaintext := false), c, rows') == ShownRows(p, c, rows) <==> FaithfulRows(c, rows)
  {
    hide NoProto;
    hide OpenEnvelope;
    hide Marked;
    forall k | k in rows
      ensures KeptShown(p, c, k, rows[k]) == Shown(p, c, k, rows[k]) <==> !c.Media? && rows[k].Plain? ==> NoProto(rows[k].value)
    {
      assert OpenCell(p, c, k, rows[k]).Some?;
      if rows[k].Plain? {
        KeptWhole(rows[k].value);
      }
    }
    hide Shown;
    hide KeptShown;
    var q := p.(plaintext := false);
    if ShownRows(q, c, rows') == ShownRows(p, c, rows) {
      forall k | k in rows
        ensures KeptShown(p, c, k, rows[k]) == Shown(p, c, k, rows[k])
      {
        assert ShownRows(q, c, rows')[k] == ShownRows(p, c, rows)[k];
      }
    }
  }

  // ---- preparing and checking ----

  /** A row that stops the preparation: a foreign envelope, a damaged one, or a value that cannot be written. */
  predicate Blocks(c: MS.Collection, k: MS.Key, cell: Cell) {
    !c.Media? && (if cell.Sealed? then cell.k != k else Marked(cell.value) || Encode(cell.value).Err?)
  }

  /** Seal the plain rows of one collection. */
  method PrepareRows(p: Posture, ghost d: MS.Data<Cell>, c: MS.Collection, rows: seq<(MS.Key, Cell)>)
    returns (r: Result<seq<MS.Op<Cell>>, StoreError>)
    requires Lawful(p.aes) && !c.Media?
    requires forall i :: 0 <= i < |rows| ==> rows[i].0 in MS.Rows(d, c) && MS.Rows(d, c)[rows[i].0] == rows[i].1
    ensures r.Err? <==> exists i :: 0 <= i < |rows| && Blocks(c, rows[i].0, rows[i].1)
    ensures r.Ok? ==> forall i :: 0 <= i < |r.value| ==> SealsRow(p, d, r.value[i])
    ensures r.Ok? ==> forall i :: 0 <= i < |rows| ==> EncryptedRow(c, rows[i].0, rows[i].1) || Named(r.value, c, rows[i].0)
    ensures r.Ok? && (forall i :: 0 <= i < |rows| ==> EncryptedRow(c, rows[i].0, rows[i].1)) ==> r.value == []
  {
    hide OpenEnvelope;
    hide Encode;
    hide Kept;
    hide Marked;
    hide MS.Rows;
    var ops: seq<MS.Op<Cell>> := [];
    for i := 0 to |rows|
      invariant forall j :: 0 <= j < i ==> !Blocks(c, rows[j].0, rows[j].1)
      invariant forall j :: 0 <= j < |ops| ==> SealsRow(p, d, ops[j])
      invariant forall j :: 0 <= j < i ==> EncryptedRow(c, rows[j].0, rows[j].1) || Named(ops, c, rows[j].0)
      invariant (forall j :: 0 <= j < i ==> EncryptedRow(c, rows[j].0, rows[j].1)) ==> ops == []
    {
      var k, cell := rows[i].0, rows[i].1;
      if cell.Sealed? {
        if cell.k != k {
          assert Blocks(c, rows[i].0, rows[i].1);
          return Err(Integrity);
        }
      } else if Marked(cell.value) {
        assert Blocks(c, rows[i].0, rows[i].1);
        return Err(Integrity);
      } else if Encode(cell.value).Err? {
        assert Blocks(c, rows[i].0, rows[i].1);
        return Err(Refused);
      } else {
        var iv: nat := *;
        SealOpens(p, c, k, iv, cell.value);
        var op := MS.Put(c, k, SealCell(p, c, k, iv, cell.value));
        NamedMore(ops, op);
        ops := ops + [op];
      }
    }
    return Ok(ops);
  }

  lemma NamedMore(ops: seq<MS.Op<Cell>>, op: MS.Op<Cell>)
    ensures forall c, k :: Named(ops, c, k) || Names(op, c, k) ==> Named(ops + [op], c, k)
  {
    forall c, k | Named(ops, c, k) || Names(op, c, k)
      ensures Named(ops + [op], c, k)
    {
      NamedStep(ops + [op], c, k);
      assert (ops + [op])[..|ops|] == ops;
    }
  }

  predicate BlockedRows(c: MS.Collection, rows: map<MS.Key, Cell>) {
    exists k :: k in rows && Blocks(c, k, rows[k])
  }

  /** The rows of a collection, met in the store's order, are all its rows. */
  lemma ListedRows(d: MS.Data<Cell>, c: MS.Collection, order: MS.Order, rows: seq<(MS.Key, Cell)>)
    requires MS.Lists(order) && rows == MS.Listed(d, c, order)
    ensures forall i :: 0 <= i < |rows| ==> rows[i].0 in MS.Rows(d, c) && MS.Rows(d, c)[rows[i].0] == rows[i].1
    ensures forall k :: k in MS.Rows(d, c) ==> exists i :: 0 <= i < |rows| && rows[i].0 == k
  {
    var m := MS.Rows(d, c);
    var keys := order(m.Keys);
    MS.Picked(m, keys);
    forall k | k in m
      ensures exists i :: 0 <= i < |rows| && rows[i].0 == k
    {
      assert k in m.Keys && k in keys;
      assert (k, m[k]) in rows;
      var i :| 0 <= i < |rows| && rows[i] == (k, m[k]);
    }
  }

  lemma ListedBlocks(c: MS.Collection, m: map<MS.Key, Cell>, rows: seq<(MS.Key, Cell)>)
    requires forall i :: 0 <= i < |rows| ==> rows[i].0 in m && m[rows[i].0] == rows[i].1
    requires forall k :: k in m ==> exists i :: 0 <= i < |rows| && rows[i].0 == k
    ensures BlockedRows(c, m) <==> exists i :: 0 <= i < |rows| && Blocks(c, rows[i].0, rows[i].1)
    ensures EncryptedRows(c, m) <==> forall i :: 0 <= i < |rows| ==> EncryptedRow(c, rows[i].0, rows[i].1)
  {
    hide Blocks;
    hide EncryptedRow;
    if BlockedRows(c, m) {
      var k :| k in m && Blocks(c, k, m[k]);
      var i :| 0 <= i < |rows| && rows[i].0 == k;
      assert Blocks(c, rows[i].0, rows[i].1);
    }
    if i :| 0 <= i < |rows| && Blocks(c, rows[i].0, rows[i].1) {
      assert rows[i].0 in m;
    }
  }

  ghost predicate CoversRows(c: MS.Collection, m: map<MS.Key, Cell>, ops: seq<MS.Op<Cell>>) {
    forall k :: k in m ==> EncryptedRow(c, k, m[k]) || Named(ops, c, k)
  }

  lemma AllCollections(c: MS.Collection)
    ensures exists i :: 0 <= i < 7 && MS.COLLECTIONS[i] == c
  {
    assert c == MS.COLLECTIONS[match c case Meta => 0 case Chats => 1 case Messages => 2 case Contacts => 3
                               case Files => 4 case Outbox => 5 case Media => 6];
  }

  lemma CoversMore(c: MS.Collection, m: map<MS.Key, Cell>, ops: seq<MS.Op<Cell>>, more: seq<MS.Op<Cell>>)
    requires CoversRows(c, m, ops) || CoversRows(c, m, more)
    ensures CoversRows(c, m, ops + more)
  {
    forall k | k in m
      ensures EncryptedRow(c, k, m[k]) || Named(ops + more, c, k)
    {
      if Named(ops, c, k) {
        var i :| 0 <= i < |ops| && Names(ops[i], c, k);
        assert Names((ops + more)[i], c, k);
      } else if Named(more, c, k) {
        var i :| 0 <= i < |more| && Names(more[i], c, k);
        assert Names((ops + more)[|ops| + i], c, k);
      }
    }
  }

  /** Seal the plain rows of one collection of the store below. */
  method PrepareCollection(store: Encrypted, key: nat, c: MS.Collection) returns (r: Result<seq<MS.Op<Cell>>, StoreError>)
    requires Lawful(store.aes) && MS.Lists(store.lower.order) && !c.Media?
    ensures r.Err? <==> BlockedRows(c, MS.Rows(store.lower.data, c))
    ensures r.Ok? ==> forall i :: 0 <= i < |r.value| ==> SealsRow(Posture(store.aes, key, true), store.lower.data, r.value[i])
    ensures r.Ok? ==> CoversRows(c, MS.Rows(store.lower.data, c), r.value)
    ensures r.Ok? && EncryptedRows(c, MS.Rows(store.lower.data, c)) ==> r.value == []
  {
    hide SealsRow;
    hide Blocks;
    hide EncryptedRow;
    hide Lawful;
    ghost var d := store.lower.data;
    var rows := store.lower.Entries(c);
    ListedRows(d, c, store.lower.order, rows);
    hide MS.Lists;
    hide MS.Listed;
    hide MS.Rows;
    ListedBlocks(c, MS.Rows(d, c), rows);
    r := PrepareRows(Posture(store.aes, key, true), d, c, rows);
  }

  /** Prepare, without applying, the rewrite of every plaintext row; nothing is prepared when nothing is plain. */
  method PreparePlaintextMigrationOps(store: Encrypted, key: nat) returns (r: Result<seq<MS.Op<Cell>>, StoreError>)
    requires Lawful(store.aes) && MS.Lists(store.lower.order)
    ensures r.Err? <==> exists c :: BlockedRows(c, MS.Rows(store.lower.data, c))
    ensures r.Ok? ==> Rewrite(Posture(store.aes, key, true), store.lower.data, r.value)
    ensures FullyEncrypted(store.lower.data) && r.Ok? ==> r.value == []
  {
    ghost var d := store.lower.data;
    assert forall c: MS.Collection :: c.Media? ==> !BlockedRows(c, MS.Rows(d, c)) && CoversRows(c, MS.Rows(d, c), []);
    hide SealsRow;
    hide Blocks;
    hide EncryptedRow;
    hide Lawful;
    hide MS.Lists;
    hide MS.Rows;
    hide BlockedRows;
    hide CoversRows;
    hide EncryptedRows;
    var ops: seq<MS.Op<Cell>> := [];
    for i := 0 to |MS.COLLECTIONS|
      invariant forall j :: 0 <= j < i ==> !BlockedRows(MS.COLLECTIONS[j], MS.Rows(d, MS.COLLECTIONS[j]))
      invariant forall j :: 0 <= j < |ops| ==> SealsRow(Posture(store.aes, key, true), d, ops[j])
      invariant forall j :: 0 <= j < i ==> CoversRows(MS.COLLECTIONS[j], MS.Rows(d, MS.COLLECTIONS[j]), ops)
      invariant FullyEncrypted(d) ==> ops == []
    {
      var c := MS.COLLECTIONS[i];
      var more: seq<MS.Op<Cell>> := [];
      if !c.Media? {
        var rows := PrepareCollection(store, key, c);
        if rows.Err? {
          return Err(rows.error);
        }
        more := rows.value;
      }
      forall j | 0 <= j <= i
        ensures CoversRows(MS.COLLECTIONS[j], MS.Rows(d, MS.COLLECTIONS[j]), ops + more)
      {
        CoversMore(MS.COLLECTIONS[j], MS.Rows(d, MS.COLLECTIONS[j]), ops, more);
      }
      ops := ops + more;
    }
    forall c
      ensures !BlockedRows(c, MS.Rows(d, c)) && CoversRows(c, MS.Rows(d, c), ops)
    {
      AllCollections(c);
    }
    CoversAll(Posture(store.aes, key, true), d, ops);
    return Ok(ops);
  }

  lemma CoversAll(p: Posture, d: MS.Data<Cell>, ops: seq<MS.Op<Cell>>)
    requires forall c :: CoversRows(c, MS.Rows(d, c), ops)
    requires forall j :: 0 <= j < |ops| ==> SealsRow(p, d, ops[j])
    ensures Rewrite(p, d, ops)
  {
    hide SealsRow;
    hide EncryptedRow;
    hide Named;
    hide MS.Rows;
    forall c, k | k in MS.Rows(d, c)
      ensures EncryptedRow(c, k, MS.Rows(d, c)[k]) || Named(ops, c, k)
    {
      assert CoversRows(c, MS.Rows(d, c), ops);
    }
  }

  /** The check passes exactly when no plaintext row and no foreign envelope is left. */
  method AssertFullyEncryptedAtRest(store: Encrypted) returns (r: Result<(), StoreError>)
    requires MS.Lists(store.lower.order)
    ensures r.Ok? <==> FullyEncrypted(store.lower.data)
  {
    ghost var d := store.lower.data;
    hide MS.Lists;
    hide MS.Rows;
    hide MS.Listed;
    for i := 0 to |MS.COLLECTIONS|
      invariant forall j :: 0 <= j < i ==> EncryptedRows(MS.COLLECTIONS[j], MS.Rows(d, MS.COLLECTIONS[j]))
    {
      var c := MS.COLLECTIONS[i];
      if !c.Media? {
        var rows := store.lower.Entries(c);
        ListedRows(d, c, store.lower.order, rows);
        ListedBlocks(c, MS.Rows(d, c), rows);
        for j := 0 to |rows|
          invariant forall h :: 0 <= h < j ==> EncryptedRow(c, rows[h].0, rows[h].1)
        {
          if rows[j].1.Plain? || rows[j].1.k != rows[j].0 {
            assert !EncryptedRow(c, rows[j].0, rows[j].1);
            return Err(Integrity);
          }
        }
      }
    }
    forall c
      ensures EncryptedRows(c, MS.Rows(d, c))
    {
      AllCollections(c);
    }
    return Ok(());
  }

  /** Applying a prepared rewrite twice is applying it once: after it there is nothing to seal and nothing blocks. */
  lemma RewrittenStaysDone(p: Posture, d: MS.Data<Cell>, ops: seq<MS.Op<Cell>>, c: MS.Collection)
    requires p.plaintext && Sound(p, d) && Rewrite(p, d, ops)
    ensures !BlockedRows(c, MS.Rows(MS.AllApplied(d, ops), c)) && CoversRows(c, MS.Rows(MS.AllApplied(d, ops), c), [])
  {
    RowsRewritten(p, d, ops, c);
  }
}
