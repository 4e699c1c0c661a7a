/** The plaintext store of clients/core/src/store.ts: a map of maps, with a copy-on-write batch. */
module MemoryStore {
  import opened Results

  datatype Collection = Meta | Chats | Messages | Contacts | Files | Outbox | Media

  const COLLECTIONS: seq<Collection> := [Meta, Chats, Messages, Contacts, Files, Outbox, Media]

  datatype Key = Num(n: int) | Name(s: string)

  datatype Op<V> = Put(collection: Collection, key: Key, value: V) | Delete(collection: Collection, key: Key)

  datatype Query = Query(index: Option<(string, Key)>, limit: Option<nat>, reverse: bool)

  type Data<V> = map<Collection, map<Key, V>>

  /** The order of a set of keys: a list of each of them once. */
  type Order = set<Key> -> seq<Key>

  ghost predicate Lists(order: Order) {
    forall keys: set<Key> ::
      && (forall k :: k in order(keys) <==> k in keys)
      && (forall i, j :: 0 <= i < j < |order(keys)| ==> order(keys)[i] != order(keys)[j])
  }

  // ---- what the operations compute ----

  function Rows<V>(d: Data<V>, c: Collection): map<Key, V> {
    if c in d then d[c] else map[]
  }

  function Lookup<V>(d: Data<V>, c: Collection, k: Key): Option<V> {
    if k in Rows(d, c) then Some(Rows(d, c)[k]) else None
  }

  function With<V>(d: Data<V>, c: Collection, k: Key, v: V): Data<V> {
    d[c := Rows(d, c)[k := v]]
  }

  function Without<V>(d: Data<V>, c: Collection, k: Key): Data<V> {
    d[c := Rows(d, c) - {k}]
  }

  function Applied<V>(d: Data<V>, op: Op<V>): Data<V> {
    match op
    case Put(c, k, v) => With(d, c, k, v)
    case Delete(c, k) => Without(d, c, k)
  }

  function AllApplied<V>(d: Data<V>, ops: seq<Op<V>>): Data<V> {
    if ops == [] then d else Applied(AllApplied(d, ops[..|ops| - 1]), ops[|ops| - 1])
  }

  /** Two stores show the same rows in every collection. */
  ghost predicate Same<V>(d: Data<V>, d': Data<V>) {
    forall c :: Rows(d, c) == Rows(d', c)
  }

  function Pick<V>(rows: map<Key, V>, keys: seq<Key>): seq<(Key, V)> {
    if keys == [] then []
    else if keys[0] in rows then [(keys[0], rows[keys[0]])] + Pick(rows, keys[1..])
    else Pick(rows, keys[1..])
  }

  lemma {:induction false} Picked<V>(rows: map<Key, V>, keys: seq<Key>)
    ensures forall i :: 0 <= i < |Pick(rows, keys)| ==>
      Pick(rows, keys)[i].0 in rows && rows[Pick(rows, keys)[i].0] == Pick(rows, keys)[i].1
    ensures forall k :: k in keys && k in rows ==> (k, rows[k]) in Pick(rows, keys)
    decreases |keys|
  {
    if keys != [] {
      Picked(rows, keys[1..]);
      var rest := Pick(rows, keys[1..]);
      forall k | k in keys && k in rows
        ensures (k, rows[k]) in Pick(rows, keys)
      {
        if k == keys[0] {
          assert Pick(rows, keys)[0] == (k, rows[k]);
        } else {
          assert (k, rows[k]) in rest;
        }
      }
    }
  }

  function Listed<V>(d: Data<V>, c: Collection, order: Order): seq<(Key, V)> {
    Pick(Rows(d, c), order(Rows(d, c).Keys))
  }

  function Reversed<T>(s: seq<T>): (r: seq<T>)
    ensures |r| == |s|
  {
    seq(|s|, i requires 0 <= i < |s| => s[|s| - 1 - i])
  }

  function Values<V>(rows: seq<(Key, V)>): (vs: seq<V>)
    ensures |vs| == |rows|
  {
    seq(|rows|, i requires 0 <= i < |rows| => rows[i].1)
  }

  function Narrowed<V>(vs: seq<V>, index: Option<(string, Key)>, field: (V, string) -> Option<Key>): seq<V> {
    if index.None? || vs == [] then vs
    else
      var last := |vs| - 1;
      Narrowed(vs[..last], index, field) + (if field(vs[last], index.value.0) == Some(index.value.1) then [vs[last]] else [])
  }

  function Limited<V>(vs: seq<V>, limit: Option<nat>): seq<V> {
    if limit.Some? && limit.value < |vs| then vs[..limit.value] else vs
  }

  function Scanned<V>(d: Data<V>, c: Collection, q: Query, order: Order, field: (V, string) -> Option<Key>): seq<V> {
    var rows := Listed(d, c, order);
    Limited(Narrowed(Values(if q.reverse then Reversed(rows) else rows), q.index, field), q.limit)
  }

  // ---- the store ----

  class Store<V(==)> {
    var data: Data<V>
    const order: Order

    constructor (o: Order)
      ensures data == map[] && order == o
    {
      data, order := map[], o;
    }

    method Get(c: Collection, k: Key) returns (v: Option<V>)
      ensures v == Lookup(data, c, k)
    {
      var rows := Rows(data, c);
      if k !in rows {
        return None;
      }
      return Some(rows[k]);
    }

    method PutRow(c: Collection, k: Key, v: V)
      modifies this`data
      ensures data == With(old(data), c, k, v)
    {
      data := data[c := Rows(data, c)[k := v]];
    }

    method DeleteRow(c: Collection, k: Key)
      modifies this`data
      ensures data == Without(old(data), c, k)
    {
      data := data[c := Rows(data, c) - {k}];
    }

    method Clear(c: Collection)
      modifies this`data
      ensures data == old(data)[c := map[]]
    {
      data := data[c := map[]];
    }

    method Entries(c: Collection) returns (rows: seq<(Key, V)>)
      ensures rows == Listed(data, c, order)
    {
      var m := Rows(data, c);
      var keys := order(m.Keys);
      rows := [];
      ghost var all := Pick(m, keys);
      var i := 0;
      while i < |keys|
        invariant i <= |keys| && rows + Pick(m, keys[i..]) == all
      {
        if keys[i] in m {
          assert rows + Pick(m, keys[i..]) == (rows + [(keys[i], m[keys[i]])]) + Pick(m, keys[i + 1..]);
          rows := rows + [(keys[i], m[keys[i]])];
        }
        i := i + 1;
      }
    }

    method Scan(c: Collection, q: Query, field: (V, string) -> Option<Key>) returns (vs: seq<V>)
      ensures vs == Scanned(data, c, q, order, field)
    {
      var rows := Entries(c);
      if q.reverse {
        rows := Reversed(rows);
      }
      vs := Values(rows);
      vs := Narrow(vs, q.index, field);
      if q.limit.Some? && q.limit.value < |vs| {
        vs := vs[..q.limit.value];
      }
    }

    /** All operations or none: the collections are staged, changed, and swapped in at the end. */
    method Batch(ops: seq<Op<V>>)
      modifies this`data
      ensures Same(data, AllApplied(old(data), ops))
    {
      var staged: Data<V> := map[];
      assert Same(Overlaid(data, staged), data);
      hide Same;
      hide Applied;
      for i := 0 to |ops|
        invariant data == old(data)
        invariant Same(Overlaid(data, staged), AllApplied(data, ops[..i]))
      {
        var op := ops[i];
        var c := op.collection;
        StageStep(data, staged, AllApplied(data, ops[..i]), op);
        if c !in staged {
          staged := staged[c := Rows(data, c)];
        }
        match op {
          case Put(_, k, v) => staged := staged[c := staged[c][k := v]];
          case Delete(_, k) => staged := staged[c := staged[c] - {k}];
        }
        assert ops[..i + 1][..i] == ops[..i];
      }
      assert ops[..|ops|] == ops;
      data := Overlaid(data, staged);
    }
  }

  /** The staged collections over the stored ones. */
  function Overlaid<V>(d: Data<V>, staged: Data<V>): Data<V> {
    d + staged
  }

  function StagedFor<V>(d: Data<V>, staged: Data<V>, op: Op<V>): Data<V> {
    var staged := if op.collection in staged then staged else staged[op.collection := Rows(d, op.collection)];
    match op
    case Put(c, k, v) => staged[c := staged[c][k := v]]
    case Delete(c, k) => staged[c := staged[c] - {k}]
  }

  lemma RowsOverlaid<V>(d: Data<V>, staged: Data<V>, c: Collection)
    ensures Rows(Overlaid(d, staged), c) == if c in staged then staged[c] else Rows(d, c)
  {
  }

  function RowsAfter<V>(rows: map<Key, V>, op: Op<V>): map<Key, V> {
    match op
    case Put(_, k, v) => rows[k := v]
    case Delete(_, k) => rows - {k}
  }

  lemma RowsApplied<V>(d: Data<V>, op: Op<V>, c: Collection)
    ensures Rows(Applied(d, op), c) == if c == op.collection then RowsAfter(Rows(d, c), op) else Rows(d, c)
  {
  }

  lemma StageStep<V>(d: Data<V>, staged: Data<V>, shown: Data<V>, op: Op<V>)
    requires Same(Overlaid(d, staged), shown)
    ensures Same(Overlaid(d, StagedFor(d, staged, op)), Applied(shown, op))
  {
    var staged' := StagedFor(d, staged, op);
    var at := op.collection;
    assert staged'[at] == RowsAfter(if at in staged then staged[at] else Rows(d, at), op);
    assert forall c :: c != at ==> (c in staged' <==> c in staged) && (c in staged ==> staged'[c] == staged[c]);
    hide StagedFor;
    hide Rows;
    hide Overlaid;
    hide Applied;
    hide RowsAfter;
    forall c ensures Rows(Overlaid(d, staged'), c) == Rows(Applied(shown, op), c) {
      RowsOverlaid(d, staged, c);
      RowsOverlaid(d, staged', c);
      RowsApplied(shown, op, c);
      assert Rows(Overlaid(d, staged), c) == Rows(shown, c);
    }
  }

  method Narrow<V>(vs: seq<V>, index: Option<(string, Key)>, field: (V, string) -> Option<Key>) returns (out: seq<V>)
    ensures out == Narrowed(vs, index, field)
  {
    if index.None? {
      return vs;
    }
    out := [];
    for i := 0 to |vs|
      invariant out == Narrowed(vs[..i], index, field)
    {
      assert vs[..i + 1][..i] == vs[..i];
      if field(vs[i], index.value.0) == Some(index.value.1) {
        out := out + [vs[i]];
      }
    }
    assert vs[..|vs|] == vs;
  }
}
