/** The encrypted store of clients/core/src/encrypted_store.ts over the plaintext store: unlocked, it shows what
    the plaintext store would. */
module EncryptedStore {
  import opened Results
  import opened Decimals
  import opened StoreCodec
  import MS = MemoryStore

  type Cipher = seq<int>

  /** The cipher as the environment offers it, on serialized records. */
  datatype Aes = Aes(seal: (nat, nat, string, Json) -> Cipher, open: (nat, nat, string, Cipher) -> Option<Json>)

  ghost predicate Lawful(aes: Aes) {
    forall key, iv, aad, m :: aes.open(key, iv, aad, aes.seal(key, iv, aad, m)) == Some(m)
  }

  /** What a slot holds: a record as it is, or an envelope with its own copy of the slot's key. */
  datatype Cell = Plain(value: Value) | Sealed(k: MS.Key, iv: nat, ct: Cipher)

  /** The key in use, and whether plaintext records are still acceptable. */
  datatype Posture = Posture(aes: Aes, key: nat, plaintext: bool)

  datatype StoreError = Locked | Integrity | Refused

  // ---- associated data ----

  function NameOf(c: MS.Collection): string {
    match c
    case Meta => "meta"
    case Chats => "chats"
    case Messages => "messages"
    case Contacts => "contacts"
    case Files => "files"
    case Outbox => "outbox"
    case Media => "media"
  }

  function SignedText(n: int): string {
    if n < 0 then "-" + Decimal(-n) else Decimal(n)
  }

  function KeyText(k: MS.Key): string {
    match k
    case Num(n) => "n:" + SignedText(n)
    case Name(s) => "s:" + s
  }

  function Aad(c: MS.Collection, k: MS.Key): string {
    NameOf(c) + "|" + KeyText(k)
  }

  lemma FirstBar(a: string, x: string, b: string, y: string)
    requires a + "|" + x == b + "|" + y && '|' !in a && '|' !in b
    ensures a == b && x == y
  {
    var t := a + "|" + x;
    if |a| < |b| {
      EarlierBar(a, x, b, y);
    } else if |b| < |a| {
      EarlierBar(b, y, a, x);
    } else {
      assert a == t[..|a|] && b == t[..|a|] && x == t[|a| + 1..] && y == t[|a| + 1..];
    }
  }

  lemma EarlierBar(a: string, x: string, b: string, y: string)
    requires a + "|" + x == b + "|" + y && |a| < |b|
    ensures '|' in b
  {
    var t := a + "|" + x;
    assert t[|a|] == '|' && t[|a|] == b[|a|];
  }

  lemma KeyTextInjective(k: MS.Key, l: MS.Key)
    requires KeyText(k) == KeyText(l)
    ensures k == l
  {
    var s, t := KeyText(k), KeyText(l);
    assert s[0] == (if k.Num? then 'n' else 's') && t[0] == (if l.Num? then 'n' else 's');
    if k.Num? {
      assert s[2..] == SignedText(k.n) && t[2..] == SignedText(l.n);
      SignedInjective(k.n, l.n);
    } else {
      assert k.s == s[2..] && l.s == t[2..];
    }
  }

  lemma SignedInjective(m: int, n: int)
    requires SignedText(m) == SignedText(n)
    ensures m == n
  {
    NoSign(if m < 0 then -m else m);
    NoSign(if n < 0 then -n else n);
    if m < 0 && n < 0 {
      assert SignedText(m)[1..] == Decimal(-m) && SignedText(n)[1..] == Decimal(-n);
      DecimalInjective(-m, -n);
    } else if m >= 0 && n >= 0 {
      DecimalInjective(m, n);
    }
  }

  lemma NoSign(n: nat)
    ensures Decimal(n)[0] != '-'
  {
    assert Decimal(n)[0] in Decimal(n);
  }

  /** The associated data of a slot names the slot: no two slots share it, not even 5 and "5". */
  lemma AadInjective(c: MS.Collection, k: MS.Key, c': MS.Collection, k': MS.Key)
    requires Aad(c, k) == Aad(c', k')
    ensures c == c' && k == k'
  {
    FirstBar(NameOf(c), KeyText(k), NameOf(c'), KeyText(k'));
    KeyTextInjective(k, k');
  }

  // ---- what a store shows ----

  predicate Marked(v: Value) {
    v.Obj? && Uses(v.fields, "__gc_enc")
  }

  function OpenEnvelope(p: Posture, c: MS.Collection, cell: Cell): Option<Value>
    requires cell.Sealed?
  {
    var m := p.aes.open(p.key, cell.iv, Aad(c, cell.k), cell.ct);
    if m.None? then None
    else
      var v := Decode(m.value);
      if v.Err? then None else Some(v.value)
  }

  /** The record in a slot, if the slot is sound. */
  function OpenCell(p: Posture, c: MS.Collection, k: MS.Key, cell: Cell): Option<Value> {
    if c.Media? then (if cell.Plain? then Some(cell.value) else None)
    else if cell.Plain? then (if p.plaintext && !Marked(cell.value) then Some(cell.value) else None)
    else if cell.k != k then None
    else OpenEnvelope(p, c, cell)
  }

  predicate SoundRows(p: Posture, c: MS.Collection, rows: map<MS.Key, Cell>) {
    forall k :: k in rows ==> OpenCell(p, c, k, rows[k]).Some?
  }

  ghost predicate Sound(p: Posture, d: MS.Data<Cell>) {
    Lawful(p.aes) && forall c :: SoundRows(p, c, MS.Rows(d, c))
  }

  function Shown(p: Posture, c: MS.Collection, k: MS.Key, cell: Cell): Value {
    var v := OpenCell(p, c, k, cell);
    if v.Some? then v.value else Undef
  }

  function ShownRows(p: Posture, c: MS.Collection, rows: map<MS.Key, Cell>): map<MS.Key, Value> {
    map k | k in rows :: Shown(p, c, k, rows[k])
  }

  /** The plaintext store that an encrypted one shows. */
  function View(p: Posture, d: MS.Data<Cell>): MS.Data<Value> {
    map c | c in d :: ShownRows(p, c, d[c])
  }

  function SealCell(p: Posture, c: MS.Collection, k: MS.Key, iv: nat, v: Value): Cell
    requires Encode(v).Ok?
  {
    Sealed(k, iv, p.aes.seal(p.key, iv, Aad(c, k), Encode(v).value))
  }

  lemma SealOpens(p: Posture, c: MS.Collection, k: MS.Key, iv: nat, v: Value)
    requires Lawful(p.aes) && Encode(v).Ok? && !c.Media?
    ensures OpenCell(p, c, k, SealCell(p, c, k, iv, v)) == Some(Kept(v))
  {
    DecodesBack(v);
    hide Encode;
    hide Decode;
    hide Kept;
    hide Aad;
  }

  /** What a collection keeps of a value: all of it in the media collection, what the codec keeps elsewhere. */
  function Stored(c: MS.Collection, v: Value): Value {
    if c.Media? then v else Kept(v)
  }

  function StoredOp(op: MS.Op<Value>): MS.Op<Value> {
    match op
    case Put(c, k, v) => MS.Put(c, k, Stored(c, v))
    case Delete(c, k) => MS.Delete(c, k)
  }

  function StoredOps(ops: seq<MS.Op<Value>>): (stored: seq<MS.Op<Value>>)
    ensures |stored| == |ops|
  {
    seq(|ops|, i requires 0 <= i < |ops| => StoredOp(ops[i]))
  }

  /** The store keeps exactly what it is given if and only if no put outside the media collection has a field named
      __proto__ at any depth. */
  lemma StoredWhole(ops: seq<MS.Op<Value>>)
    ensures StoredOps(ops) == ops <==>
      forall i :: 0 <= i < |ops| && ops[i].Put? && !ops[i].collection.Media? ==> NoProto(ops[i].value)
  {
    hide Kept;
    hide NoProto;
    forall i | 0 <= i < |ops| && ops[i].Put?
      ensures Kept(ops[i].value) == ops[i].value <==> NoProto(ops[i].value)
    {
      KeptWhole(ops[i].value);
    }
    if StoredOps(ops) == ops {
      forall i | 0 <= i < |ops| && ops[i].Put? && !ops[i].collection.Media?
        ensures NoProto(ops[i].value)
      {
        assert StoredOps(ops)[i] == StoredOp(ops[i]);
      }
    }
  }

  lemma ViewRows(p: Posture, d: MS.Data<Cell>, c: MS.Collection)
    ensures MS.Rows(View(p, d), c) == ShownRows(p, c, MS.Rows(d, c))
  {
  }

  lemma RowsWith<V>(d: MS.Data<V>, c: MS.Collection, k: MS.Key, v: V, e: MS.Collection)
    ensures MS.Rows(MS.With(d, c, k, v), e) == if e == c then MS.Rows(d, c)[k := v] else MS.Rows(d, e)
  {
  }

  lemma ShownRowsWith(p: Posture, c: MS.Collection, rows: map<MS.Key, Cell>, k: MS.Key, cell: Cell, v: Value)
    requires SoundRows(p, c, rows) && OpenCell(p, c, k, cell) == Some(v)
    ensures SoundRows(p, c, rows[k := cell]) && ShownRows(p, c, rows[k := cell]) == ShownRows(p, c, rows)[k := v]
  {
    hide OpenCell;
  }

  lemma SoundAt(p: Posture, d: MS.Data<Cell>, c: MS.Collection)
    requires Sound(p, d)
    ensures SoundRows(p, c, MS.Rows(d, c)) && Lawful(p.aes)
  {
  }

  /** Replacing one slot replaces one row of what is shown. */
  lemma ViewWith(p: Posture, d: MS.Data<Cell>, c: MS.Collection, k: MS.Key, cell: Cell, v: Value)
    requires Sound(p, d) && OpenCell(p, c, k, cell) == Some(v)
    ensures Sound(p, MS.With(d, c, k, cell))
    ensures MS.Same(View(p, MS.With(d, c, k, cell)), MS.With(View(p, d), c, k, v))
  {
    hide OpenCell;
    hide SoundRows;
    hide ShownRows;
    hide View;
    hide MS.With;
    hide MS.Rows;
    SoundAt(p, d, c);
    forall e
      ensures MS.Rows(View(p, MS.With(d, c, k, cell)), e) == MS.Rows(MS.With(View(p, d), c, k, v), e)
      ensures SoundRows(p, e, MS.Rows(MS.With(d, c, k, cell), e))
    {
      hide Sound;
      ViewRows(p, MS.With(d, c, k, cell), e);
      ViewRows(p, d, e);
      SoundAt(p, d, e);
      RowsWith(d, c, k, cell, e);
      RowsWith(View(p, d), c, k, v, e);
      if e == c {
        ShownRowsWith(p, c, MS.Rows(d, c), k, cell, v);
      }
    }
  }

  lemma ViewWithout(p: Posture, d: MS.Data<Cell>, c: MS.Collection, k: MS.Key)
    requires Sound(p, d)
    ensures Sound(p, MS.Without(d, c, k))
    ensures MS.Same(View(p, MS.Without(d, c, k)), MS.Without(View(p, d), c, k))
  {
    hide OpenCell;
    ViewRows(p, d, c);
    assert SoundRows(p, c, MS.Rows(d, c));
    forall e
      ensures MS.Rows(View(p, MS.Without(d, c, k)), e) == MS.Rows(MS.Without(View(p, d), c, k), e)
      ensures SoundRows(p, e, MS.Rows(MS.Without(d, c, k), e))
    {
      ViewRows(p, MS.Without(d, c, k), e);
      ViewRows(p, d, e);
      assert SoundRows(p, e, MS.Rows(d, e));
    }
  }

  // ---- batches ----

  function ValueOp(p: Posture, op: MS.Op<Cell>): MS.Op<Value> {
    match op
    case Put(c, k, cell) => MS.Put(c, k, Shown(p, c, k, cell))
    case Delete(c, k) => MS.Delete(c, k)
  }

  function ValueOps(p: Posture, ops: seq<MS.Op<Cell>>): seq<MS.Op<Value>> {
    if ops == [] then [] else ValueOps(p, ops[..|ops| - 1]) + [ValueOp(p, ops[|ops| - 1])]
  }

  predicate SoundOp(p: Posture, op: MS.Op<Cell>) {
    op.Put? ==> OpenCell(p, op.collection, op.key, op.value).Some?
  }

  lemma SameApplied(d: MS.Data<Value>, d': MS.Data<Value>, op: MS.Op<Value>)
    requires MS.Same(d, d')
    ensures MS.Same(MS.Applied(d, op), MS.Applied(d', op))
  {
    forall c ensures MS.Rows(MS.Applied(d, op), c) == MS.Rows(MS.Applied(d', op), c) {
      MS.RowsApplied(d, op, c);
      MS.RowsApplied(d', op, c);
      assert MS.Rows(d, c) == MS.Rows(d', c);
    }
  }

  lemma SameTrans(d: MS.Data<Value>, e: MS.Data<Value>, f: MS.Data<Value>)
    requires MS.Same(d, e) && MS.Same(e, f)
    ensures MS.Same(d, f)
  {
    forall c ensures MS.Rows(d, c) == MS.Rows(f, c) {
      assert MS.Rows(d, c) == MS.Rows(e, c) && MS.Rows(e, c) == MS.Rows(f, c);
    }
  }

  lemma ViewApplied(p: Posture, d: MS.Data<Cell>, op: MS.Op<Cell>)
    requires Sound(p, d) && SoundOp(p, op)
    ensures Sound(p, MS.Applied(d, op)) && MS.Same(View(p, MS.Applied(d, op)), MS.Applied(View(p, d), ValueOp(p, op)))
  {
    hide OpenCell;
    match op
    case Put(c, k, cell) => ViewWith(p, d, c, k, cell, Shown(p, c, k, cell));
    case Delete(c, k) => ViewWithout(p, d, c, k);
  }

  /** A batch of sound operations does to what is shown what the plaintext operations would do. */
  lemma {:induction false} ViewAllApplied(p: Posture, d: MS.Data<Cell>, ops: seq<MS.Op<Cell>>)
    requires Sound(p, d) && forall i :: 0 <= i < |ops| ==> SoundOp(p, ops[i])
    ensures Sound(p, MS.AllApplied(d, ops))
    ensures MS.Same(View(p, MS.AllApplied(d, ops)), MS.AllApplied(View(p, d), ValueOps(p, ops)))
    decreases |ops|
  {
    hide SoundOp;
    hide MS.Applied;
    hide ValueOp;
    if ops == [] {
    } else {
      var n := |ops| - 1;
      ViewAllApplied(p, d, ops[..n]);
      hide MS.Same;
      hide Sound;
      ViewApplied(p, MS.AllApplied(d, ops[..n]), ops[n]);
      SameApplied(View(p, MS.AllApplied(d, ops[..n])), MS.AllApplied(View(p, d), ValueOps(p, ops[..n])), ValueOp(p, ops[n]));
      SameTrans(View(p, MS.AllApplied(d, ops)), MS.Applied(View(p, MS.AllApplied(d, ops[..n])), ValueOp(p, ops[n])),
        MS.AllApplied(View(p, d), ValueOps(p, ops)));
    }
  }

  // ---- lists and scans ----

  function ShownList(p: Posture, c: MS.Collection, rows: seq<(MS.Key, Cell)>): (shown: seq<(MS.Key, Value)>)
    ensures |shown| == |rows|
  {
    seq(|rows|, i requires 0 <= i < |rows| => (rows[i].0, Shown(p, c, rows[i].0, rows[i].1)))
  }

  lemma {:induction false} PickShown(p: Posture, c: MS.Collection, rows: map<MS.Key, Cell>, keys: seq<MS.Key>)
    ensures MS.Pick(ShownRows(p, c, rows), keys) == ShownList(p, c, MS.Pick(rows, keys))
    decreases |keys|
  {
    hide Shown;
    if keys != [] {
      PickShown(p, c, rows, keys[1..]);
    }
  }

  /** What is listed is what the plaintext store lists, in the same order. */
  lemma ViewListed(p: Posture, d: MS.Data<Cell>, c: MS.Collection, order: MS.Order)
    requires Sound(p, d)
    ensures MS.Listed(View(p, d), c, order) == ShownList(p, c, MS.Listed(d, c, order))
    ensures forall i :: 0 <= i < |MS.Listed(d, c, order)| ==>
      OpenCell(p, c, MS.Listed(d, c, order)[i].0, MS.Listed(d, c, order)[i].1).Some?
  {
    hide OpenCell;
    ViewRows(p, d, c);
    assert SoundRows(p, c, MS.Rows(d, c));
    assert ShownRows(p, c, MS.Rows(d, c)).Keys == MS.Rows(d, c).Keys;
    PickShown(p, c, MS.Rows(d, c), order(MS.Rows(d, c).Keys));
    MS.Picked(MS.Rows(d, c), order(MS.Rows(d, c).Keys));
  }

  /** A value without its slot's key: an envelope is opened by the key it carries. */
  function OpenValue(p: Posture, c: MS.Collection, cell: Cell): Option<Value> {
    if cell.Plain? then (if p.plaintext && !Marked(cell.value) then Some(cell.value) else None)
    else OpenEnvelope(p, c, cell)
  }

  /** The cells of a collection in the order in which a scan reads them. */
  function Turned(d: MS.Data<Cell>, c: MS.Collection, q: MS.Query, order: MS.Order): seq<Cell> {
    var rows := MS.Listed(d, c, order);
    MS.Values(if q.reverse then MS.Reversed(rows) else rows)
  }

  // ---- the store ----

  class Encrypted {
    const lower: MS.Store<Cell>
    const aes: Aes
    var key: Option<nat>
    var passthrough: bool
    var plaintext: bool

    constructor (store: MS.Store<Cell>, cipher: Aes)
      ensures lower == store && aes == cipher && key == None && !passthrough && !plaintext
    {
      lower, aes, key, passthrough, plaintext := store, cipher, None, false, false;
    }

    function Mode(): Posture
      reads this
      requires key.Some?
    {
      Posture(aes, key.value, plaintext)
    }

    predicate IsLocked()
      reads this
    {
      key.None? && !passthrough
    }

    /** A slot is read as what it shows, and an unsound slot is reported. */
    method Get(c: MS.Collection, k: MS.Key) returns (r: Result<Option<Value>, StoreError>)
      ensures !c.Media? && IsLocked() ==> r == Err(Locked)
      ensures key.Some? ==> r == ReadSlot(Mode(), lower.data, c, k)
      ensures key.None? && (c.Media? || passthrough) ==> r == ReadBare(plaintext, lower.data, c, k)
    {
      hide OpenEnvelope;
      if !c.Media? && IsLocked() {
        return Err(Locked);
      }
      var raw := lower.Get(c, k);
      if raw.None? {
        return Ok(None);
      }
      var cell := raw.value;
      if c.Media? {
        return if cell.Plain? then Ok(Some(cell.value)) else Err(Integrity);
      }
      if cell.Plain? {
        return if plaintext && !Marked(cell.value) then Ok(Some(cell.value)) else Err(Integrity);
      }
      if cell.k != k {
        return Err(Integrity);
      }
      if key.None? {
        return Err(Locked);
      }
      var shown := OpenEnvelope(Posture(aes, key.value, plaintext), c, cell);
      return if shown.Some? then Ok(Some(shown.value)) else Err(Integrity);
    }

    method PutRow(c: MS.Collection, k: MS.Key, v: Value) returns (r: Result<(), StoreError>)
      requires key.Some? ==> Sound(Mode(), lower.data)
      modifies lower
      ensures !c.Media? && IsLocked() ==> r == Err(Locked) && lower.data == old(lower.data)
      ensures key.Some? && !c.Media? && Encode(v).Err? ==> r == Err(Refused) && lower.data == old(lower.data)
      ensures key.Some? && (c.Media? || Encode(v).Ok?) ==>
        r == Ok(()) && Sound(Mode(), lower.data) && MS.Same(View(Mode(), lower.data), MS.With(View(Mode(), old(lower.data)), c, k, Stored(c, v)))
      ensures key.None? && (c.Media? || passthrough) ==> r == Ok(()) && lower.data == MS.With(old(lower.data), c, k, Plain(v))
    {
      hide Encode;
      hide OpenEnvelope;
      hide Sound;
      hide MS.Same;
      hide View;
      if c.Media? {
        if key.Some? {
          ViewWith(Mode(), lower.data, c, k, Plain(v), v);
        }
        lower.PutRow(c, k, Plain(v));
        return Ok(());
      }
      if key.None? {
        if !passthrough {
          return Err(Locked);
        }
        lower.PutRow(c, k, Plain(v));
        return Ok(());
      }
      if Encode(v).Err? {
        return Err(Refused);
      }
      var iv: nat := *;
      var p := Posture(aes, key.value, plaintext);
      LawOf(p, lower.data);
      SealOpens(p, c, k, iv, v);
      ViewWith(p, lower.data, c, k, SealCell(p, c, k, iv, v), Kept(v));
      lower.PutRow(c, k, SealCell(p, c, k, iv, v));
      return Ok(());
    }

    method DeleteRow(c: MS.Collection, k: MS.Key)
      requires key.Some? ==> Sound(Mode(), lower.data)
      modifies lower
      ensures key.Some? ==> Sound(Mode(), lower.data) && MS.Same(View(Mode(), lower.data), MS.Without(View(Mode(), old(lower.data)), c, k))
    {
      if key.Some? {
        ViewWithout(Mode(), lower.data, c, k);
      }
      lower.DeleteRow(c, k);
    }

    /** All rows of a collection, or the report that one of them is unsound. */
    method Entries(c: MS.Collection) returns (r: Result<seq<(MS.Key, Value)>, StoreError>)
      ensures !c.Media? && IsLocked() ==> r == Err(Locked)
      ensures key.Some? ==> r == ReadList(Mode(), c, MS.Listed(lower.data, c, lower.order))
      ensures key.None? && (c.Media? || passthrough) ==> r == AllOk(BareList(plaintext, c, MS.Listed(lower.data, c, lower.order)))
    {
      hide OpenEnvelope;
      hide MS.Listed;
      hide AllOk;
      if !c.Media? && IsLocked() {
        return Err(Locked);
      }
      var rows := lower.Entries(c);
      ghost var bare := BareList(plaintext, c, rows);
      var shown: seq<(MS.Key, Value)> := [];
      AllOkNothing(bare);
      for i := 0 to |rows|
        invariant key.Some? ==> forall j :: 0 <= j < i ==> OpenCell(Mode(), c, rows[j].0, rows[j].1).Some?
        invariant |shown| == i
        invariant key.Some? ==> forall j :: 0 <= j < i ==> shown[j] == (rows[j].0, Shown(Mode(), c, rows[j].0, rows[j].1))
        invariant key.None? ==> AllOk(bare[..i]) == Ok(shown)
      {
        var cell := rows[i].1;
        if key.None? {
          AllOkNext(bare, i, shown);
        }
        if cell.Plain? {
          if !c.Media? && (Marked(cell.value) || !plaintext) {
            return Err(Integrity);
          }
          shown := shown + [(rows[i].0, cell.value)];
        } else if c.Media? || cell.k != rows[i].0 {
          return Err(Integrity);
        } else if key.None? {
          return Err(Locked);
        } else {
          var v := OpenEnvelope(Posture(aes, key.value, plaintext), c, cell);
          if v.None? {
            return Err(Integrity);
          }
          shown := shown + [(rows[i].0, v.value)];
        }
      }
      assert key.Some? ==> shown == ShownList(Mode(), c, rows);
      assert bare[..|rows|] == bare;
      return Ok(shown);
    }

    method Scan(c: MS.Collection, q: MS.Query, field: (Value, string) -> Option<MS.Key>) returns (r: Result<seq<Value>, StoreError>)
      ensures !c.Media? && IsLocked() ==> r == Err(Locked)
      ensures key.Some? && Sound(Mode(), lower.data) ==>
        r == Ok(MS.Scanned(View(Mode(), lower.data), c, q, lower.order, field))
      ensures c.Media? ==> r == PlainScan(lower.data, q, lower.order, field)
      ensures key.Some? && !c.Media? ==>
        r == Filtered(if Openable(Mode(), c, Turned(lower.data, c, q, lower.order))
                      then Ok(Opened(Mode(), c, Turned(lower.data, c, q, lower.order))) else Err(Integrity), q, field)
      ensures key.None? && passthrough && !c.Media? ==>
        r == Filtered(AllOk(BareValues(plaintext, Turned(lower.data, c, q, lower.order))), q, field)
    {
      hide View;
      hide Sound;
      hide MS.Listed;
      hide MS.Narrowed;
      hide AllOk;
      hide PlainScan;
      hide OpenCell;
      hide OpenValue;
      hide Shown;
      hide Openable;
      hide Opened;
      hide MS.Scanned;
      hide Turned;
      hide BareValues;
      if c.Media? {
        r := ScanMedia(q, field);
        return;
      }
      if IsLocked() {
        return Err(Locked);
      }
      var cells := lower.Scan(c, MS.Query(None, None, q.reverse), (cell, name) => None);
      WholeScan(lower.data, c, q, lower.order);
      var vals := OpenAll(key, aes, plaintext, c, cells);
      if key.Some? && Sound(Mode(), lower.data) {
        ScanShown(Mode(), lower.data, c, q, lower.order, field);
      }
      if vals.Err? {
        return Err(vals.error);
      }
      var kept := MS.Narrow(vals.value, q.index, field);
      if q.limit.Some? && q.limit.value < |kept| {
        kept := kept[..q.limit.value];
      }
      return Ok(kept);
    }

    /** Every value is sealed before the one batch reaches the store below: all operations happen or none. */
    method Batch(ops: seq<MS.Op<Value>>) returns (r: Result<(), StoreError>)
      requires key.Some? ==> Sound(Mode(), lower.data)
      modifies lower
      ensures IsLocked() ==> r == Err(Locked)
      ensures r.Err? ==> lower.data == old(lower.data)
      ensures key.Some? ==> (r.Ok? <==> forall i :: 0 <= i < |ops| ==> Encodable(ops[i]))
      ensures key.Some? && r.Ok? ==>
        Sound(Mode(), lower.data) && MS.Same(View(Mode(), lower.data), MS.AllApplied(View(Mode(), old(lower.data)), StoredOps(ops)))
      ensures key.None? && passthrough ==> r == Ok(()) && MS.Same(lower.data, MS.AllApplied(old(lower.data), PlainOps(ops)))
    {
      hide Encode;
      hide OpenEnvelope;
      hide Sound;
      hide View;
      hide MS.Same;
      hide Kept;
      hide StoredOp;
      hide OpenCell;
      hide MS.AllApplied;
      if IsLocked() {
        return Err(Locked);
      }
      var sealed: seq<MS.Op<Cell>> := [];
      if key.None? {
        for i := 0 to |ops|
          invariant lower.data == old(lower.data) && sealed == PlainOps(ops)[..i]
        {
          sealed := sealed + [PlainOp(ops[i])];
        }
        assert PlainOps(ops)[..|ops|] == PlainOps(ops);
        lower.Batch(sealed);
        return Ok(());
      }
      var p := Posture(aes, key.value, plaintext);
      LawOf(p, lower.data);
      for i := 0 to |ops|
        invariant lower.data == old(lower.data)
        invariant |sealed| == i && ValueOps(p, sealed) == StoredOps(ops)[..i]
        invariant forall j :: 0 <= j < i ==> Encodable(ops[j]) && SoundOp(p, sealed[j])
      {
        if !Encodable(ops[i]) {
          return Err(Refused);
        }
        var iv: nat := *;
        var op := SealOp(p, iv, ops[i]);
        SealOpSound(p, iv, ops[i]);
        assert (sealed + [op])[..i] == sealed;
        sealed := sealed + [op];
      }
      assert StoredOps(ops)[..|ops|] == StoredOps(ops);
      ghost var was := lower.data;
      ViewAllApplied(p, was, sealed);
      lower.Batch(sealed);
      ViewSame(p, MS.AllApplied(was, sealed), lower.data);
      SameTrans(View(p, lower.data), View(p, MS.AllApplied(was, sealed)), MS.AllApplied(View(p, was), StoredOps(ops)));
      return Ok(());
    }

    method ScanMedia(q: MS.Query, field: (Value, string) -> Option<MS.Key>) returns (r: Result<seq<Value>, StoreError>)
      ensures key.Some? && Sound(Mode(), lower.data) ==>
        r == Ok(MS.Scanned(View(Mode(), lower.data), MS.Media, q, lower.order, field))
      ensures r == PlainScan(lower.data, q, lower.order, field)
    {
      hide View;
      hide Sound;
      hide MS.Scanned;
      hide OpenCell;
      var cells := lower.Scan(MS.Media, q, PlainField(field));
      if key.Some? && Sound(Mode(), lower.data) {
        MediaScan(Mode(), lower.data, q, lower.order, field);
      }
      var vals: seq<Value> := [];
      for i := 0 to |cells|
        invariant forall k :: 0 <= k < i ==> cells[k].Plain?
        invariant AllPlain(cells) ==> vals == Plains(cells)[..i]
      {
        if cells[i].Sealed? {
          return Err(Integrity);
        }
        vals := vals + [cells[i].value];
      }
      assert AllPlain(cells) ==> vals == Plains(cells);
      return Ok(vals);
    }

    method Clear(c: MS.Collection)
      requires key.Some? ==> Sound(Mode(), lower.data)
      modifies lower
      ensures key.Some? ==> Sound(Mode(), lower.data) && MS.Same(View(Mode(), lower.data), View(Mode(), old(lower.data))[c := map[]])
    {
      if key.Some? {
        ViewCleared(Mode(), lower.data, c);
      }
      lower.Clear(c);
    }
  }

  // ---- without a key ----

  /** What is read without a key: plaintext rows while they are acceptable; an envelope is reported. */
  function BareCell(plaintext: bool, c: MS.Collection, k: MS.Key, cell: Cell): Result<Value, StoreError> {
    if cell.Plain? then (if c.Media? || (plaintext && !Marked(cell.value)) then Ok(cell.value) else Err(Integrity))
    else if c.Media? || cell.k != k then Err(Integrity)
    else Err(Locked)
  }

  function ReadBare(plaintext: bool, d: MS.Data<Cell>, c: MS.Collection, k: MS.Key): Result<Option<Value>, StoreError> {
    var raw := MS.Lookup(d, c, k);
    if raw.None? then Ok(None)
    else
      var v := BareCell(plaintext, c, k, raw.value);
      if v.Ok? then Ok(Some(v.value)) else Err(v.error)
  }

  function BareList(plaintext: bool, c: MS.Collection, rows: seq<(MS.Key, Cell)>): (list: seq<Result<(MS.Key, Value), StoreError>>)
    ensures |list| == |rows|
  {
    seq(|rows|, i requires 0 <= i < |rows| =>
      var v := BareCell(plaintext, c, rows[i].0, rows[i].1); if v.Ok? then Ok((rows[i].0, v.value)) else Err(v.error))
  }

  function BareValues(plaintext: bool, cells: seq<Cell>): (list: seq<Result<Value, StoreError>>)
    ensures |list| == |cells|
  {
    seq(|cells|, i requires 0 <= i < |cells| =>
      if cells[i].Sealed? then Err(Locked) else if plaintext && !Marked(cells[i].value) then Ok(cells[i].value) else Err(Integrity))
  }

  /** All of them, or the first failure. */
  function AllOk<T>(list: seq<Result<T, StoreError>>): Result<seq<T>, StoreError> {
    if list == [] then Ok([])
    else
      var before, last := AllOk(list[..|list| - 1]), list[|list| - 1];
      if before.Err? then before else if last.Err? then Err(last.error) else Ok(before.value + [last.value])
  }

  lemma AllOkNothing<T>(list: seq<Result<T, StoreError>>)
    ensures AllOk(list[..0]) == Ok([])
  {
  }

  lemma {:induction false} AllOkStops<T>(list: seq<Result<T, StoreError>>, i: nat)
    requires i <= |list| && AllOk(list[..i]).Err?
    ensures AllOk(list) == AllOk(list[..i])
    decreases |list|
  {
    if i == |list| {
      assert list[..i] == list;
    } else {
      assert list[..|list| - 1][..i] == list[..i];
      AllOkStops(list[..|list| - 1], i);
    }
  }

  /** One more: the list goes on, or has failed. */
  lemma AllOkNext<T>(list: seq<Result<T, StoreError>>, i: nat, sofar: seq<T>)
    requires i < |list| && AllOk(list[..i]) == Ok(sofar)
    ensures list[i].Ok? ==> AllOk(list[..i + 1]) == Ok(sofar + [list[i].value])
    ensures list[i].Err? ==> AllOk(list) == Err(list[i].error)
  {
    assert list[..i + 1][..i] == list[..i];
    if list[i].Err? {
      AllOkStops(list, i + 1);
    }
  }

  /** Reading a slot: nothing, what it shows, or the report that it is unsound. */
  function ReadSlot(p: Posture, d: MS.Data<Cell>, c: MS.Collection, k: MS.Key): Result<Option<Value>, StoreError> {
    var raw := MS.Lookup(d, c, k);
    if raw.None? then Ok(None)
    else if OpenCell(p, c, k, raw.value).Some? then Ok(Some(Shown(p, c, k, raw.value)))
    else Err(Integrity)
  }

  /** A sound store reads as the plaintext store it shows. */
  lemma ReadsView(p: Posture, d: MS.Data<Cell>, c: MS.Collection, k: MS.Key)
    requires Sound(p, d)
    ensures ReadSlot(p, d, c, k) == Ok(MS.Lookup(View(p, d), c, k))
  {
    hide OpenCell;
    ViewRows(p, d, c);
    assert SoundRows(p, c, MS.Rows(d, c));
  }

  function ReadList(p: Posture, c: MS.Collection, rows: seq<(MS.Key, Cell)>): Result<seq<(MS.Key, Value)>, StoreError> {
    if forall i :: 0 <= i < |rows| ==> OpenCell(p, c, rows[i].0, rows[i].1).Some? then Ok(ShownList(p, c, rows)) else Err(Integrity)
  }

  lemma ListsView(p: Posture, d: MS.Data<Cell>, c: MS.Collection, order: MS.Order)
    requires Sound(p, d)
    ensures ReadList(p, c, MS.Listed(d, c, order)) == Ok(MS.Listed(View(p, d), c, order))
  {
    hide OpenCell;
    hide Sound;
    hide MS.Listed;
    hide View;
    ViewListed(p, d, c, order);
  }

  function PlainOp(op: MS.Op<Value>): MS.Op<Cell> {
    match op
    case Put(c, k, v) => MS.Put(c, k, Plain(v))
    case Delete(c, k) => MS.Delete(c, k)
  }

  function PlainOps(ops: seq<MS.Op<Value>>): (plain: seq<MS.Op<Cell>>)
    ensures |plain| == |ops|
  {
    seq(|ops|, i requires 0 <= i < |ops| => PlainOp(ops[i]))
  }

  predicate Encodable(op: MS.Op<Value>) {
    op.Put? && !op.collection.Media? ==> Encode(op.value).Ok?
  }

  function SealOp(p: Posture, iv: nat, op: MS.Op<Value>): MS.Op<Cell>
    requires Encodable(op)
  {
    match op
    case Put(c, k, v) => MS.Put(c, k, if c.Media? then Plain(v) else SealCell(p, c, k, iv, v))
    case Delete(c, k) => MS.Delete(c, k)
  }

  lemma SealOpSound(p: Posture, iv: nat, op: MS.Op<Value>)
    requires Lawful(p.aes) && Encodable(op)
    ensures SoundOp(p, SealOp(p, iv, op)) && ValueOp(p, SealOp(p, iv, op)) == StoredOp(op)
  {
    hide Encode;
    hide Kept;
    hide OpenEnvelope;
    if op.Put? && !op.collection.Media? {
      SealOpens(p, op.collection, op.key, iv, op.value);
    }
  }

  /** Stores with the same rows are sound together and show the same. */
  lemma ViewSame(p: Posture, d: MS.Data<Cell>, d': MS.Data<Cell>)
    requires Sound(p, d) && MS.Same(d', d)
    ensures Sound(p, d') && MS.Same(View(p, d'), View(p, d))
  {
    hide OpenCell;
    forall c
      ensures MS.Rows(View(p, d'), c) == MS.Rows(View(p, d), c)
      ensures SoundRows(p, c, MS.Rows(d', c))
    {
      ViewRows(p, d, c);
      ViewRows(p, d', c);
      assert SoundRows(p, c, MS.Rows(d, c)) && MS.Rows(d', c) == MS.Rows(d, c);
    }
  }

  lemma ViewCleared(p: Posture, d: MS.Data<Cell>, c: MS.Collection)
    requires Sound(p, d)
    ensures Sound(p, d[c := map[]]) && MS.Same(View(p, d[c := map[]]), View(p, d)[c := map[]])
  {
    hide OpenCell;
    forall e: MS.Collection {:trigger MS.Rows(d[c := map[]], e)}
      ensures MS.Rows(View(p, d[c := map[]]), e) == MS.Rows(View(p, d)[c := map[]], e)
      ensures SoundRows(p, e, MS.Rows(d[c := map[]], e))
    {
      ViewRows(p, d, e);
      ViewRows(p, d[c := map[]], e);
      assert SoundRows(p, e, MS.Rows(d, e));
    }
  }

  function Filtered(vs: Result<seq<Value>, StoreError>, q: MS.Query, field: (Value, string) -> Option<MS.Key>): Result<seq<Value>, StoreError> {
    if vs.Err? then vs else Ok(MS.Limited(MS.Narrowed(vs.value, q.index, field), q.limit))
  }

  function PlainScan(d: MS.Data<Cell>, q: MS.Query, order: MS.Order, field: (Value, string) -> Option<MS.Key>): Result<seq<Value>, StoreError> {
    var cells := MS.Scanned(d, MS.Media, q, order, PlainField(field));
    if AllPlain(cells) then Ok(Plains(cells)) else Err(Integrity)
  }

  predicate AllPlain(cells: seq<Cell>) {
    forall i :: 0 <= i < |cells| ==> cells[i].Plain?
  }

  function Plains(cells: seq<Cell>): (vs: seq<Value>)
    requires AllPlain(cells)
    ensures |vs| == |cells|
  {
    seq(|cells|, i requires 0 <= i < |cells| => cells[i].value)
  }

  function PlainField(field: (Value, string) -> Option<MS.Key>): (Cell, string) -> Option<MS.Key> {
    (cell: Cell, name: string) => if cell.Plain? then field(cell.value, name) else None
  }

  lemma {:induction false} PlainNarrowed(cells: seq<Cell>, index: Option<(string, MS.Key)>, field: (Value, string) -> Option<MS.Key>)
    requires AllPlain(cells)
    ensures AllPlain(MS.Narrowed(cells, index, PlainField(field)))
    ensures Plains(MS.Narrowed(cells, index, PlainField(field))) == MS.Narrowed(Plains(cells), index, field)
    decreases |cells|
  {
    if index.Some? && cells != [] {
      var last := |cells| - 1;
      PlainNarrowed(cells[..last], index, field);
      assert Plains(cells)[..last] == Plains(cells[..last]);
    }
  }

  /** The media collection is stored as it is, so the scan below is the scan of what is shown. */
  lemma MediaScan(p: Posture, d: MS.Data<Cell>, q: MS.Query, order: MS.Order, field: (Value, string) -> Option<MS.Key>)
    requires Sound(p, d)
    ensures AllPlain(MS.Scanned(d, MS.Media, q, order, PlainField(field)))
    ensures Plains(MS.Scanned(d, MS.Media, q, order, PlainField(field))) == MS.Scanned(View(p, d), MS.Media, q, order, field)
  {
    var rows := MS.Listed(d, MS.Media, order);
    var turned := if q.reverse then MS.Reversed(rows) else rows;
    ViewListed(p, d, MS.Media, order);
    ReversedShown(p, MS.Media, rows);
    hide Sound;
    hide View;
    hide MS.Listed;
    hide MS.Narrowed;
    assert AllPlain(MS.Values(turned));
    assert Plains(MS.Values(turned)) == MS.Values(ShownList(p, MS.Media, turned));
    PlainNarrowed(MS.Values(turned), q.index, field);
  }

  predicate Openable(p: Posture, c: MS.Collection, cells: seq<Cell>) {
    forall i :: 0 <= i < |cells| ==> OpenValue(p, c, cells[i]).Some?
  }

  function Opened(p: Posture, c: MS.Collection, cells: seq<Cell>): seq<Value>
    requires Openable(p, c, cells)
  {
    seq(|cells|, i requires 0 <= i < |cells| => OpenValue(p, c, cells[i]).value)
  }

  lemma OpenedShown(p: Posture, c: MS.Collection, rows: seq<(MS.Key, Cell)>)
    requires !c.Media? && forall i :: 0 <= i < |rows| ==> OpenCell(p, c, rows[i].0, rows[i].1).Some?
    ensures Openable(p, c, MS.Values(rows)) && Opened(p, c, MS.Values(rows)) == MS.Values(ShownList(p, c, rows))
  {
    hide OpenEnvelope;
    forall i | 0 <= i < |rows|
      ensures OpenValue(p, c, rows[i].1) == OpenCell(p, c, rows[i].0, rows[i].1)
    {
    }
  }

  method OpenAll(key: Option<nat>, aes: Aes, plaintext: bool, c: MS.Collection, cells: seq<Cell>) returns (r: Result<seq<Value>, StoreError>)
    ensures key.Some? ==>
      r == if Openable(Posture(aes, key.value, plaintext), c, cells) then Ok(Opened(Posture(aes, key.value, plaintext), c, cells)) else Err(Integrity)
    ensures key.None? ==> r == AllOk(BareValues(plaintext, cells))
  {
    hide OpenEnvelope;
    hide AllOk;
    var vals: seq<Value> := [];
    ghost var bare := BareValues(plaintext, cells);
    AllOkNothing(bare);
    for i := 0 to |cells|
      invariant |vals| == i
      invariant key.None? ==> AllOk(bare[..i]) == Ok(vals)
      invariant key.Some? ==> forall j :: 0 <= j < i ==> OpenValue(Posture(aes, key.value, plaintext), c, cells[j]) == Some(vals[j])
    {
      var cell := cells[i];
      if key.None? {
        AllOkNext(bare, i, vals);
      }
      if cell.Plain? {
        if Marked(cell.value) || !plaintext {
          return Err(Integrity);
        }
        vals := vals + [cell.value];
      } else if key.None? {
        return Err(Locked);
      } else {
        var v := OpenEnvelope(Posture(aes, key.value, plaintext), c, cell);
        if v.None? {
          return Err(Integrity);
        }
        vals := vals + [v.value];
      }
    }
    assert key.Some? && Openable(Posture(aes, key.value, plaintext), c, cells) ==>
      vals == Opened(Posture(aes, key.value, plaintext), c, cells);
    assert bare[..|cells|] == bare;
    return Ok(vals);
  }

  lemma WholeScan(d: MS.Data<Cell>, c: MS.Collection, q: MS.Query, order: MS.Order)
    ensures MS.Scanned(d, c, MS.Query(None, None, q.reverse), order, (cell, name) => None) == Turned(d, c, q, order)
  {
    hide MS.Listed;
  }

  /** Over a sound store the filter runs on what is shown. */
  lemma ScanShown(p: Posture, d: MS.Data<Cell>, c: MS.Collection, q: MS.Query, order: MS.Order, field: (Value, string) -> Option<MS.Key>)
    requires Sound(p, d) && !c.Media?
    ensures Openable(p, c, Turned(d, c, q, order))
    ensures Filtered(Ok(Opened(p, c, Turned(d, c, q, order))), q, field) == Ok(MS.Scanned(View(p, d), c, q, order, field))
  {
    var rows := MS.Listed(d, c, order);
    hide View;
    hide Sound;
    hide MS.Listed;
    hide MS.Narrowed;
    hide OpenCell;
    hide OpenValue;
    hide Shown;
    ViewListed(p, d, c, order);
    ReversedShown(p, c, rows);
    OpenedShown(p, c, if q.reverse then MS.Reversed(rows) else rows);
  }

  lemma ReversedShown(p: Posture, c: MS.Collection, rows: seq<(MS.Key, Cell)>)
    ensures MS.Reversed(ShownList(p, c, rows)) == ShownList(p, c, MS.Reversed(rows))
    ensures (forall i :: 0 <= i < |rows| ==> OpenCell(p, c, rows[i].0, rows[i].1).Some?) ==>
      forall i :: 0 <= i < |rows| ==> OpenCell(p, c, MS.Reversed(rows)[i].0, MS.Reversed(rows)[i].1).Some?
  {
    hide OpenCell;
    hide Shown;
  }

  lemma LawOf(p: Posture, d: MS.Data<Cell>)
    requires Sound(p, d)
    ensures Lawful(p.aes)
  {
  }

  // ---- whole histories ----

  /** What a caller may do to the store: a batch (a put or a deletion is one of length one), or the clearing of a
      collection. */
  datatype Command = Change(ops: seq<MS.Op<Value>>) | Clear(collection: MS.Collection)

  predicate AllEncodable(ops: seq<MS.Op<Value>>) {
    forall i :: 0 <= i < |ops| ==> Encodable(ops[i])
  }

  /** The batch that reaches the store below; `iv` gives the fresh vector of each operation. */
  function SealOps(p: Posture, iv: nat -> nat, ops: seq<MS.Op<Value>>): (sealed: seq<MS.Op<Cell>>)
    requires AllEncodable(ops)
    ensures |sealed| == |ops|
  {
    seq(|ops|, i requires 0 <= i < |ops| => SealOp(p, iv(i), ops[i]))
  }

  /** A batch with a value that the codec refuses changes nothing. */
  function Encrypting(p: Posture, iv: nat -> nat, d: MS.Data<Cell>, command: Command): MS.Data<Cell> {
    match command
    case Change(ops) => if AllEncodable(ops) then MS.AllApplied(d, SealOps(p, iv, ops)) else d
    case Clear(c) => d[c := map[]]
  }

  function Storing(d: MS.Data<Value>, command: Command): MS.Data<Value> {
    match command
    case Change(ops) => if AllEncodable(ops) then MS.AllApplied(d, StoredOps(ops)) else d
    case Clear(c) => d[c := map[]]
  }

  function EncryptedRun(p: Posture, iv: (nat, nat) -> nat, d: MS.Data<Cell>, commands: seq<Command>): MS.Data<Cell> {
    if commands == [] then d
    else
      var n := |commands| - 1;
      Encrypting(p, i => iv(n, i), EncryptedRun(p, iv, d, commands[..n]), commands[n])
  }

  function PlainRun(d: MS.Data<Value>, commands: seq<Command>): MS.Data<Value> {
    if commands == [] then d else Storing(PlainRun(d, commands[..|commands| - 1]), commands[|commands| - 1])
  }

  lemma {:induction false} SealOpsSound(p: Posture, iv: nat -> nat, ops: seq<MS.Op<Value>>)
    requires Lawful(p.aes) && AllEncodable(ops)
    ensures forall i :: 0 <= i < |ops| ==> SoundOp(p, SealOps(p, iv, ops)[i])
    ensures ValueOps(p, SealOps(p, iv, ops)) == StoredOps(ops)
    decreases |ops|
  {
    hide SealOp;
    hide SoundOp;
    hide ValueOp;
    hide StoredOp;
    hide Encodable;
    if ops != [] {
      var n := |ops| - 1;
      SealOpsSound(p, iv, ops[..n]);
      SealOpSound(p, iv(n), ops[n]);
      assert SealOps(p, iv, ops)[..n] == SealOps(p, iv, ops[..n]);
      assert StoredOps(ops) == StoredOps(ops[..n]) + [StoredOp(ops[n])];
      forall i | 0 <= i < |ops|
        ensures SoundOp(p, SealOps(p, iv, ops)[i])
      {
        assert i < n ==> SealOps(p, iv, ops)[i] == SealOps(p, iv, ops[..n])[i];
      }
    }
  }

  lemma {:induction false} SameAllApplied(d: MS.Data<Value>, d': MS.Data<Value>, ops: seq<MS.Op<Value>>)
    requires MS.Same(d, d')
    ensures MS.Same(MS.AllApplied(d, ops), MS.AllApplied(d', ops))
    decreases |ops|
  {
    hide MS.Same;
    hide MS.Applied;
    if ops != [] {
      var n := |ops| - 1;
      SameAllApplied(d, d', ops[..n]);
      SameApplied(MS.AllApplied(d, ops[..n]), MS.AllApplied(d', ops[..n]), ops[n]);
    }
  }

  lemma SameCleared(d: MS.Data<Value>, d': MS.Data<Value>, c: MS.Collection)
    requires MS.Same(d, d')
    ensures MS.Same(d[c := map[]], d'[c := map[]])
  {
    forall e: MS.Collection {:trigger MS.Rows(d[c := map[]], e)}
      ensures MS.Rows(d[c := map[]], e) == MS.Rows(d'[c := map[]], e)
    {
      assert MS.Rows(d, e) == MS.Rows(d', e);
    }
  }

  /** One command keeps the stores in step. */
  lemma CommandAgrees(p: Posture, iv: nat -> nat, d: MS.Data<Cell>, plain: MS.Data<Value>, command: Command)
    requires Sound(p, d) && MS.Same(View(p, d), plain)
    ensures Sound(p, Encrypting(p, iv, d, command)) && MS.Same(View(p, Encrypting(p, iv, d, command)), Storing(plain, command))
  {
    LawOf(p, d);
    match command {
      case Change(ops) =>
        if AllEncodable(ops) {
          SealOpsSound(p, iv, ops);
          ViewAllApplied(p, d, SealOps(p, iv, ops));
          SameAllApplied(View(p, d), plain, StoredOps(ops));
        }
      case Clear(c) =>
        ViewCleared(p, d, c);
        SameCleared(View(p, d), plain, c);
    }
    hide Sound;
    hide View;
    hide MS.AllApplied;
    hide SealOps;
    hide StoredOps;
    hide AllEncodable;
    SameTrans(View(p, Encrypting(p, iv, d, command)), Storing(View(p, d), command), Storing(plain, command));
    hide MS.Same;
  }

  /** Over any history, and from any sound store: the encrypted store stays sound, and every slot reads as in a plaintext
      store with the same history of what the codec keeps. */
  lemma {:induction false} HistoryAgrees(p: Posture, iv: (nat, nat) -> nat, d: MS.Data<Cell>, commands: seq<Command>)
    requires Sound(p, d)
    ensures Sound(p, EncryptedRun(p, iv, d, commands))
    ensures MS.Same(View(p, EncryptedRun(p, iv, d, commands)), PlainRun(View(p, d), commands))
    ensures forall c, k :: ReadSlot(p, EncryptedRun(p, iv, d, commands), c, k) == Ok(MS.Lookup(PlainRun(View(p, d), commands), c, k))
    decreases |commands|
  {
    hide Sound;
    hide View;
    hide Encrypting;
    hide Storing;
    hide ReadSlot;
    if commands != [] {
      var n := |commands| - 1;
      HistoryAgrees(p, iv, d, commands[..n]);
      CommandAgrees(p, i => iv(n, i), EncryptedRun(p, iv, d, commands[..n]), PlainRun(View(p, d), commands[..n]), commands[n]);
    }
    var end, plain := EncryptedRun(p, iv, d, commands), PlainRun(View(p, d), commands);
    hide EncryptedRun;
    hide PlainRun;
    forall c, k
      ensures ReadSlot(p, end, c, k) == Ok(MS.Lookup(plain, c, k))
    {
      ReadsView(p, end, c, k);
      assert MS.Rows(View(p, end), c) == MS.Rows(plain, c);
    }
  }
}
