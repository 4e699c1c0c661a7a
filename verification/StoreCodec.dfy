/** The tagged codec of clients/core/src/encrypted_store.ts: what plain JSON cannot hold is written as a tagged
    object, and an object that uses the tag itself is escaped. */
module StoreCodec {
  import opened Results
  import Base64

  /** A value a record may hold; `Other` stands for what the codec refuses. */
  datatype Value =
    | Undef
    | Null
    | Bool(b: bool)
    | Str(s: string)
    | Num(n: real)
    | NaN
    | Infinite(negative: bool)
    | Bytes(bytes: seq<Base64.Byte>)
    | Buffer(bytes: seq<Base64.Byte>)
    | Date(time: int)
    | Arr(items: seq<Value>)
    | Obj(fields: seq<Field>)
    | Other

  datatype Field = Field(key: string, value: Value)

  datatype Json = JNull | JBool(b: bool) | JStr(s: string) | JNum(n: real) | JArr(items: seq<Json>) | JObj(fields: seq<Member>)

  datatype Member = Member(key: string, value: Json)

  datatype CodecError = Unsupported | UnknownTag | Malformed

  const TAG: string := "$gc$"
  const PROTO: string := "__proto__"

  function Tagged(tag: string, value: Json): Json {
    JObj([Member(TAG, JStr(tag)), Member("v", value)])
  }

  predicate Uses(fields: seq<Field>, key: string) {
    exists i :: 0 <= i < |fields| && fields[i].key == key
  }

  function Encode(v: Value): Result<Json, CodecError>
    decreases v, 0
  {
    match v
    case Undef => Ok(JObj([Member(TAG, JStr("undef"))]))
    case Null => Ok(JNull)
    case Bool(b) => Ok(JBool(b))
    case Str(s) => Ok(JStr(s))
    case Num(n) => Ok(JNum(n))
    case NaN => Ok(Tagged("num", JStr("NaN")))
    case Infinite(negative) => Ok(Tagged("num", JStr(if negative then "-Infinity" else "Infinity")))
    case Bytes(bytes) => Ok(Tagged("u8", JStr(Base64.Encoded(Base64.STANDARD, bytes))))
    case Buffer(bytes) => Ok(Tagged("ab", JStr(Base64.Encoded(Base64.STANDARD, bytes))))
    case Date(time) => Ok(Tagged("date", JNum(time as real)))
    case Arr(items) =>
      var encoded := EncodeItems(items);
      if encoded.Err? then Err(encoded.error) else Ok(JArr(encoded.value))
    case Obj(fields) =>
      var encoded := EncodeFields(fields);
      if encoded.Err? then Err(encoded.error)
      else if Uses(fields, TAG) then Ok(Tagged("esc", JObj(encoded.value)))
      else Ok(JObj(encoded.value))
    case Other => Err(Unsupported)
  }

  function EncodeItems(items: seq<Value>): Result<seq<Json>, CodecError>
    decreases items, 0
  {
    if items == [] then Ok([])
    else
      var first := Encode(items[0]);
      if first.Err? then Err(first.error)
      else
        var rest := EncodeItems(items[1..]);
        if rest.Err? then Err(rest.error) else Ok([first.value] + rest.value)
  }

  /** Assigning to the key __proto__ leaves no own property behind. */
  function EncodeFields(fields: seq<Field>): Result<seq<Member>, CodecError>
    decreases fields, 0
  {
    if fields == [] then Ok([])
    else
      var first := Encode(fields[0].value);
      if first.Err? then Err(first.error)
      else
        var rest := EncodeFields(fields[1..]);
        if rest.Err? then Err(rest.error)
        else Ok((if fields[0].key == PROTO then [] else [Member(fields[0].key, first.value)]) + rest.value)
  }

  /** The first member of this name. */
  function Find(members: seq<Member>, key: string): (i: nat)
    ensures i <= |members| && (i < |members| ==> members[i].key == key)
    ensures forall j :: 0 <= j < i ==> members[j].key != key
  {
    if members == [] || members[0].key == key then 0 else 1 + Find(members[1..], key)
  }

  function Decode(j: Json): Result<Value, CodecError>
    decreases j, 1
  {
    match j
    case JNull => Ok(Null)
    case JBool(b) => Ok(Bool(b))
    case JStr(s) => Ok(Str(s))
    case JNum(n) => Ok(Num(n))
    case JArr(items) =>
      var decoded := DecodeItems(items);
      if decoded.Err? then Err(decoded.error) else Ok(Arr(decoded.value))
    case JObj(members) =>
      var t := Find(members, TAG);
      if t < |members| && members[t].value.JStr? then DecodeTagged(members, members[t].value.s)
      else
        var decoded := DecodeMembers(members);
        if decoded.Err? then Err(decoded.error) else Ok(Obj(decoded.value))
  }

  function DecodeTagged(members: seq<Member>, tag: string): Result<Value, CodecError>
    decreases members, 1
  {
    var i := Find(members, "v");
    if tag == "undef" then Ok(Undef)
    else if i == |members| then Err(Malformed)
    else
      var v := members[i].value;
      if tag == "esc" then
        if !v.JObj? then Err(Malformed)
        else
          var decoded := DecodeMembers(v.fields);
          if decoded.Err? then Err(decoded.error) else Ok(Obj(decoded.value))
      else DecodeScalar(tag, v)
  }

  function DecodeScalar(tag: string, v: Json): Result<Value, CodecError> {
    if tag == "num" && v.JStr? then
      Ok(if v.s == "Infinity" then Infinite(false) else if v.s == "-Infinity" then Infinite(true) else NaN)
    else if (tag == "u8" || tag == "ab") && v.JStr? then DecodeBytes(tag == "u8", v.s)
    else if tag == "date" && v.JNum? then Ok(Date(v.n.Floor))
    else if tag == "num" || tag == "u8" || tag == "ab" || tag == "date" then Err(Malformed)
    else Err(UnknownTag)
  }

  function DecodeBytes(view: bool, text: string): Result<Value, CodecError> {
    Base64.Alphabets();
    var bytes := Base64.Decoded(text, Base64.STANDARD);
    if bytes.None? then Err(Malformed) else Ok(if view then Bytes(bytes.value) else Buffer(bytes.value))
  }

  function DecodeItems(items: seq<Json>): Result<seq<Value>, CodecError>
    decreases items, 0
  {
    if items == [] then Ok([])
    else
      var first := Decode(items[0]);
      if first.Err? then Err(first.error)
      else
        var rest := DecodeItems(items[1..]);
        if rest.Err? then Err(rest.error) else Ok([first.value] + rest.value)
  }

  function DecodeMembers(members: seq<Member>): Result<seq<Field>, CodecError>
    decreases members, 0
  {
    if members == [] then Ok([])
    else
      var first := Decode(members[0].value);
      if first.Err? then Err(first.error)
      else
        var rest := DecodeMembers(members[1..]);
        if rest.Err? then Err(rest.error)
        else Ok((if members[0].key == PROTO then [] else [Field(members[0].key, first.value)]) + rest.value)
  }

  // ---- round trip ----

  /** The value without the fields named __proto__. */
  function Kept(v: Value): Value
    decreases v, 0
  {
    match v
    case Arr(items) => Arr(KeptItems(items))
    case Obj(fields) => Obj(KeptFields(fields))
    case _ => v
  }

  function KeptItems(items: seq<Value>): seq<Value>
    decreases items, 0
  {
    if items == [] then [] else [Kept(items[0])] + KeptItems(items[1..])
  }

  function KeptFields(fields: seq<Field>): seq<Field>
    decreases fields, 0
  {
    if fields == [] then []
    else (if fields[0].key == PROTO then [] else [Field(fields[0].key, Kept(fields[0].value))]) + KeptFields(fields[1..])
  }

  predicate UsesMember(members: seq<Member>, key: string) {
    exists i :: 0 <= i < |members| && members[i].key == key
  }

  lemma {:induction false} SameKeys(fields: seq<Field>, key: string)
    requires EncodeFields(fields).Ok? && key != PROTO
    ensures UsesMember(EncodeFields(fields).value, key) <==> Uses(fields, key)
    decreases |fields|
  {
    hide Encode;
    if fields != [] {
      SameKeys(fields[1..], key);
      UsesCons(fields, key);
      var head := if fields[0].key == PROTO then [] else [Member(fields[0].key, Encode(fields[0].value).value)];
      UsesConcat(head, EncodeFields(fields[1..]).value, key);
      if fields[0].key == key {
        assert head[0].key == key;
      }
      assert UsesMember(head, key) <==> fields[0].key == key;
    }
  }

  lemma UsesCons(fields: seq<Field>, key: string)
    requires fields != []
    ensures Uses(fields, key) <==> fields[0].key == key || Uses(fields[1..], key)
  {
    if Uses(fields, key) && fields[0].key != key {
      var i :| 0 <= i < |fields| && fields[i].key == key;
      assert fields[1..][i - 1].key == key;
    }
    if Uses(fields[1..], key) {
      var i :| 0 <= i < |fields| - 1 && fields[1..][i].key == key;
      assert fields[i + 1].key == key;
    }
  }

  lemma UsesConcat(p: seq<Member>, q: seq<Member>, key: string)
    ensures UsesMember(p + q, key) <==> UsesMember(p, key) || UsesMember(q, key)
  {
    forall i | 0 <= i < |p| ensures (p + q)[i] == p[i] { }
    forall i | 0 <= i < |q| ensures (p + q)[|p| + i] == q[i] { }
  }

  lemma FoundIff(members: seq<Member>, key: string)
    ensures UsesMember(members, key) <==> Find(members, key) < |members|
  {
  }

  lemma TaggedDecodes(tag: string, value: Json)
    ensures Decode(Tagged(tag, value)) == DecodeTagged([Member(TAG, JStr(tag)), Member("v", value)], tag)
    ensures Find([Member(TAG, JStr(tag)), Member("v", value)], "v") == 1
  {
    hide DecodeTagged;
    hide DecodeMembers;
    var members := [Member(TAG, JStr(tag)), Member("v", value)];
    assert members[1..] == [Member("v", value)];
    assert Find(members, TAG) == 0;
  }

  lemma BytesDecode(bytes: seq<Base64.Byte>, view: bool)
    ensures DecodeBytes(view, Base64.Encoded(Base64.STANDARD, bytes)) == Ok(if view then Bytes(bytes) else Buffer(bytes))
  {
    hide *;
    Base64.Alphabets();
    Base64.EncodedDecodes(Base64.STANDARD, bytes);
    DecodeBytesBy(view, Base64.Encoded(Base64.STANDARD, bytes), bytes);
  }

  lemma DecodeBytesBy(view: bool, text: string, bytes: seq<Base64.Byte>)
    requires Base64.IsAlphabet(Base64.STANDARD) && Base64.Decoded(text, Base64.STANDARD) == Some(bytes)
    ensures DecodeBytes(view, text) == Ok(if view then Bytes(bytes) else Buffer(bytes))
  {
    hide Base64.Decoded;
    hide Base64.IsAlphabet;
  }

  /** Decoding what was encoded gives the value back, at any depth and with the tag used as a key anywhere; only
      fields named __proto__ are lost. */
  lemma {:induction false} DecodesBack(v: Value)
    requires Encode(v).Ok?
    ensures Decode(Encode(v).value) == Ok(Kept(v))
    decreases v, 0
  {
    hide Base64.Encoded;
    hide DecodeBytes;
    match v
    case Undef =>
      assert Find([Member(TAG, JStr("undef"))], TAG) == 0;
    case NaN => TaggedDecodes("num", JStr("NaN"));
    case Infinite(negative) => TaggedDecodes("num", JStr(if negative then "-Infinity" else "Infinity"));
    case Bytes(bytes) =>
      TaggedDecodes("u8", JStr(Base64.Encoded(Base64.STANDARD, bytes)));
      BytesDecode(bytes, true);
    case Buffer(bytes) =>
      TaggedDecodes("ab", JStr(Base64.Encoded(Base64.STANDARD, bytes)));
      BytesDecode(bytes, false);
    case Date(time) => TaggedDecodes("date", JNum(time as real));
    case Arr(items) => ItemsDecodeBack(items);
    case Obj(fields) => ObjectDecodesBack(fields);
    case _ =>
  }

  lemma {:induction false} ItemsDecodeBack(items: seq<Value>)
    requires EncodeItems(items).Ok?
    ensures DecodeItems(EncodeItems(items).value) == Ok(KeptItems(items))
    decreases items, 0
  {
    hide Decode;
    hide Encode;
    if items != [] {
      DecodesBack(items[0]);
      ItemsDecodeBack(items[1..]);
      var encoded := EncodeItems(items).value;
      assert encoded[0] == Encode(items[0]).value && encoded[1..] == EncodeItems(items[1..]).value;
    }
  }

  lemma {:induction false} FieldsDecodeBack(fields: seq<Field>)
    requires EncodeFields(fields).Ok?
    ensures DecodeMembers(EncodeFields(fields).value) == Ok(KeptFields(fields))
    decreases fields, 0
  {
    hide Decode;
    hide Encode;
    if fields != [] {
      DecodesBack(fields[0].value);
      FieldsDecodeBack(fields[1..]);
      var encoded := EncodeFields(fields).value;
      if fields[0].key != PROTO {
        assert encoded[0] == Member(fields[0].key, Encode(fields[0].value).value) && encoded[1..] == EncodeFields(fields[1..]).value;
      } else {
        assert encoded == EncodeFields(fields[1..]).value && KeptFields(fields) == KeptFields(fields[1..]);
      }
    }
  }

  lemma {:induction false} ObjectDecodesBack(fields: seq<Field>)
    requires EncodeFields(fields).Ok?
    ensures Decode(Encode(Obj(fields)).value) == Ok(Obj(KeptFields(fields)))
    decreases fields, 1
  {
    FieldsDecodeBack(fields);
    var encoded := EncodeFields(fields).value;
    if Uses(fields, TAG) {
      TaggedDecodes("esc", JObj(encoded));
    } else {
      SameKeys(fields, TAG);
      FoundIff(encoded, TAG);
    }
    hide EncodeFields;
    hide DecodeMembers;
    hide KeptFields;
  }

  predicate NoProto(v: Value)
    decreases v, 0
  {
    match v
    case Arr(items) => forall i :: 0 <= i < |items| ==> NoProto(items[i])
    case Obj(fields) => forall i :: 0 <= i < |fields| ==> fields[i].key != PROTO && NoProto(fields[i].value)
    case _ => true
  }

  /** The round trip is exact if and only if no object at any depth has a field named __proto__. */
  lemma {:induction false} KeptWhole(v: Value)
    ensures Kept(v) == v <==> NoProto(v)
    decreases v, 0
  {
    match v
    case Arr(items) => ItemsKeptWhole(items);
    case Obj(fields) => FieldsKeptWhole(fields);
    case _ =>
  }

  lemma {:induction false} ItemsKeptWhole(items: seq<Value>)
    ensures |KeptItems(items)| == |items|
    ensures KeptItems(items) == items <==> forall i :: 0 <= i < |items| ==> NoProto(items[i])
    decreases items, 0
  {
    hide Kept;
    hide NoProto;
    if items != [] {
      KeptWhole(items[0]);
      ItemsKeptWhole(items[1..]);
      assert items == [items[0]] + items[1..];
      assert KeptItems(items)[0] == Kept(items[0]) && KeptItems(items)[1..] == KeptItems(items[1..]);
      assert forall i :: 0 < i < |items| ==> items[i] == items[1..][i - 1];
    }
  }

  lemma {:induction false} FieldsKeptWhole(fields: seq<Field>)
    ensures |KeptFields(fields)| <= |fields|
    ensures KeptFields(fields) == fields <==> forall i :: 0 <= i < |fields| ==> fields[i].key != PROTO && NoProto(fields[i].value)
    decreases fields, 0
  {
    hide Kept;
    hide NoProto;
    if fields != [] {
      KeptWhole(fields[0].value);
      FieldsKeptWhole(fields[1..]);
      assert fields == [fields[0]] + fields[1..];
      assert forall i :: 0 < i < |fields| ==> fields[i] == fields[1..][i - 1];
      if fields[0].key == PROTO {
        assert |KeptFields(fields)| < |fields|;
      } else {
        assert KeptFields(fields)[0] == Field(fields[0].key, Kept(fields[0].value)) && KeptFields(fields)[1..] == KeptFields(fields[1..]);
      }
    }
  }
}
