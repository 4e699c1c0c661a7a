/** Which values come back from the printer and parser of clients/core/src/telegram_tdlib.ts, exactly: those in which
    no object passes for a marker and none has a field named __proto__. */
module TdJsonMarkers {
  import opened Results
  import opened TdJson
  import opened TdJsonRoundTrip
  import opened TdJsonParser

  // ---- what comes back exactly ----

  /** The parsed form with every field. */
  function Exact(v: Value): Parsed
    decreases v, 0
  {
    match v
    case Arr(items) => PArray(ExactItems(items))
    case Obj(fields) => PObject(ExactFields(map[], fields))
    case _ => Canon(v)
  }

  function ExactItems(items: seq<Value>): seq<Parsed>
    decreases items, 0
  {
    if items == [] then [] else [Exact(items[0])] + ExactItems(items[1..])
  }

  function ExactFields(before: map<Text, Parsed>, fields: seq<Field>): map<Text, Parsed>
    decreases fields, 0
  {
    if fields == [] then before
    else if fields[0].value.Undefined? then ExactFields(before, fields[1..])
    else ExactFields(before[fields[0].key := Exact(fields[0].value)], fields[1..])
  }

  /** No object passes for a marker, and none has a field named __proto__. */
  predicate Clean(v: Value)
    decreases v, 0
  {
    match v
    case Arr(items) => forall i :: 0 <= i < |items| ==> Clean(items[i])
    case Obj(fields) =>
      !Marked(fields) && !Shows(fields, PROTO) &&
      forall i :: 0 <= i < |fields| && !fields[i].value.Undefined? ==> Clean(fields[i].value)
    case _ => true
  }

  predicate ComesBack(v: Value, finite: Text -> bool) {
    Print(v).Ok? && Parse(Print(v).value, finite) == Some(Exact(v))
  }

  /** w is v, or is an item or a printed field inside it. */
  predicate Within(w: Value, v: Value)
    decreases v, 0
  {
    w == v ||
    match v
    case Arr(items) => exists i :: 0 <= i < |items| && Within(w, items[i])
    case Obj(fields) => exists i :: 0 <= i < |fields| && !fields[i].value.Undefined? && Within(w, fields[i].value)
    case _ => false
  }

  lemma {:induction false} CleanPrintable(v: Value, finite: Text -> bool)
    requires WellFormed(v, finite) && Clean(v)
    ensures Printable(v, finite) && Exact(v) == Canon(v)
    decreases v, 0
  {
    match v
    case Arr(items) => CleanItems(items, finite);
    case Obj(fields) => CleanFields(map[], fields, finite);
    case _ =>
  }

  lemma {:induction false} CleanItems(items: seq<Value>, finite: Text -> bool)
    requires forall i :: 0 <= i < |items| ==> WellFormed(items[i], finite) && Clean(items[i])
    ensures forall i :: 0 <= i < |items| ==> Printable(items[i], finite)
    ensures ExactItems(items) == CanonItems(items)
    decreases items, 0
  {
    hide Exact;
    hide Canon;
    hide WellFormed;
    hide Clean;
    hide Printable;
    if items != [] {
      CleanPrintable(items[0], finite);
      CleanItems(items[1..], finite);
    }
  }

  lemma {:induction false} CleanFields(before: map<Text, Parsed>, fields: seq<Field>, finite: Text -> bool)
    requires forall i :: 0 <= i < |fields| ==> WellFormed(fields[i].value, finite)
    requires forall i :: 0 <= i < |fields| && !fields[i].value.Undefined? ==> Clean(fields[i].value)
    requires !Shows(fields, PROTO)
    ensures forall i :: 0 <= i < |fields| ==> Printable(fields[i].value, finite)
    ensures ExactFields(before, fields) == CanonFields(before, fields)
    decreases fields, 0
  {
    if fields != [] {
      assert forall i :: 0 <= i < |fields[1..]| ==> fields[1..][i] == fields[i + 1];
      if !fields[0].value.Undefined? {
        CleanPrintable(fields[0].value, finite);
        CleanFields(before[fields[0].key := Exact(fields[0].value)], fields[1..], finite);
      } else {
        CleanFields(before, fields[1..], finite);
      }
    }
  }

  // ---- markers do not come back ----

  lemma {:induction false} UnescapeShrinks(t: Text)
    ensures Unescape(t).Some? ==> |Unescape(t).value| <= |t|
    decreases |t|
  {
    if t != [] {
      if t[0] != BACKSLASH { UnescapeShrinks(t[1..]); }
      else if |t| >= 6 && t[1] == 117 { UnescapeShrinks(t[6..]); }
      else if |t| >= 2 { UnescapeShrinks(t[2..]); }
    }
  }

  lemma {:induction false} ItemsAreArray(text: Text, before: seq<Parsed>, finite: Text -> bool)
    ensures ParseItems(text, before, finite).Done? ==> ParseItems(text, before, finite).value.PArray?
    decreases |text|
  {
    ItemsBy(text, before, finite);
    hide ParseItems;
    var e := ItemAt(text, finite);
    if e.More? {
      ItemsAreArray(e.rest, before + [e.value], finite);
    }
    hide ItemAt;
  }

  lemma {:induction false} FieldsAreObject(text: Text, before: map<Text, Parsed>, finite: Text -> bool)
    ensures ParseFields(text, before, finite).Done? ==> ParseFields(text, before, finite).value.PObject?
    decreases |text|
  {
    FieldsBy(text, before, finite);
    hide ParseFields;
    var e := FieldAt(text, finite);
    if e.More? {
      FieldsAreObject(e.rest, Assign(before, e.value.0, e.value.1), finite);
    }
    hide FieldAt;
  }

  lemma StringLength(t: Text)
    requires t != [] && ParseString(t).Done?
    ensures |ParseString(t).value| <= |t|
  {
    UnescapeShrinks(t[1..Scan(t[1..], false).value]);
    hide Unescape;
    hide Scan;
  }

  /** A parsed string is no longer than the text it was parsed from. */
  lemma StringFits(text: Text, finite: Text -> bool)
    ensures var r := ParseValue(text, finite);
            r.Done? && r.value.PString? ==> |r.value.text| <= |text|
  {
    ValueBy(text, finite);
    var t := SkipSpace(text);
    hide ParseValue;
    if t != [] {
      if t[0] == 123 {
        var inner := SkipSpace(t[1..]);
        FieldsAreObject(inner, map[], finite);
      } else if t[0] == 91 {
        var inner := SkipSpace(t[1..]);
        ItemsAreArray(inner, [], finite);
      } else if t[0] == QUOTE {
        if ParseString(t).Done? {
          StringLength(t);
        }
      }
    }
    hide ParseItems;
    hide ParseFields;
    hide ParseString;
    hide SkipSpace;
  }

  /** A string among the fields is shorter than the text, or was there before. */
  predicate Fits(m: map<Text, Parsed>, before: map<Text, Parsed>, size: nat) {
    forall key :: key in m && m[key].PString? ==> |m[key].text| < size || (key in before && before[key] == m[key])
  }

  lemma AfterValue(text: Text, finite: Text -> bool)
    ensures var e, r := ValueAfter(text, finite), ParseValue(text, finite);
            !e.Bad? ==> r.Done? && e.value == r.value
  {
    hide ParseValue;
    hide SkipSpace;
  }

  lemma FieldLength(text: Text, finite: Text -> bool)
    ensures var e := FieldAt(text, finite);
            !e.Bad? && e.value.1.PString? ==> |e.value.1.text| < |text|
  {
    hide ParseValue;
    hide KeyAt;
    hide ValueAfter;
    var key := KeyAt(text);
    if key.Done? {
      StringFits(key.rest, finite);
      AfterValue(key.rest, finite);
    }
  }

  lemma FitsLater(m: map<Text, Parsed>, before: map<Text, Parsed>, key: Text, v: Parsed, small: nat, size: nat)
    requires Fits(m, Assign(before, key, v), small) && small <= size && (v.PString? ==> |v.text| < size)
    ensures Fits(m, before, size)
  {
  }

  lemma FitsNow(before: map<Text, Parsed>, key: Text, v: Parsed, size: nat)
    requires v.PString? ==> |v.text| < size
    ensures Fits(Assign(before, key, v), before, size)
  {
  }

  lemma {:induction false} FieldsFit(text: Text, before: map<Text, Parsed>, finite: Text -> bool)
    ensures var r := ParseFields(text, before, finite);
            r.Done? ==> r.value.PObject? && Fits(r.value.fields, before, |text|)
    decreases |text|
  {
    hide ParseFields;
    hide FieldAt;
    hide Fits;
    hide Assign;
    FieldsBy(text, before, finite);
    FieldLength(text, finite);
    var e := FieldAt(text, finite);
    if e.More? {
      var after := Assign(before, e.value.0, e.value.1);
      FieldsFit(e.rest, after, finite);
      if ParseFields(e.rest, after, finite).Done? {
        FitsLater(ParseFields(e.rest, after, finite).value.fields, before, e.value.0, e.value.1, |e.rest|, |text|);
      }
    } else if e.Last? {
      FitsNow(before, e.value.0, e.value.1, |text|);
    }
  }

  /** A string inside a parsed object is shorter than its text. */
  lemma ObjectFits(text: Text, finite: Text -> bool)
    ensures var r := ParseValue(text, finite);
            r.Done? && r.value.PObject? ==> Fits(r.value.fields, map[], |text|)
  {
    ValueBy(text, finite);
    var t := SkipSpace(text);
    hide ParseValue;
    if t != [] {
      if t[0] == 123 {
        FieldsFit(SkipSpace(t[1..]), map[], finite);
      } else if t[0] == 91 {
        ItemsAreArray(SkipSpace(t[1..]), [], finite);
      }
    }
    hide ParseItems;
    hide ParseFields;
    hide ParseString;
    hide SkipSpace;
  }

  lemma {:induction false} ExactValue(before: map<Text, Parsed>, fields: seq<Field>, found: Value)
    requires if found.Undefined? then VALUE !in before else VALUE in before && before[VALUE] == Exact(found)
    ensures var v := ValueOf(fields, found);
            if v.Undefined? then VALUE !in ExactFields(before, fields)
            else VALUE in ExactFields(before, fields) && ExactFields(before, fields)[VALUE] == Exact(v)
    decreases |fields|
  {
    hide Exact;
    if fields != [] {
      var f := fields[0];
      if f.value.Undefined? {
        ExactValue(before, fields[1..], found);
      } else {
        ExactValue(before[f.key := Exact(f.value)], fields[1..], if f.key == VALUE then f.value else found);
      }
    }
  }

  /** An object that passes for a marker never comes back: its text would have to hold itself. */
  lemma MarkerLost(fields: seq<Field>, finite: Text -> bool)
    requires Marked(fields)
    ensures !ComesBack(Obj(fields), finite)
  {
    hide ParseValue;
    hide SkipSpace;
    hide ExactFields;
    hide ValueOf;
    hide Marked;
    hide PrintFields;
    ExactValue(map[], fields, Undefined);
    if RawText(fields).Ok? {
      ObjectFits(RawText(fields).value, finite);
    }
  }

  lemma {:induction false} ProtoExact(before: map<Text, Parsed>, fields: seq<Field>)
    ensures PROTO in before || Shows(fields, PROTO) ==> PROTO in ExactFields(before, fields)
    decreases |fields|
  {
    hide Exact;
    if fields != [] {
      assert Shows(fields, PROTO) ==> (fields[0].key == PROTO && !fields[0].value.Undefined?) || Shows(fields[1..], PROTO) by {
        if Shows(fields, PROTO) && !(fields[0].key == PROTO && !fields[0].value.Undefined?) {
          var i :| 0 <= i < |fields| && fields[i].key == PROTO && !fields[i].value.Undefined?;
          assert fields[1..][i - 1] == fields[i];
        }
      }
      if fields[0].value.Undefined? {
        ProtoExact(before, fields[1..]);
      } else {
        ProtoExact(before[fields[0].key := Exact(fields[0].value)], fields[1..]);
      }
    }
  }

  /** An object with a field named __proto__ never comes back, if its fields are printable. */
  lemma ProtoLost(fields: seq<Field>, finite: Text -> bool)
    requires Printable(Obj(fields), finite) && Print(Obj(fields)).Ok? && Shows(fields, PROTO)
    ensures !ComesBack(Obj(fields), finite)
  {
    ParserUndoesPrinter(Obj(fields), finite);
    KeysKept(map[], fields, PROTO);
    ProtoExact(map[], fields);
    hide Printable;
    hide Print;
    hide Parse;
    hide ExactFields;
    hide CanonFields;
  }

  // ---- the exact condition ----

  lemma {:induction false} PartsPrinted(items: seq<Value>, i: nat)
    requires PrintItems(items).Ok? && i < |items|
    ensures Print(items[i]).Ok?
    decreases |items|
  {
    hide Print;
    if i > 0 {
      PartsPrinted(items[1..], i - 1);
    }
  }

  lemma {:induction false} FieldsPrinted(fields: seq<Field>, i: nat)
    requires PrintFields(fields).Ok? && i < |fields| && !fields[i].value.Undefined?
    ensures Print(fields[i].value).Ok?
    decreases |fields|
  {
    hide Print;
    if i > 0 {
      FieldsPrinted(fields[1..], i - 1);
    }
  }

  /** In a value that is not clean some part does not come back. */
  lemma {:induction false} FindLost(v: Value, finite: Text -> bool) returns (w: Value)
    requires WellFormed(v, finite) && Print(v).Ok? && !Clean(v)
    ensures Within(w, v) && !ComesBack(w, finite)
    decreases v
  {
    hide ComesBack;
    if v.Arr? {
      var i :| 0 <= i < |v.items| && !Clean(v.items[i]);
      PartsPrinted(v.items, i);
      w := FindLost(v.items[i], finite);
    } else if Marked(v.fields) {
      w := v;
      MarkerLost(v.fields, finite);
    } else if i :| 0 <= i < |v.fields| && !v.fields[i].value.Undefined? && !Clean(v.fields[i].value) {
      FieldsPrinted(v.fields, i);
      w := FindLost(v.fields[i].value, finite);
    } else {
      w := v;
      FieldsPrintable(v.fields, finite);
      ProtoLost(v.fields, finite);
    }
  }

  lemma {:induction false} FieldsPrintable(fields: seq<Field>, finite: Text -> bool)
    requires forall i :: 0 <= i < |fields| ==> WellFormed(fields[i].value, finite)
    requires forall i :: 0 <= i < |fields| && !fields[i].value.Undefined? ==> Clean(fields[i].value)
    ensures forall i :: 0 <= i < |fields| ==> Printable(fields[i].value, finite)
  {
    forall i | 0 <= i < |fields|
      ensures Printable(fields[i].value, finite)
    {
      if !fields[i].value.Undefined? {
        CleanPrintable(fields[i].value, finite);
      }
    }
  }

  lemma {:induction false} CleanWithin(w: Value, v: Value, finite: Text -> bool)
    requires WellFormed(v, finite) && Print(v).Ok? && Clean(v) && Within(w, v)
    ensures WellFormed(w, finite) && Print(w).Ok? && Clean(w)
    decreases v
  {
    if w != v {
      if v.Arr? {
        var i :| 0 <= i < |v.items| && Within(w, v.items[i]);
        PartsPrinted(v.items, i);
        CleanWithin(w, v.items[i], finite);
      } else {
        var i :| 0 <= i < |v.fields| && !v.fields[i].value.Undefined? && Within(w, v.fields[i].value);
        FieldsPrinted(v.fields, i);
        CleanWithin(w, v.fields[i].value, finite);
      }
    }
  }

  /** A printable value and everything inside it come back exactly, if and only if no object inside passes for a
      marker and none has a field named __proto__. */
  lemma ComesBackIff(v: Value, finite: Text -> bool)
    requires WellFormed(v, finite) && Print(v).Ok?
    ensures (forall w :: Within(w, v) ==> ComesBack(w, finite)) <==> Clean(v)
  {
    if Clean(v) {
      forall w | Within(w, v)
        ensures ComesBack(w, finite)
      {
        CleanWithin(w, v, finite);
        CleanPrintable(w, finite);
        ParserUndoesPrinter(w, finite);
      }
    } else {
      var w := FindLost(v, finite);
    }
  }

  /** The plain object {"__tdInt64": true, "value": text}. */
  function MarkerFields(text: Text): seq<Field> {
    [Field(MARK, Bool(true)), Field(VALUE, Str(text))]
  }

  lemma MarkerPrints(text: Text)
    ensures Marked(MarkerFields(text)) && Print(Obj(MarkerFields(text))) == Ok(text)
  {
    var fields := MarkerFields(text);
    assert fields[0] == Field(MARK, Bool(true));
    assert |MARK| != |VALUE|;
    assert fields[1..] == [Field(VALUE, Str(text))] && fields[1..][1..] == [];
    hide PrintFields;
    assert ValueOf(fields, Undefined) == ValueOf(fields[1..], Undefined);
    assert ValueOf(fields[1..], Undefined) == ValueOf(fields[1..][1..], Str(text));
  }

  lemma MarkerWellFormed(text: Text, finite: Text -> bool)
    ensures WellFormed(Obj(MarkerFields(text)), finite)
  {
  }

  /** With the text "x" it prints the bare letter x, which does not parse. */
  lemma MarkerPrintsRaw(text: Text, finite: Text -> bool)
    requires text == [120]
    ensures WellFormed(Obj(MarkerFields(text)), finite)
    ensures Print(Obj(MarkerFields(text))) == Ok(text) && Parse(text, finite) == None
  {
    hide *;
    MarkerWellFormed(text, finite);
    MarkerPrints(text);
    LoneLetter(text, finite);
  }

  lemma LoneLetter(text: Text, finite: Text -> bool)
    requires text == [120]
    ensures Parse(text, finite) == None
  {
    hide ParseValue;
    ValueBy(text, finite);
    assert SkipSpace(text) == text;
    assert NumberLength(text) == 0;
  }
}
