/** The recursive-descent parser of clients/core/src/telegram_tdlib.ts with its moving index, proved against the
    grammar: it reads what the grammar reads and leaves the index at the text that is left. */
module TdJsonParser {
  import opened Results
  import opened TdJson
  import opened TdJsonRoundTrip

  /** What the index and the result must be, given the grammar's reading of the text at the old index; a thrown
      error is None. */
  predicate Agrees<T(==)>(read: Read<T>, v: Option<T>, input: Text, index: nat) {
    match read
    case Done(value, rest) => v == Some(value) && index <= |input| && input[index..] == rest
    case Failed => v == None
  }

  lemma Shift(input: Text, index: nat, k: nat)
    requires index + k <= |input|
    ensures input[index..][k..] == input[index + k..]
    ensures index + k < |input| ==> input[index..][k] == input[index + k]
  {
  }

  // ---- one step of the grammar at a time ----

  function WordAt(t: Text, finite: Text -> bool): Read<Parsed> {
    if Begins(t, TRUE) then Done(PBool(true), t[4..])
    else if Begins(t, FALSE) then Done(PBool(false), t[5..])
    else if Begins(t, NULL) then Done(PNull, t[4..])
    else ParseNumber(t, finite)
  }

  function ArrayAt(t: Text, finite: Text -> bool): Read<Parsed>
    requires t != []
  {
    var inner := SkipSpace(t[1..]);
    if inner != [] && inner[0] == 93 then Done(PArray([]), inner[1..]) else ParseItems(inner, [], finite)
  }

  function ObjectAt(t: Text, finite: Text -> bool): Read<Parsed>
    requires t != []
  {
    var inner := SkipSpace(t[1..]);
    if inner != [] && inner[0] == 125 then Done(PObject(map[]), inner[1..]) else ParseFields(inner, map[], finite)
  }

  lemma ValueBy(text: Text, finite: Text -> bool)
    ensures var t := SkipSpace(text);
            ParseValue(text, finite) ==
              if t == [] then Failed
              else if t[0] == 123 then ObjectAt(t, finite)
              else if t[0] == 91 then ArrayAt(t, finite)
              else if t[0] == QUOTE then (var s := ParseString(t); if s.Failed? then Failed else Done(PString(s.value), s.rest))
              else WordAt(t, finite)
  {
    hide SkipSpace;
    hide ParseItems;
    hide ParseFields;
    hide ParseString;
    hide ParseNumber;
  }

  predicate Entered<T(==)>(e: Entry<T>, v: Option<T>, last: bool, input: Text, index: nat) {
    match e
    case Last(value, rest) => last && v == Some(value) && index <= |input| && input[index..] == rest
    case More(value, rest) => !last && v == Some(value) && index <= |input| && input[index..] == rest
    case Bad => v == None
  }

  /** An item or a field, and whether the closing mark followed it. */
  datatype Entry<T> = Last(value: T, rest: Text) | More(value: T, rest: Text) | Bad

  function Closed<T>(r: Read<T>, closing: Code): Entry<T> {
    if r.Failed? then Bad
    else
      var t := SkipSpace(r.rest);
      if t == [] then Bad
      else if t[0] == closing then Last(r.value, t[1..])
      else if t[0] == COMMA then More(r.value, t[1..])
      else Bad
  }

  function ItemAt(text: Text, finite: Text -> bool): (e: Entry<Parsed>)
    ensures e.More? ==> |e.rest| < |text|
  {
    Closed(ParseValue(text, finite), 93)
  }

  function ItemsFrom(e: Entry<Parsed>, before: seq<Parsed>, finite: Text -> bool): Read<Parsed> {
    match e
    case Last(v, rest) => Done(PArray(before + [v]), rest)
    case More(v, rest) => ParseItems(rest, before + [v], finite)
    case Bad => Failed
  }

  lemma ItemsBy(text: Text, before: seq<Parsed>, finite: Text -> bool)
    ensures ParseItems(text, before, finite) == ItemsFrom(ItemAt(text, finite), before, finite)
  {
    hide ParseValue;
    hide SkipSpace;
  }

  function ValueAfter(text: Text, finite: Text -> bool): (e: Entry<Parsed>)
    ensures e.More? ==> |e.rest| < |text|
  {
    Closed(ParseValue(text, finite), 125)
  }

  function KeyAt(text: Text): (r: Read<Text>)
    ensures r.Done? ==> |r.rest| < |text|
  {
    var t := SkipSpace(text);
    if t == [] || t[0] != QUOTE then Failed
    else
      var key := ParseString(t);
      if key.Failed? then Failed
      else
        var k := SkipSpace(key.rest);
        if k == [] || k[0] != COLON then Failed else Done(key.value, k[1..])
  }

  function FieldAt(text: Text, finite: Text -> bool): (e: Entry<(Text, Parsed)>)
    ensures e.More? ==> |e.rest| < |text|
  {
    var key := KeyAt(text);
    if key.Failed? then Bad
    else
      match ValueAfter(key.rest, finite)
      case Last(v, rest) => Last((key.value, v), rest)
      case More(v, rest) => More((key.value, v), rest)
      case Bad => Bad
  }

  function FieldsFrom(e: Entry<(Text, Parsed)>, before: map<Text, Parsed>, finite: Text -> bool): Read<Parsed> {
    match e
    case Last(f, rest) => Done(PObject(Assign(before, f.0, f.1)), rest)
    case More(f, rest) => ParseFields(rest, Assign(before, f.0, f.1), finite)
    case Bad => Failed
  }

  lemma FieldsBy(text: Text, before: map<Text, Parsed>, finite: Text -> bool)
    ensures ParseFields(text, before, finite) == FieldsFrom(FieldAt(text, finite), before, finite)
  {
    hide ParseValue;
    hide ParseString;
    hide SkipSpace;
    hide Assign;
  }

  // ---- the parser ----

  lemma Between(input: Text, start: nat, index: nat)
    requires start + 2 <= index <= |input|
    ensures input[start..][1..index - start - 1] == input[start + 1..index - 1]
    ensures input[start..][1 + (index - start - 1)..] == input[index..]
  {
  }

  class Parser {
    const input: Text
    const finite: Text -> bool
    var index: nat

    constructor (text: Text, isFinite: Text -> bool)
      ensures input == text && finite == isFinite && index == 0
    {
      input, finite, index := text, isFinite, 0;
    }

    method Space()
      requires index <= |input|
      modifies this
      ensures old(index) <= index <= |input| && input[index..] == SkipSpace(input[old(index)..])
    {
      while index < |input| && IsSpace(input[index])
        invariant old(index) <= index <= |input|
        invariant SkipSpace(input[index..]) == SkipSpace(input[old(index)..])
      {
        Shift(input, index, 1);
        index := index + 1;
      }
    }

    /** Moves the index past the closing quote. */
    method SkipLiteral() returns (closed: bool)
      requires index <= |input|
      modifies this
      ensures old(index) <= index <= |input|
      ensures Scan(input[old(index)..], false) == if closed then Some(index - old(index)) else None
    {
      ghost var start := index;
      var escaped := false;
      while index < |input|
        invariant start <= index <= |input|
        invariant Scan(input[start..], false) == (var n := Scan(input[index..], escaped); if n.None? then None else Some(n.value + index - start))
      {
        var c := input[index];
        Shift(input, index, 1);
        index := index + 1;
        if escaped {
          escaped := false;
        } else if c == BACKSLASH {
          escaped := true;
        } else if c == QUOTE {
          return true;
        }
      }
      return false;
    }

    method StringLiteral() returns (v: Option<Text>)
      requires index < |input|
      modifies this
      ensures Agrees(ParseString(input[old(index)..]), v, input, index)
    {
      hide Unescape;
      hide Scan;
      var start := index;
      index := index + 1;
      Shift(input, start, 1);
      var closed := SkipLiteral();
      if !closed {
        return None;
      }
      Between(input, start, index);
      return Unescape(input[start + 1..index - 1]);
    }

    method NumberToken() returns (v: Option<Parsed>)
      requires index <= |input|
      modifies this
      ensures Agrees(ParseNumber(input[old(index)..], finite), v, input, index)
    {
      hide NumberLength;
      var rest := input[index..];
      var n := NumberLength(rest);
      if n == 0 {
        return None;
      }
      var token := rest[..n];
      Shift(input, index, n);
      index := index + n;
      if IsInteger(token) {
        return Some(PString(token));
      }
      if !finite(token) {
        return None;
      }
      return Some(PNumber(token));
    }

    method WordOrNumber() returns (v: Option<Parsed>)
      requires index < |input|
      modifies this
      ensures Agrees(WordAt(input[old(index)..], finite), v, input, index)
    {
      hide ParseNumber;
      ghost var t := input[index..];
      var c := input[index];
      WordLetter(t);
      if c == 116 && Begins(input[index..], TRUE) {
        Shift(input, index, 4);
        index := index + 4;
        v := Some(PBool(true));
      } else if c == 102 && Begins(input[index..], FALSE) {
        Shift(input, index, 5);
        index := index + 5;
        v := Some(PBool(false));
      } else if c == 110 && Begins(input[index..], NULL) {
        Shift(input, index, 4);
        index := index + 4;
        v := Some(PNull);
      } else {
        v := NumberToken();
      }
    }

    method ReadValue() returns (v: Option<Parsed>)
      requires index <= |input|
      modifies this
      ensures Agrees(ParseValue(input[old(index)..], finite), v, input, index)
      decreases |input| - index, 1
    {
      ValueBy(input[index..], finite);
      hide ParseValue;
      hide ParseString;
      hide SkipSpace;
      hide WordAt;
      hide ArrayAt;
      hide ObjectAt;
      Space();
      if index == |input| {
        return None;
      }
      var c := input[index];
      if c == 123 {
        v := ReadObject();
      } else if c == 91 {
        v := ReadArray();
      } else if c == QUOTE {
        var s := StringLiteral();
        v := if s.None? then None else Some(PString(s.value));
      } else {
        v := WordOrNumber();
      }
    }

    /** One item and the mark after it. */
    method ReadItem() returns (v: Option<Parsed>, last: bool)
      requires index <= |input|
      modifies this
      ensures Entered(ItemAt(input[old(index)..], finite), v, last, input, index)
      ensures v.Some? ==> index > old(index)
      decreases |input| - index, 2
    {
      hide ParseValue;
      hide SkipSpace;
      last := false;
      v := ReadValue();
      if v.None? {
        return;
      }
      Space();
      if index == |input| {
        v := None;
        return;
      }
      var c := input[index];
      Shift(input, index, 1);
      index := index + 1;
      last := c == 93;
      if c != 93 && c != COMMA {
        v := None;
      }
    }

    /** Past the opening bracket and the space after it, and past the closing one if nothing is between. */
    method Enter(closing: Code) returns (empty: bool)
      requires index < |input|
      modifies this
      ensures old(index) < index <= |input|
      ensures var inner := SkipSpace(input[old(index)..][1..]);
              && (empty <==> inner != [] && inner[0] == closing)
              && input[index..] == if empty then inner[1..] else inner
    {
      hide SkipSpace;
      hide IsSpace;
      Shift(input, index, 1);
      index := index + 1;
      ghost var inner := SkipSpace(input[index..]);
      Space();
      assert input[index..] == inner;
      empty := index < |input| && input[index] == closing;
      if empty {
        Shift(input, index, 1);
        index := index + 1;
      }
    }

    method ReadArray() returns (v: Option<Parsed>)
      requires index < |input|
      modifies this
      ensures Agrees(ArrayAt(input[old(index)..], finite), v, input, index)
      decreases |input| - index, 0
    {
      hide ParseItems;
      hide SkipSpace;
      var empty := Enter(93);
      if empty {
        return Some(PArray([]));
      }
      v := ReadItems();
    }

    method ReadItems() returns (v: Option<Parsed>)
      requires index <= |input|
      modifies this
      ensures Agrees(ParseItems(input[old(index)..], [], finite), v, input, index)
      decreases |input| - index, 3
    {
      hide ParseItems;
      hide ItemAt;
      ghost var all := ParseItems(input[index..], [], finite);
      var out: seq<Parsed> := [];
      while true
        invariant old(index) <= index <= |input|
        invariant all == ParseItems(input[index..], out, finite)
        decreases |input| - index
      {
        ItemsBy(input[index..], out, finite);
        var item, last := ReadItem();
        if item.None? {
          return None;
        }
        out := out + [item.value];
        if last {
          return Some(PArray(out));
        }
      }
    }

    /** Past the space to a colon, and past it. */
    method Colon() returns (found: bool)
      requires index <= |input|
      modifies this
      ensures old(index) <= index <= |input|
      ensures var t := SkipSpace(input[old(index)..]);
              (found <==> t != [] && t[0] == COLON) && (found ==> input[index..] == t[1..])
    {
      hide SkipSpace;
      Space();
      found := index < |input| && input[index] == COLON;
      if found {
        Shift(input, index, 1);
        index := index + 1;
      }
    }

    /** A key and its colon. */
    method ReadKey() returns (key: Option<Text>)
      requires index <= |input|
      modifies this
      ensures Agrees(KeyAt(input[old(index)..]), key, input, index)
      ensures key.Some? ==> index > old(index)
    {
      hide ParseString;
      hide SkipSpace;
      Space();
      if index == |input| || input[index] != QUOTE {
        return None;
      }
      key := StringLiteral();
      if key.Some? {
        var found := Colon();
        key := if found then key else None;
      }
    }

    /** One key, its value and the mark after it. */
    method ReadField() returns (v: Option<(Text, Parsed)>, last: bool)
      requires index <= |input|
      modifies this
      ensures Entered(FieldAt(input[old(index)..], finite), v, last, input, index)
      ensures v.Some? ==> index > old(index)
      decreases |input| - index, 2
    {
      hide KeyAt;
      hide ValueAfter;
      var key := ReadKey();
      if key.None? {
        return None, false;
      }
      var item;
      item, last := ReadFieldValue();
      v := if item.None? then None else Some((key.value, item.value));
    }

    method ReadFieldValue() returns (v: Option<Parsed>, last: bool)
      requires index <= |input|
      modifies this
      ensures Entered(ValueAfter(input[old(index)..], finite), v, last, input, index)
      ensures v.Some? ==> index > old(index)
      decreases |input| - index, 2
    {
      hide ParseValue;
      hide SkipSpace;
      last := false;
      v := ReadValue();
      if v.None? {
        return;
      }
      Space();
      if index == |input| {
        v := None;
        return;
      }
      var c := input[index];
      Shift(input, index, 1);
      index := index + 1;
      last := c == 125;
      if c != 125 && c != COMMA {
        v := None;
      }
    }

    method ReadObject() returns (v: Option<Parsed>)
      requires index < |input|
      modifies this
      ensures Agrees(ObjectAt(input[old(index)..], finite), v, input, index)
      decreases |input| - index, 0
    {
      hide ParseFields;
      hide SkipSpace;
      var empty := Enter(125);
      if empty {
        return Some(PObject(map[]));
      }
      v := ReadFields();
    }

    method ReadFields() returns (v: Option<Parsed>)
      requires index <= |input|
      modifies this
      ensures Agrees(ParseFields(input[old(index)..], map[], finite), v, input, index)
      decreases |input| - index, 3
    {
      hide ParseFields;
      hide FieldAt;
      hide Assign;
      ghost var all := ParseFields(input[index..], map[], finite);
      var out: map<Text, Parsed> := map[];
      while true
        invariant old(index) <= index <= |input|
        invariant all == ParseFields(input[index..], out, finite)
        decreases |input| - index
      {
        FieldsBy(input[index..], out, finite);
        var field, last := ReadField();
        if field.None? {
          return None;
        }
        out := Assign(out, field.value.0, field.value.1);
        if last {
          return Some(PObject(out));
        }
      }
    }
  }

  lemma WordLetter(t: Text)
    requires t != []
    ensures Begins(t, TRUE) ==> t[0] == 116
    ensures Begins(t, FALSE) ==> t[0] == 102
    ensures Begins(t, NULL) ==> t[0] == 110
  {
    assert |t| >= 4 ==> t[..4][0] == t[0];
    assert |t| >= 5 ==> t[..5][0] == t[0];
    assert TRUE[0] == 116 && FALSE[0] == 102 && NULL[0] == 110;
  }

  method ParseTdJsonLossless(text: Text, finite: Text -> bool) returns (v: Option<Parsed>)
    ensures v == Parse(text, finite)
  {
    var parser := new Parser(text, finite);
    assert text[0..] == text;
    var value := parser.ReadValue();
    if value.None? {
      return None;
    }
    parser.Space();
    if parser.index != |text| {
      return None;
    }
    return value;
  }
}
