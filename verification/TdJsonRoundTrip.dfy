/** The parser undoes the printer: parsing a printed value, whatever legal text follows it, consumes exactly the
    printed text and gives the value with its integers as canonical strings. */
module TdJsonRoundTrip {
  import opened Results
  import opened TdJson

  // ---- what comes back ----

  /** The parsed form of a value: absent fields dropped, later fields over earlier ones of the same key, and
      fields named __proto__ lost. */
  function Canon(v: Value): Parsed
    decreases v, 0
  {
    match v
    case Null => PNull
    case Undefined => PNull
    case Bool(b) => PBool(b)
    case Num(number) =>
      (match number
       case Integer(n) => PString(IntegerToken(n))
       case Fraction(token) => PNumber(token)
       case NonFinite => PNull)
    case Str(text) => PString(text)
    case Int64(token) => PString(token)
    case Arr(items) => PArray(CanonItems(items))
    case Obj(fields) => PObject(CanonFields(map[], fields))
  }

  function CanonItems(items: seq<Value>): (ps: seq<Parsed>)
    ensures |ps| == |items|
    decreases items, 0
  {
    if items == [] then [] else [Canon(items[0])] + CanonItems(items[1..])
  }

  function CanonFields(before: map<Text, Parsed>, fields: seq<Field>): map<Text, Parsed>
    decreases fields, 0
  {
    if fields == [] then before
    else if fields[0].value.Undefined? then CanonFields(before, fields[1..])
    else CanonFields(Assign(before, fields[0].key, Canon(fields[0].value)), fields[1..])
  }

  /** Marker objects hold canonical integers, and fractions print as tokens with a point or an exponent. */
  predicate WellFormed(v: Value, finite: Text -> bool)
    decreases v, 0
  {
    match v
    case Num(number) => number.Fraction? ==> IsToken(number.token) && !IsInteger(number.token) && finite(number.token)
    case Int64(token) => IsToken(token) && IsInteger(token)
    case Arr(items) => forall i :: 0 <= i < |items| ==> WellFormed(items[i], finite)
    case Obj(fields) => forall i :: 0 <= i < |fields| ==> WellFormed(fields[i].value, finite)
    case _ => true
  }

  /** A well-formed value in which no object passes for a marker. */
  predicate Printable(v: Value, finite: Text -> bool)
    decreases v, 0
  {
    match v
    case Num(number) => number.Fraction? ==> IsToken(number.token) && !IsInteger(number.token) && finite(number.token)
    case Int64(token) => IsToken(token) && IsInteger(token)
    case Arr(items) => forall i :: 0 <= i < |items| ==> Printable(items[i], finite)
    case Obj(fields) => !Marked(fields) && forall i :: 0 <= i < |fields| ==> Printable(fields[i].value, finite)
    case _ => true
  }

  /** The text may follow a number: it does not continue one. */
  predicate Follows(rest: Text) {
    rest == [] || (!IsDigit(rest[0]) && !NumberLetter(rest[0]))
  }

  // ---- numbers ----

  lemma {:induction false} DigitsAppend(t: Text, rest: Text)
    requires Follows(rest)
    ensures Digits(t + rest) == Digits(t)
    decreases |t|
  {
    if t == [] {
      assert t + rest == rest;
    } else {
      DigitsAppend(t[1..], rest);
      assert (t + rest)[1..] == t[1..] + rest;
    }
  }

  lemma IntegerPartAppend(t: Text, rest: Text)
    requires Follows(rest) && IntegerPart(t) > 0
    ensures IntegerPart(t + rest) == IntegerPart(t)
  {
    var sign := if |t| > 0 && t[0] == MINUS then 1 else 0;
    assert (t + rest)[sign..] == t[sign..] + rest;
    DigitsAppend(t[sign..], rest);
  }

  lemma FractionPartAppend(t: Text, rest: Text)
    requires Follows(rest)
    ensures FractionPart(t + rest) == FractionPart(t)
  {
    if t == [] {
      assert t + rest == rest;
    } else {
      assert (t + rest)[1..] == t[1..] + rest;
      DigitsAppend(t[1..], rest);
    }
  }

  lemma ExponentPartAppend(t: Text, rest: Text)
    requires Follows(rest) && ExponentPart(t) == |t|
    ensures ExponentPart(t + rest) == |t|
  {
    if t == [] {
      assert t + rest == rest;
    } else {
      var start := if |t| > 1 && (t[1] == 43 || t[1] == MINUS) then 2 else 1;
      assert Digits(t[start..]) > 0;
      assert (t + rest)[start..] == t[start..] + rest;
      DigitsAppend(t[start..], rest);
    }
  }

  /** A token followed by something that does not continue it is matched whole. */
  lemma TokenMatched(t: Text, rest: Text)
    requires IsToken(t) && Follows(rest)
    ensures NumberLength(t + rest) == |t|
  {
    hide Digits;
    hide IntegerPart;
    hide FractionPart;
    hide ExponentPart;
    var a := IntegerPart(t);
    IntegerPartAppend(t, rest);
    assert (t + rest)[a..] == t[a..] + rest;
    FractionPartAppend(t[a..], rest);
    var b := a + FractionPart(t[a..]);
    assert (t + rest)[b..] == t[b..] + rest;
    ExponentPartAppend(t[b..], rest);
  }

  lemma {:induction false} AllDigits(t: Text)
    requires forall k :: 0 <= k < |t| ==> IsDigit(t[k])
    ensures Digits(t) == |t|
    decreases |t|
  {
    if t != [] { AllDigits(t[1..]); }
  }

  lemma IntegerTokenIsToken(n: int)
    ensures IsToken(IntegerToken(n)) && IsInteger(IntegerToken(n))
  {
    var t := IntegerToken(n);
    var sign := if n < 0 then 1 else 0;
    assert t[sign..] == Decimal(if n < 0 then -n else n);
    AllDigits(t[sign..]);
    assert t[|t|..] == [];
  }

  lemma TokenBegins(t: Text)
    requires IsToken(t)
    ensures t[0] == MINUS || IsDigit(t[0])
  {
  }

  lemma NoSpace(t: Text)
    requires t == [] || !IsSpace(t[0])
    ensures SkipSpace(t) == t
  {
  }

  lemma NoWord(t: Text)
    requires t != [] && t[0] != 116 && t[0] != 102 && t[0] != 110
    ensures !Begins(t, TRUE) && !Begins(t, FALSE) && !Begins(t, NULL)
  {
    assert TRUE[0] == 116 && FALSE[0] == 102 && NULL[0] == 110;
    assert |t| >= 4 ==> t[..4][0] == t[0];
    assert |t| >= 5 ==> t[..5][0] == t[0];
  }

  lemma NumberDispatch(t: Text, finite: Text -> bool)
    requires t != [] && (t[0] == MINUS || IsDigit(t[0]))
    ensures ParseValue(t, finite) == ParseNumber(t, finite)
  {
    NoSpace(t);
    NoWord(t);
    assert t[0] != 123 && t[0] != 91 && t[0] != QUOTE;
    hide IsDigit;
    hide IsSpace;
    hide SkipSpace;
    hide Begins;
    hide ParseNumber;
    hide ParseItems;
    hide ParseFields;
    hide ParseString;
  }

  lemma NumberParsed(t: Text, rest: Text, finite: Text -> bool)
    requires IsToken(t) && Follows(rest) && (IsInteger(t) || finite(t))
    ensures ParseValue(t + rest, finite) == Done(if IsInteger(t) then PString(t) else PNumber(t), rest)
  {
    TokenBegins(t);
    TokenMatched(t, rest);
    hide NumberLength;
    hide ParseValue;
    var text := t + rest;
    assert text[0] == t[0] && text[..|t|] == t && text[|t|..] == rest;
    NumberDispatch(text, finite);
  }

  // ---- strings ----

  lemma {:induction false} ScanPlain(chunk: Text, t: Text)
    requires forall k :: 0 <= k < |chunk| ==> chunk[k] != QUOTE && chunk[k] != BACKSLASH
    requires Scan(t, false).Some?
    ensures Scan(chunk + t, false) == Some(|chunk| + Scan(t, false).value)
    decreases |chunk|
  {
    if chunk == [] {
      assert chunk + t == t;
    } else {
      ScanPlain(chunk[1..], t);
      assert (chunk + t)[1..] == chunk[1..] + t;
    }
  }

  lemma EscapeTail(u: Code)
    ensures var chunk := EscapeOne(u);
            chunk[0] == BACKSLASH ==> |chunk| >= 2 && forall k :: 2 <= k < |chunk| ==> chunk[k] != QUOTE && chunk[k] != BACKSLASH
  {
  }

  /** A backslash takes the next unit with it. */
  lemma ScanBackslash(chunk: Text, t: Text)
    requires |chunk| >= 2 && chunk[0] == BACKSLASH && Scan(t, false).Some?
    requires forall k :: 2 <= k < |chunk| ==> chunk[k] != QUOTE && chunk[k] != BACKSLASH
    ensures Scan(chunk + t, false) == Some(|chunk| + Scan(t, false).value)
  {
    var tail := chunk[2..];
    assert forall k :: 0 <= k < |tail| ==> tail[k] == chunk[k + 2];
    hide *;
    ScanPlain(tail, t);
    ScanTwo(chunk[1], tail + t);
    SplitTwo(chunk, t);
  }

  lemma SplitTwo(chunk: Text, t: Text)
    requires |chunk| >= 2 && chunk[0] == BACKSLASH
    ensures chunk + t == [BACKSLASH, chunk[1]] + (chunk[2..] + t)
  {
  }

  lemma ScanTwo(u: Code, t: Text)
    requires Scan(t, false).Some?
    ensures Scan([BACKSLASH, u] + t, false) == Some(2 + Scan(t, false).value)
  {
    var text := [BACKSLASH, u] + t;
    assert text[1..] == [u] + t && ([u] + t)[1..] == t;
    assert Scan([u] + t, true) == Some(1 + Scan(t, false).value);
  }

  lemma ScanOne(u: Code, t: Text)
    requires Scan(t, false).Some?
    ensures Scan(EscapeOne(u) + t, false) == Some(|EscapeOne(u)| + Scan(t, false).value)
  {
    var chunk := EscapeOne(u);
    EscapeTail(u);
    if chunk[0] == BACKSLASH {
      hide EscapeOne;
      ScanBackslash(chunk, t);
    } else {
      ScanPlain(chunk, t);
    }
  }

  lemma Regroup4(a: Text, b: Text, c: Text, d: Text)
    ensures a + b + c + d == a + (b + c + d)
  {
  }

  lemma {:induction false} ScanEscaped(s: Text, rest: Text)
    ensures Scan(Escape(s) + [QUOTE] + rest, false) == Some(|Escape(s)| + 1)
    decreases |s|
  {
    hide EscapeOne;
    if s == [] {
      assert Escape(s) + [QUOTE] + rest == [QUOTE] + rest;
    } else if |s| >= 2 && IsHigh(s[0]) && IsLow(s[1]) {
      ScanEscaped(s[2..], rest);
      ScanPlain(s[..2], Escape(s[2..]) + [QUOTE] + rest);
      Regroup4(s[..2], Escape(s[2..]), [QUOTE], rest);
    } else {
      ScanEscaped(s[1..], rest);
      ScanOne(s[0], Escape(s[1..]) + [QUOTE] + rest);
      Regroup4(EscapeOne(s[0]), Escape(s[1..]), [QUOTE], rest);
    }
  }

  lemma HexRead(u: Code)
    ensures Unhex(Hex(u)[2..6]) == Some(u)
  {
    var t := Hex(u)[2..6];
    var a := u / 16;
    var b := a / 16;
    assert u / 256 == b && u / 4096 == b / 16;
    DigitRead(u / 4096);
    DigitRead(u / 256 % 16);
    DigitRead(u / 16 % 16);
    DigitRead(u % 16);
  }

  lemma DigitRead(d: nat)
    requires d < 16
    ensures FromHex(HexDigit(d)) == Some(d)
  {
  }

  lemma UnescapeOne(u: Code, t: Text)
    requires Unescape(t).Some?
    ensures Unescape(EscapeOne(u) + t) == Some([u] + Unescape(t).value)
  {
    var chunk := EscapeOne(u);
    var text := chunk + t;
    assert text[|chunk|..] == t;
    if |chunk| == 6 {
      HexRead(u);
      hide Unhex;
      assert chunk == Hex(u) && text[2..6] == Hex(u)[2..6] && text[1] == 117;
    } else if |chunk| == 2 {
      assert text[1] == chunk[1];
    } else {
      assert text[0] == u;
    }
  }

  lemma UnescapePlain(u: Code, t: Text)
    requires u >= 0xD800 && Unescape(t).Some?
    ensures Unescape([u] + t) == Some([u] + Unescape(t).value)
  {
    assert ([u] + t)[1..] == t;
  }

  lemma {:induction false} UnescapeEscaped(s: Text)
    ensures Unescape(Escape(s)) == Some(s)
    decreases |s|
  {
    hide EscapeOne;
    if s == [] {
    } else if |s| >= 2 && IsHigh(s[0]) && IsLow(s[1]) {
      UnescapeEscaped(s[2..]);
      UnescapePlain(s[1], Escape(s[2..]));
      UnescapePlain(s[0], [s[1]] + Escape(s[2..]));
      assert s[..2] + Escape(s[2..]) == [s[0]] + ([s[1]] + Escape(s[2..]));
      assert s == [s[0]] + ([s[1]] + s[2..]);
    } else {
      UnescapeEscaped(s[1..]);
      UnescapeOne(s[0], Escape(s[1..]));
      assert s == [s[0]] + s[1..];
    }
  }

  lemma StringParsed(s: Text, rest: Text)
    ensures Quote(s) + rest != [] && (Quote(s) + rest)[0] == QUOTE
    ensures ParseString(Quote(s) + rest) == Done(s, rest)
  {
    hide Unescape;
    hide Escape;
    ScanEscaped(s, rest);
    UnescapeEscaped(s);
    var t := Quote(s) + rest;
    assert t[1..] == Escape(s) + [QUOTE] + rest;
    assert t[1..|Escape(s)| + 1] == Escape(s) && t[|Escape(s)| + 2..] == rest;
  }

  // ---- values ----

  lemma WordDispatch(word: Text, rest: Text, finite: Text -> bool)
    requires word == TRUE || word == FALSE || word == NULL
    ensures ParseValue(word + rest, finite) ==
      Done(if word == TRUE then PBool(true) else if word == FALSE then PBool(false) else PNull, rest)
  {
    var text := word + rest;
    NoSpace(text);
    assert text[..|word|] == word && text[|word|..] == rest && text[0] == word[0];
    assert |text| >= 4 ==> text[..4][0] == word[0];
    assert |text| >= 5 ==> text[..5][0] == word[0];
    hide SkipSpace;
    hide IsSpace;
    hide ParseNumber;
    hide ParseItems;
    hide ParseFields;
    hide ParseString;
  }

  lemma QuotedParsed(s: Text, rest: Text, finite: Text -> bool)
    ensures ParseValue(Quote(s) + rest, finite) == Done(PString(s), rest)
  {
    StringParsed(s, rest);
    hide Quote;
    hide ParseString;
    hide ParseNumber;
    hide ParseItems;
    hide ParseFields;
    NoSpace(Quote(s) + rest);
    hide SkipSpace;
  }

  /** Every printed value begins with something that is neither space nor a closing bracket. */
  lemma PrintBegins(v: Value, finite: Text -> bool)
    requires Printable(v, finite) && Print(v).Ok?
    ensures Print(v).value != [] && !IsSpace(Print(v).value[0]) && Print(v).value[0] != 93 && Print(v).value[0] != 125
  {
    match v
    case Num(number) =>
      if number.Integer? { IntegerTokenIsToken(number.n); TokenBegins(IntegerToken(number.n)); } else { TokenBegins(number.token); }
    case Int64(token) => TokenBegins(token);
    case _ =>
  }

  predicate Closes(rest: Text) {
    rest != [] && (rest[0] == 93 || rest[0] == 125 || rest[0] == COMMA)
  }

  /** Parsing the printed form of a value, before any text that does not continue a number, gives the value and
      leaves exactly that text. */
  lemma {:induction false} ValueParsed(v: Value, rest: Text, finite: Text -> bool)
    requires Printable(v, finite) && Print(v).Ok? && Follows(rest)
    ensures ParseValue(Print(v).value + rest, finite) == Done(Canon(v), rest)
    decreases v, 0
  {
    hide ParseValue;
    match v
    case Null => WordDispatch(NULL, rest, finite);
    case Bool(b) => WordDispatch(if b then TRUE else FALSE, rest, finite);
    case Num(number) =>
      if number.Integer? { IntegerTokenIsToken(number.n); NumberParsed(IntegerToken(number.n), rest, finite); }
      else { NumberParsed(number.token, rest, finite); }
    case Str(text) => QuotedParsed(text, rest, finite);
    case Int64(token) => NumberParsed(token, rest, finite);
    case Arr(items) => ArrayParsed(items, rest, finite);
    case Obj(fields) => ObjectParsed(fields, rest, finite);
  }

  lemma {:induction false} ArrayParsed(items: seq<Value>, rest: Text, finite: Text -> bool)
    requires (forall i :: 0 <= i < |items| ==> Printable(items[i], finite)) && PrintItems(items).Ok?
    ensures ParseValue([91] + Joined(PrintItems(items).value) + [93] + rest, finite) == Done(PArray(CanonItems(items)), rest)
    decreases items, 2
  {
    var inner := Joined(PrintItems(items).value) + [93] + rest;
    var text := [91] + Joined(PrintItems(items).value) + [93] + rest;
    assert text[0] == 91 && text[1..] == inner;
    if items == [] {
      assert inner[0] == 93 && inner[1..] == rest;
    } else {
      ItemsParsed(items, [], rest, finite);
      ItemsBegin(items, finite);
      assert [] + CanonItems(items) == CanonItems(items);
    }
    ArrayDispatch(text, inner, finite);
  }

  lemma ArrayDispatch(text: Text, inner: Text, finite: Text -> bool)
    requires text != [] && text[0] == 91 && text[1..] == inner && inner != [] && !IsSpace(inner[0])
    ensures ParseValue(text, finite) == if inner[0] == 93 then Done(PArray([]), inner[1..]) else ParseItems(inner, [], finite)
  {
    NoSpace(text);
    NoSpace(inner);
    hide SkipSpace;
    hide ParseItems;
    hide ParseFields;
    hide ParseString;
    hide ParseNumber;
  }

  lemma ObjectDispatch(text: Text, inner: Text, finite: Text -> bool)
    requires text != [] && text[0] == 123 && text[1..] == inner && inner != [] && !IsSpace(inner[0])
    ensures ParseValue(text, finite) == if inner[0] == 125 then Done(PObject(map[]), inner[1..]) else ParseFields(inner, map[], finite)
  {
    NoSpace(text);
    NoSpace(inner);
    hide SkipSpace;
    hide ParseItems;
    hide ParseFields;
    hide ParseString;
    hide ParseNumber;
  }

  lemma ItemsBegin(items: seq<Value>, finite: Text -> bool)
    requires items != [] && Printable(items[0], finite) && PrintItems(items).Ok?
    ensures var t := Joined(PrintItems(items).value); t != [] && !IsSpace(t[0]) && t[0] != 93
  {
    PrintBegins(items[0], finite);
  }

  lemma NoSpaceAtClose(after: Text)
    requires Closes(after)
    ensures SkipSpace(after) == after
  {
    NoSpace(after);
  }

  lemma ItemsStep(text: Text, before: seq<Parsed>, v: Parsed, after: Text, finite: Text -> bool)
    requires ParseValue(text, finite) == Done(v, after) && Closes(after) && after[0] != 125
    ensures ParseItems(text, before, finite) ==
      if after[0] == 93 then Done(PArray(before + [v]), after[1..]) else ParseItems(after[1..], before + [v], finite)
  {
    hide ParseValue;
    hide SkipSpace;
    NoSpaceAtClose(after);
  }

  /** The joined parts and a closing mark, seen from the first part. */
  lemma JoinedFirst(parts: seq<Text>, closing: Code, rest: Text)
    requires parts != []
    ensures |parts| == 1 ==> Joined(parts) + [closing] + rest == parts[0] + ([closing] + rest)
    ensures |parts| > 1 ==> Joined(parts) + [closing] + rest == parts[0] + ([COMMA] + (Joined(parts[1..]) + [closing] + rest))
  {
    if |parts| == 1 {
      Regroup3(parts[0], [closing], rest);
    } else {
      var tail := Joined(parts[1..]);
      assert Joined(parts) == parts[0] + [COMMA] + tail;
      Regroup3(parts[0], [COMMA], tail + [closing] + rest);
      Regroup3(parts[0] + [COMMA], tail, [closing] + rest);
      Regroup3(parts[0] + [COMMA] + tail, [closing], rest);
      Regroup3(tail, [closing], rest);
    }
  }

  lemma Regroup3(a: Text, b: Text, c: Text)
    ensures a + b + c == a + (b + c)
  {
  }

  lemma PartsFirst(items: seq<Value>)
    requires items != [] && PrintItems(items).Ok?
    ensures Print(items[0]).Ok? && PrintItems(items[1..]).Ok?
    ensures PrintItems(items).value == [Print(items[0]).value] + PrintItems(items[1..]).value
    ensures PrintItems(items).value[1..] == PrintItems(items[1..]).value
    ensures |PrintItems(items).value| == 1 <==> |items| == 1
    ensures CanonItems(items) == [Canon(items[0])] + CanonItems(items[1..])
  {
    hide Print;
    hide Canon;
    if |items| > 1 {
      assert PrintItems(items[1..]).value != [];
    }
  }

  lemma {:induction false} ItemsParsed(items: seq<Value>, before: seq<Parsed>, rest: Text, finite: Text -> bool)
    requires items != [] && (forall i :: 0 <= i < |items| ==> Printable(items[i], finite)) && PrintItems(items).Ok?
    ensures ParseItems(Joined(PrintItems(items).value) + [93] + rest, before, finite) == Done(PArray(before + CanonItems(items)), rest)
    decreases items, 1
  {
    hide ParseValue;
    hide ParseItems;
    hide PrintItems;
    hide CanonItems;
    hide Print;
    hide Printable;
    hide Joined;
    PartsFirst(items);
    var parts := PrintItems(items).value;
    JoinedFirst(parts, 93, rest);
    var text, v := Joined(parts) + [93] + rest, Canon(items[0]);
    if |items| == 1 {
      var after := [93] + rest;
      assert after[1..] == rest;
      ValueParsed(items[0], after, finite);
      ItemsStep(text, before, v, after, finite);
      CanonItemsEmpty();
      assert before + [v] == before + CanonItems(items);
    } else {
      var later := Joined(parts[1..]) + [93] + rest;
      var after := [COMMA] + later;
      assert after[1..] == later;
      ValueParsed(items[0], after, finite);
      ItemsStep(text, before, v, after, finite);
      ItemsParsed(items[1..], before + [v], rest, finite);
      assert before + [v] + CanonItems(items[1..]) == before + CanonItems(items);
    }
  }

  lemma CanonItemsEmpty()
    ensures CanonItems([]) == []
  {
  }

  // ---- fields ----

  /** The first field that is printed. */
  function Present(fields: seq<Field>): seq<Field> {
    if fields == [] then [] else if fields[0].value.Undefined? then Present(fields[1..]) else fields
  }

  lemma {:induction false} PresentSame(fields: seq<Field>, before: map<Text, Parsed>)
    ensures PrintFields(fields) == PrintFields(Present(fields))
    ensures CanonFields(before, fields) == CanonFields(before, Present(fields))
    ensures Present(fields) != [] ==> !Present(fields)[0].value.Undefined?
    ensures |Present(fields)| <= |fields| && Present(fields) == fields[|fields| - |Present(fields)|..]
    decreases |fields|
  {
    if fields != [] && fields[0].value.Undefined? { PresentSame(fields[1..], before); }
  }

  lemma KeyParsed(key: Text, colon: Text, text: Text, finite: Text -> bool)
    requires text == Quote(key) + [COLON] + colon
    ensures text != [] && text[0] == QUOTE && SkipSpace(text) == text
    ensures ParseString(text) == Done(key, [COLON] + colon) && SkipSpace([COLON] + colon) == [COLON] + colon
    ensures ([COLON] + colon)[1..] == colon
  {
    hide ParseString;
    StringParsed(key, [COLON] + colon);
    assert text == Quote(key) + ([COLON] + colon);
    hide Quote;
    NoSpace(text);
    NoSpace([COLON] + colon);
  }

  lemma FieldsStep(key: Text, colon: Text, text: Text, before: map<Text, Parsed>, v: Parsed, after: Text, finite: Text -> bool)
    requires text == Quote(key) + [COLON] + colon
    requires ParseValue(colon, finite) == Done(v, after) && Closes(after) && after[0] != 93
    ensures ParseFields(text, before, finite) ==
      if after[0] == 125 then Done(PObject(Assign(before, key, v)), after[1..]) else ParseFields(after[1..], Assign(before, key, v), finite)
  {
    KeyParsed(key, colon, text, finite);
    NoSpace(after);
    hide ParseValue;
    hide ParseString;
    hide Assign;
    hide Quote;
    hide SkipSpace;
    hide IsSpace;
  }

  lemma FieldsFirst(fields: seq<Field>)
    requires fields != [] && !fields[0].value.Undefined? && PrintFields(fields).Ok?
    ensures Print(fields[0].value).Ok? && PrintFields(fields[1..]).Ok?
    ensures PrintFields(fields).value == [Quote(fields[0].key) + [COLON] + Print(fields[0].value).value] + PrintFields(fields[1..]).value
    ensures PrintFields(fields).value[1..] == PrintFields(fields[1..]).value
  {
    hide Print;
    hide Quote;
  }

  lemma Regroup(quote: Text, printed: Text, after: Text)
    ensures quote + [COLON] + printed + after == quote + [COLON] + (printed + after)
  {
  }

  lemma {:induction false} FieldsParsed(fields: seq<Field>, before: map<Text, Parsed>, rest: Text, finite: Text -> bool)
    requires fields != [] && !fields[0].value.Undefined?
    requires (forall i :: 0 <= i < |fields| ==> Printable(fields[i].value, finite)) && PrintFields(fields).Ok?
    ensures ParseFields(Joined(PrintFields(fields).value) + [125] + rest, before, finite) == Done(PObject(CanonFields(before, fields)), rest)
    decreases fields, 1
  {
    var key, v := fields[0].key, fields[0].value;
    assert CanonFields(before, fields) == CanonFields(Assign(before, key, Canon(v)), fields[1..]);
    hide ParseValue;
    hide ParseFields;
    hide Quote;
    hide Assign;
    hide Print;
    hide Joined;
    hide Printable;
    FieldsFirst(fields);
    hide PrintFields;
    var later := Present(fields[1..]);
    PresentSame(fields[1..], Assign(before, key, Canon(v)));
    var parts := PrintFields(fields).value;
    JoinedFirst(parts, 125, rest);
    if later == [] {
      NoFields(Assign(before, key, Canon(v)));
      var after := [125] + rest;
      assert after[1..] == rest;
      Regroup(Quote(key), Print(v).value, after);
      ValueParsed(v, after, finite);
      FieldsStep(key, Print(v).value + after, Joined(parts) + [125] + rest, before, Canon(v), after, finite);
    } else {
      var tail := Joined(PrintFields(later).value) + [125] + rest;
      var after := [COMMA] + tail;
      FieldsNonEmpty(later);
      assert after[1..] == tail;
      Regroup(Quote(key), Print(v).value, after);
      ValueParsed(v, after, finite);
      FieldsStep(key, Print(v).value + after, Joined(parts) + [125] + rest, before, Canon(v), after, finite);
      FieldsParsed(later, Assign(before, key, Canon(v)), rest, finite);
    }
  }

  lemma NoFields(before: map<Text, Parsed>)
    ensures PrintFields([]) == Ok([]) && CanonFields(before, []) == before
  {
  }

  lemma FieldsNonEmpty(fields: seq<Field>)
    requires fields != [] && !fields[0].value.Undefined? && PrintFields(fields).Ok?
    ensures PrintFields(fields).value != []
    ensures Joined(PrintFields(fields).value) != [] && Joined(PrintFields(fields).value)[0] == QUOTE
  {
  }

  lemma {:induction false} ObjectParsed(fields: seq<Field>, rest: Text, finite: Text -> bool)
    requires (forall i :: 0 <= i < |fields| ==> Printable(fields[i].value, finite)) && PrintFields(fields).Ok?
    ensures ParseValue([123] + Joined(PrintFields(fields).value) + [125] + rest, finite) == Done(PObject(CanonFields(map[], fields)), rest)
    decreases fields, 2
  {
    hide ParseFields;
    hide ParseValue;
    hide Quote;
    PresentSame(fields, map[]);
    var shown := Present(fields);
    var inner := Joined(PrintFields(shown).value) + [125] + rest;
    var text := [123] + Joined(PrintFields(fields).value) + [125] + rest;
    assert text[0] == 123 && text[1..] == inner;
    if shown == [] {
      assert inner[0] == 125 && inner[1..] == rest;
    } else {
      FieldsParsed(shown, map[], rest, finite);
      FieldsNonEmpty(shown);
    }
    ObjectDispatch(text, inner, finite);
  }

  /** Parsing what was printed gives the value back, with its integers as canonical strings. */
  lemma ParserUndoesPrinter(v: Value, finite: Text -> bool)
    requires Printable(v, finite) && Print(v).Ok?
    ensures Parse(Print(v).value, finite) == Some(Canon(v))
  {
    hide ParseValue;
    ValueParsed(v, [], finite);
    assert Print(v).value + [] == Print(v).value;
  }

  /** Some field that is printed has this key. */
  predicate Shows(fields: seq<Field>, key: Text) {
    exists i :: 0 <= i < |fields| && fields[i].key == key && !fields[i].value.Undefined?
  }

  lemma {:induction false} KeysKept(before: map<Text, Parsed>, fields: seq<Field>, key: Text)
    ensures key in CanonFields(before, fields) <==> key in before || (key != PROTO && Shows(fields, key))
    decreases |fields|
  {
    if fields != [] {
      var first, rest := fields[0], fields[1..];
      assert Shows(fields, key) <==> (first.key == key && !first.value.Undefined?) || Shows(rest, key) by {
        assert forall i :: 0 <= i < |rest| ==> fields[i + 1] == rest[i];
        if Shows(fields, key) && !(first.key == key && !first.value.Undefined?) {
          var i :| 0 <= i < |fields| && fields[i].key == key && !fields[i].value.Undefined?;
          assert rest[i - 1] == fields[i];
        }
      }
      if first.value.Undefined? {
        KeysKept(before, rest, key);
      } else {
        KeysKept(Assign(before, first.key, Canon(first.value)), rest, key);
      }
    }
  }

  /** An object comes back with exactly the keys that were printed, if and only if none of them is __proto__. */
  lemma KeysSurvive(fields: seq<Field>, finite: Text -> bool)
    requires Printable(Obj(fields), finite) && Print(Obj(fields)).Ok?
    ensures Parse(Print(Obj(fields)).value, finite) == Some(PObject(CanonFields(map[], fields)))
    ensures (forall key :: key in CanonFields(map[], fields) <==> Shows(fields, key)) <==> !Shows(fields, PROTO)
  {
    ParserUndoesPrinter(Obj(fields), finite);
    hide Printable;
    hide Print;
    hide Parse;
    hide CanonFields;
    hide Shows;
    forall key ensures key in CanonFields(map[], fields) <==> key != PROTO && Shows(fields, key) {
      KeysKept(map[], fields, key);
    }
  }
}
