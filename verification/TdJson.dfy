/** The TDLib JSON of clients/core/src/telegram_tdlib.ts over UTF-16 code units: the printer, and the grammar
    of the parser as functions from a text to a value and the text that is left. */
module TdJson {
  import opened Results

  type Code = u: int | 0 <= u < 0x1_0000
  type Text = seq<Code>

  const QUOTE: Code := 34
  const COMMA: Code := 44
  const MINUS: Code := 45
  const COLON: Code := 58
  const BACKSLASH: Code := 92

  const NULL: Text := [110, 117, 108, 108]
  const TRUE: Text := [116, 114, 117, 101]
  const FALSE: Text := [102, 97, 108, 115, 101]

  // ---- values ----

  /** A JavaScript number is an integer, or a fraction or power that prints as the given token, or not finite. */
  datatype Number = Integer(n: int) | Fraction(token: Text) | NonFinite

  /** A printable value; Int64 is the marker object that tdInt64() makes, Undefined an absent field. */
  datatype Value =
    | Null
    | Undefined
    | Bool(b: bool)
    | Num(number: Number)
    | Str(text: Text)
    | Int64(token: Text)
    | Arr(items: seq<Value>)
    | Obj(fields: seq<Field>)

  datatype Field = Field(key: Text, value: Value)

  /** A parsed value; integers come back as strings. */
  datatype Parsed =
    | PNull
    | PBool(b: bool)
    | PNumber(token: Text)
    | PString(text: Text)
    | PArray(items: seq<Parsed>)
    | PObject(fields: map<Text, Parsed>)

  /** NotText stands for whatever text the language makes of a marker's value that is no string. */
  datatype PrintError = NotFinite | UnsafeInteger | Unsupported | NotText

  const MAX_SAFE: int := 0x1F_FFFF_FFFF_FFFF
  const PROTO: Text := [95, 95, 112, 114, 111, 116, 111, 95, 95]
  const MARK: Text := [95, 95, 116, 100, 73, 110, 116, 54, 52]
  const VALUE: Text := [118, 97, 108, 117, 101]

  // ---- strings ----

  predicate IsHigh(u: Code) { 0xD800 <= u < 0xDC00 }

  predicate IsLow(u: Code) { 0xDC00 <= u < 0xE000 }

  function HexDigit(d: nat): Code
    requires d < 16
  {
    if d < 10 then 48 + d else 87 + d
  }

  function Hex(u: Code): (t: Text)
    ensures |t| == 6
  {
    [BACKSLASH, 117, HexDigit(u / 4096), HexDigit(u / 256 % 16), HexDigit(u / 16 % 16), HexDigit(u % 16)]
  }

  function EscapeOne(u: Code): (t: Text)
    ensures |t| > 0
  {
    if u == QUOTE || u == BACKSLASH then [BACKSLASH, u]
    else if u == 8 then [BACKSLASH, 98]
    else if u == 9 then [BACKSLASH, 116]
    else if u == 10 then [BACKSLASH, 110]
    else if u == 12 then [BACKSLASH, 102]
    else if u == 13 then [BACKSLASH, 114]
    else if u < 32 || IsHigh(u) || IsLow(u) then Hex(u)
    else [u]
  }

  /** JSON.stringify of a string, without the quotes: pairs of surrogates as they are, lone ones escaped. */
  function Escape(s: Text): Text {
    if s == [] then []
    else if |s| >= 2 && IsHigh(s[0]) && IsLow(s[1]) then s[..2] + Escape(s[2..])
    else EscapeOne(s[0]) + Escape(s[1..])
  }

  function Quote(s: Text): Text {
    [QUOTE] + Escape(s) + [QUOTE]
  }

  function FromHex(u: Code): Option<nat> {
    if 48 <= u <= 57 then Some(u - 48) else if 97 <= u <= 102 then Some(u - 87) else if 65 <= u <= 70 then Some(u - 55) else None
  }

  function Unhex(t: Text): Option<Code>
    requires |t| == 4
  {
    var a, b, c, d := FromHex(t[0]), FromHex(t[1]), FromHex(t[2]), FromHex(t[3]);
    if a.Some? && b.Some? && c.Some? && d.Some? && a.value < 16 && b.value < 16 && c.value < 16 && d.value < 16
    then Some(a.value * 4096 + b.value * 256 + c.value * 16 + d.value) else None
  }

  /** The character that a one-letter escape stands for. */
  function Unletter(u: Code): Option<Code> {
    if u == QUOTE || u == BACKSLASH || u == 47 then Some(u)
    else if u == 98 then Some(8)
    else if u == 102 then Some(12)
    else if u == 110 then Some(10)
    else if u == 114 then Some(13)
    else if u == 116 then Some(9)
    else None
  }

  /** JSON.parse of what stands between the quotes. */
  function Unescape(t: Text): Option<Text>
    decreases |t|
  {
    if t == [] then Some([])
    else if t[0] == BACKSLASH then
      if |t| < 2 then None
      else if t[1] == 117 then
        if |t| < 6 || Unhex(t[2..6]).None? then None
        else
          var rest := Unescape(t[6..]);
          if rest.None? then None else Some([Unhex(t[2..6]).value] + rest.value)
      else if Unletter(t[1]).None? then None
      else
        var rest := Unescape(t[2..]);
        if rest.None? then None else Some([Unletter(t[1]).value] + rest.value)
    else if t[0] < 32 || t[0] == QUOTE then None
    else
      var rest := Unescape(t[1..]);
      if rest.None? then None else Some([t[0]] + rest.value)
  }

  // ---- numbers ----

  predicate IsDigit(u: Code) { 48 <= u <= 57 }

  function Decimal(n: nat): (t: Text)
    ensures |t| > 0 && forall k :: 0 <= k < |t| ==> IsDigit(t[k])
    ensures n > 0 ==> t[0] != 48
    ensures n == 0 ==> t == [48]
  {
    if n < 10 then [48 + n] else Decimal(n / 10) + [48 + n % 10]
  }

  function IntegerToken(n: int): Text {
    if n < 0 then [MINUS] + Decimal(-n) else Decimal(n)
  }

  /** How many digits the text begins with. */
  function Digits(t: Text): (n: nat)
    ensures n <= |t|
  {
    if t == [] || !IsDigit(t[0]) then 0 else 1 + Digits(t[1..])
  }

  /** The length of the sign and integer part at the start of the text, 0 if there is none. */
  function IntegerPart(t: Text): (n: nat)
    ensures n <= |t|
  {
    var sign := if |t| > 0 && t[0] == MINUS then 1 else 0;
    if |t| <= sign || !IsDigit(t[sign]) then 0
    else if t[sign] == 48 then sign + 1
    else sign + Digits(t[sign..])
  }

  function FractionPart(t: Text): (n: nat)
    ensures n <= |t|
  {
    if |t| > 0 && t[0] == 46 && Digits(t[1..]) > 0 then 1 + Digits(t[1..]) else 0
  }

  function ExponentPart(t: Text): (n: nat)
    ensures n <= |t|
  {
    if |t| == 0 || (t[0] != 101 && t[0] != 69) then 0
    else
      var signed := |t| > 1 && (t[1] == 43 || t[1] == MINUS);
      var start := if signed then 2 else 1;
      if Digits(t[start..]) > 0 then start + Digits(t[start..]) else 0
  }

  /** The length of the number token at the start of the text, 0 if there is none. */
  function NumberLength(t: Text): (n: nat)
    ensures n <= |t|
  {
    var a := IntegerPart(t);
    if a == 0 then 0
    else
      var b := a + FractionPart(t[a..]);
      b + ExponentPart(t[b..])
  }

  predicate NumberLetter(u: Code) {
    u == 46 || u == 101 || u == 69
  }

  predicate IsInteger(token: Text) {
    forall k :: 0 <= k < |token| ==> !NumberLetter(token[k])
  }

  predicate IsToken(token: Text) {
    |token| > 0 && NumberLength(token) == |token|
  }

  // ---- printing ----

  function Joined(parts: seq<Text>): Text {
    if parts == [] then [] else if |parts| == 1 then parts[0] else parts[0] + [COMMA] + Joined(parts[1..])
  }

  /** The printer takes any object whose field __tdInt64 is true for a marker. */
  predicate Marked(fields: seq<Field>) {
    exists i :: 0 <= i < |fields| && fields[i] == Field(MARK, Bool(true))
  }

  /** The field `value` of an object. */
  function ValueOf(fields: seq<Field>, found: Value): Value {
    if fields == [] then found
    else ValueOf(fields[1..], if fields[0].key == VALUE && !fields[0].value.Undefined? then fields[0].value else found)
  }

  /** What a marker prints: the text of its value as it is. */
  function RawText(fields: seq<Field>): Result<Text, PrintError> {
    var v := ValueOf(fields, Undefined);
    if v.Str? then Ok(v.text) else Err(NotText)
  }

  function Print(v: Value): Result<Text, PrintError>
    decreases v, 0
  {
    match v
    case Null => Ok(NULL)
    case Undefined => Err(Unsupported)
    case Bool(b) => Ok(if b then TRUE else FALSE)
    case Num(number) =>
      (match number
       case NonFinite => Err(NotFinite)
       case Integer(n) => if -MAX_SAFE <= n <= MAX_SAFE then Ok(IntegerToken(n)) else Err(UnsafeInteger)
       case Fraction(token) => Ok(token))
    case Str(text) => Ok(Quote(text))
    case Int64(token) => Ok(token)
    case Arr(items) =>
      var parts := PrintItems(items);
      if parts.Err? then Err(parts.error) else Ok([91] + Joined(parts.value) + [93])
    case Obj(fields) =>
      if Marked(fields) then RawText(fields)
      else
        var parts := PrintFields(fields);
        if parts.Err? then Err(parts.error) else Ok([123] + Joined(parts.value) + [125])
  }

  function PrintItems(items: seq<Value>): Result<seq<Text>, PrintError>
    decreases items, 0
  {
    if items == [] then Ok([])
    else
      var first := Print(items[0]);
      if first.Err? then Err(first.error)
      else
        var rest := PrintItems(items[1..]);
        if rest.Err? then Err(rest.error) else Ok([first.value] + rest.value)
  }

  function PrintFields(fields: seq<Field>): Result<seq<Text>, PrintError>
    decreases fields, 0
  {
    if fields == [] then Ok([])
    else if fields[0].value.Undefined? then PrintFields(fields[1..])
    else
      var first := Print(fields[0].value);
      if first.Err? then Err(first.error)
      else
        var rest := PrintFields(fields[1..]);
        if rest.Err? then Err(rest.error) else Ok([Quote(fields[0].key) + [COLON] + first.value] + rest.value)
  }

  // ---- parsing ----

  predicate IsSpace(u: Code) {
    || 9 <= u <= 13 || u == 32 || u == 0xA0 || u == 0x1680 || 0x2000 <= u <= 0x200A
    || u == 0x2028 || u == 0x2029 || u == 0x202F || u == 0x205F || u == 0x3000 || u == 0xFEFF
  }

  function SkipSpace(t: Text): (rest: Text)
    ensures |rest| <= |t| && rest == t[|t| - |rest|..]
  {
    if t != [] && IsSpace(t[0]) then SkipSpace(t[1..]) else t
  }

  /** How many units a string literal takes after its opening quote, up to and with the closing one. */
  function Scan(t: Text, escaped: bool): (n: Option<nat>)
    ensures n.Some? ==> 1 <= n.value <= |t|
  {
    if t == [] then None
    else if !escaped && t[0] == QUOTE then Some(1)
    else
      var n := Scan(t[1..], !escaped && t[0] == BACKSLASH);
      if n.None? then None else Some(n.value + 1)
  }

  datatype Read<T> = Done(value: T, rest: Text) | Failed

  function ParseString(t: Text): (r: Read<Text>)
    requires |t| > 0
    ensures r.Done? ==> |r.rest| < |t|
  {
    var n := Scan(t[1..], false);
    if n.None? || Unescape(t[1..n.value]).None? then Failed
    else Done(Unescape(t[1..n.value]).value, t[1 + n.value..])
  }

  function ParseNumber(t: Text, finite: Text -> bool): (r: Read<Parsed>)
    ensures r.Done? ==> |r.rest| < |t|
  {
    var n := NumberLength(t);
    if n == 0 then Failed
    else if IsInteger(t[..n]) then Done(PString(t[..n]), t[n..])
    else if finite(t[..n]) then Done(PNumber(t[..n]), t[n..])
    else Failed
  }

  function Assign(m: map<Text, Parsed>, key: Text, v: Parsed): map<Text, Parsed> {
    if key == PROTO then m else m[key := v]
  }

  predicate Begins(t: Text, word: Text) {
    |t| >= |word| && t[..|word|] == word
  }

  function ParseValue(text: Text, finite: Text -> bool): (r: Read<Parsed>)
    ensures r.Done? ==> |r.rest| < |text|
    decreases |text|, 0
  {
    var t := SkipSpace(text);
    if t == [] then Failed
    else if t[0] == 123 then
      var inner := SkipSpace(t[1..]);
      if inner != [] && inner[0] == 125 then Done(PObject(map[]), inner[1..]) else ParseFields(inner, map[], finite)
    else if t[0] == 91 then
      var inner := SkipSpace(t[1..]);
      if inner != [] && inner[0] == 93 then Done(PArray([]), inner[1..]) else ParseItems(inner, [], finite)
    else if t[0] == QUOTE then
      var s := ParseString(t);
      if s.Failed? then Failed else Done(PString(s.value), s.rest)
    else if Begins(t, TRUE) then Done(PBool(true), t[4..])
    else if Begins(t, FALSE) then Done(PBool(false), t[5..])
    else if Begins(t, NULL) then Done(PNull, t[4..])
    else ParseNumber(t, finite)
  }

  function ParseItems(text: Text, before: seq<Parsed>, finite: Text -> bool): (r: Read<Parsed>)
    ensures r.Done? ==> |r.rest| < |text|
    decreases |text|, 1
  {
    var v := ParseValue(text, finite);
    if v.Failed? then Failed
    else
      var t := SkipSpace(v.rest);
      if t == [] then Failed
      else if t[0] == 93 then Done(PArray(before + [v.value]), t[1..])
      else if t[0] != COMMA then Failed
      else ParseItems(t[1..], before + [v.value], finite)
  }

  function ParseFields(text: Text, before: map<Text, Parsed>, finite: Text -> bool): (r: Read<Parsed>)
    ensures r.Done? ==> |r.rest| < |text|
    decreases |text|, 1
  {
    var t := SkipSpace(text);
    if t == [] || t[0] != QUOTE then Failed
    else
      var key := ParseString(t);
      if key.Failed? then Failed
      else
        var k := SkipSpace(key.rest);
        if k == [] || k[0] != COLON then Failed
        else
          var v := ParseValue(k[1..], finite);
          if v.Failed? then Failed
          else
            var e := SkipSpace(v.rest);
            var fields := Assign(before, key.value, v.value);
            if e == [] then Failed
            else if e[0] == 125 then Done(PObject(fields), e[1..])
            else if e[0] != COMMA then Failed
            else ParseFields(e[1..], fields, finite)
  }

  /** A whole text: one value, and nothing after it but space. */
  function Parse(text: Text, finite: Text -> bool): Option<Parsed> {
    var v := ParseValue(text, finite);
    if v.Done? && SkipSpace(v.rest) == [] then Some(v.value) else None
  }
}
