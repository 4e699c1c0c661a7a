/** The vault's base64 reader and its scope string, clients/core/src/connector_vault.ts. */
module ConnectorVault {
  import opened Results
  import opened Base64
  import opened Decimals

  // ---- reading what the native vault returns ----

  /** The shape the regular expression asks for: letters of the alphabet, then at most two padding characters, in
      all a multiple of four. */
  predicate WellShaped(value: string) {
    ProperParts(BodyOf(value), PadOfText(value))
  }

  function BodyOf(value: string): string {
    value[..PadIndex(value)]
  }

  function PadOfText(value: string): string {
    value[PadIndex(value)..]
  }

  predicate ProperParts(body: string, pad: string) {
    (|body| + |pad|) % 4 == 0 && AllPadding(pad) && |pad| <= 2 && Values(STANDARD, body).Some?
  }

  const MAX_TEXT: nat := (MAX_SECRET_BYTES + 2) / 3 * 4 + 4

  function VaultDecoded(value: string): Option<seq<Byte>> {
    if |value| > MAX_TEXT || !WellShaped(value) then None
    else Some(Bytes(Values(STANDARD, BodyOf(value)).value))
  }

  /** The value of a character: 0 for padding. */
  function Lookup(c: char): int {
    if c == '=' then 0 else IndexOf(STANDARD, c)
  }

  lemma {:induction false} ValueAt(body: string, j: nat)
    requires Values(STANDARD, body).Some? && j < |body|
    ensures IndexOf(STANDARD, body[j]) == Values(STANDARD, body).value[j]
    decreases |body|
  {
    var n := |body| - 1;
    if j < n {
      ValueAt(body[..n], j);
    }
  }

  lemma LookupIsSextet(value: string, j: nat)
    requires WellShaped(value) && j < |value|
    ensures Lookup(value[j]) == SextetOr0(Values(STANDARD, BodyOf(value)).value, j)
  {
    var k := PadIndex(value);
    if j < k {
      ValueAt(value[..k], j);
      assert value[j] in value[..k];
    } else {
      assert value[k..][j - k] == '=';
    }
  }

  /** The byte that lies above the unit. */
  function Octet(packed: int, unit: int): Byte
    requires unit > 0
  {
    packed / unit % 256
  }

  method DecodeGroup(value: string, i: nat, ghost q: nat) returns (x: Byte, y: Byte, z: Byte)
    requires WellShaped(value) && i == 4 * q < |value|
    ensures var s := Values(STANDARD, BodyOf(value)).value;
            x == ByteAt(s, 3 * q) && y == ByteAt(s, 3 * q + 1) && z == ByteAt(s, 3 * q + 2)
  {
    assert i + 3 < |value|;
    hide *;
    var a, b, c, d := Lookup(value[i]), Lookup(value[i + 1]), Lookup(value[i + 2]), Lookup(value[i + 3]);
    GroupRead(value, q, a, b, c, d);
    x, y, z := Unpack(a, b, c, d);
  }

  method Unpack(a: int, b: int, c: int, d: int) returns (x: Byte, y: Byte, z: Byte)
    requires 0 <= a < 64 && 0 <= b < 64 && 0 <= c < 64 && 0 <= d < 64
    ensures x == GroupByte(a, b, c, d, 0) && y == GroupByte(a, b, c, d, 1) && z == GroupByte(a, b, c, d, 2)
  {
    hide *;
    Unpacked(a, b, c, d);
    var packed := a * 262144 + b * 4096 + c * 64 + d;
    x, y, z := Octet(packed, 65536), Octet(packed, 256), Octet(packed, 1);
  }

  /** The four values of a group are its sextets, and give its bytes. */
  lemma GroupRead(value: string, q: nat, a: int, b: int, c: int, d: int)
    requires WellShaped(value) && 4 * q + 3 < |value|
    requires a == Lookup(value[4 * q]) && b == Lookup(value[4 * q + 1]) && c == Lookup(value[4 * q + 2]) && d == Lookup(value[4 * q + 3])
    ensures 0 <= a < 64 && 0 <= b < 64 && 0 <= c < 64 && 0 <= d < 64
    ensures var s := Values(STANDARD, BodyOf(value)).value;
            && ByteAt(s, 3 * q) == GroupByte(a, b, c, d, 0) && ByteAt(s, 3 * q + 1) == GroupByte(a, b, c, d, 1)
            && ByteAt(s, 3 * q + 2) == GroupByte(a, b, c, d, 2)
  {
    var s := Values(STANDARD, BodyOf(value)).value;
    assert ProperParts(BodyOf(value), PadOfText(value));
    hide *;
    LookupIsSextet(value, 4 * q);
    LookupIsSextet(value, 4 * q + 1);
    LookupIsSextet(value, 4 * q + 2);
    LookupIsSextet(value, 4 * q + 3);
    ByteInGroup(s, q, 0);
    ByteInGroup(s, q, 1);
    ByteInGroup(s, q, 2);
  }

  lemma Unpacked(a: int, b: int, c: int, d: int)
    requires 0 <= a < 64 && 0 <= b < 64 && 0 <= c < 64 && 0 <= d < 64
    ensures var packed := a * 262144 + b * 4096 + c * 64 + d;
            && Octet(packed, 65536) == GroupByte(a, b, c, d, 0) && Octet(packed, 256) == GroupByte(a, b, c, d, 1)
            && Octet(packed, 1) == GroupByte(a, b, c, d, 2)
  {
    var packed := a * 262144 + b * 4096 + c * 64 + d;
    Quotient(packed, 65536, 4 * a + b / 16, b % 16 * 4096 + c * 64 + d);
    Quotient(4 * a + b / 16, 256, 0, 4 * a + b / 16);
    Quotient(packed, 256, 1024 * a + 16 * b + c / 4, c % 4 * 64 + d);
    Quotient(1024 * a + 16 * b + c / 4, 256, 4 * a + b / 16, b % 16 * 16 + c / 4);
    Quotient(a * 64 + b, 16, 4 * a + b / 16, b % 16);
    Quotient(b * 64 + c, 4, 16 * b + c / 4, c % 4);
    Quotient(16 * b + c / 4, 256, b / 16, b % 16 * 16 + c / 4);
    Quotient(c * 64 + d, 256, c / 4, c % 4 * 64 + d);
  }

  method Base64ToBytes(value: string) returns (r: Result<seq<Byte>, VaultError>)
    ensures r == if VaultDecoded(value).Some? then Ok(VaultDecoded(value).value) else Err(Malformed)
  {
    hide Bytes;
    hide Values;
    if |value| > MAX_TEXT || !WellShaped(value) {
      return Err(Malformed);
    }
    var out := ReadGroups(value);
    return Ok(out);
  }

  /** The first bytes of three-byte groups, cut off at the length the padding leaves. */
  method ReadGroups(value: string) returns (out: seq<Byte>)
    requires WellShaped(value)
    ensures out == Bytes(Values(STANDARD, BodyOf(value)).value)
  {
    ghost var s := Values(STANDARD, BodyOf(value)).value;
    var groups := |value| / 4;
    var length := groups * 3 - (|value| - PadIndex(value));
    LengthOfBytes(value);
    hide *;
    assert |value| == 4 * groups;
    out := [];
    for q := 0 to groups
      invariant |out| == if 3 * q < length then 3 * q else length
      invariant out == Bytes(s)[..|out|]
    {
      var x, y, z := DecodeGroup(value, 4 * q, q);
      var group := CutGroup(x, y, z, length - |out|);
      GroupIs(s, q, group);
      GroupFollows(Bytes(s), |out|, group);
      out := out + group;
    }
    assert out == Bytes(s);
  }

  lemma LengthOfBytes(value: string)
    requires WellShaped(value)
    ensures var padding := |value| - PadIndex(value);
            && |Bytes(Values(STANDARD, BodyOf(value)).value)| == |value| / 4 * 3 - padding
            && |value| % 4 == 0 && padding <= 2 && padding <= |value|
  {
    LengthIs(|value|, |value| - PadIndex(value));
  }

  /** As much of a group as there is room for. */
  function CutGroup(x: Byte, y: Byte, z: Byte, room: nat): (group: seq<Byte>)
    ensures |group| == if room < 3 then room else 3
    ensures forall k :: 0 <= k < |group| ==> group[k] == if k == 0 then x else if k == 1 then y else z
  {
    [x, y, z][..if room < 3 then room else 3]
  }

  lemma GroupIs(s: seq<Sextet>, q: nat, group: seq<Byte>)
    requires 3 * q <= |Bytes(s)| && |group| <= 3 && 3 * q + |group| <= |Bytes(s)|
    requires forall k :: 0 <= k < |group| ==>
      group[k] == if k == 0 then ByteAt(s, 3 * q) else if k == 1 then ByteAt(s, 3 * q + 1) else ByteAt(s, 3 * q + 2)
    ensures forall k :: 0 <= k < |group| ==> group[k] == Bytes(s)[3 * q + k]
  {
    hide ByteAt;
  }

  lemma GroupFollows(b: seq<Byte>, at: nat, group: seq<Byte>)
    requires at <= |b| && |group| == (if |b| - at < 3 then |b| - at else 3)
    requires forall k :: 0 <= k < |group| ==> group[k] == b[at + k]
    ensures b[..at] + group == b[..at + |group|]
  {
  }

  lemma LengthIs(n: nat, padding: nat)
    requires n % 4 == 0 && padding <= 2 && padding <= n
    ensures n / 4 * 3 - padding == (n - padding) * 6 / 8
  {
    var q := n / 4;
    if padding == 0 {
      Quotient(n * 6, 8, 3 * q, 0);
    } else if padding == 1 {
      Quotient((n - 1) * 6, 8, 3 * q - 1, 2);
    } else {
      Quotient((n - 2) * 6, 8, 3 * q - 2, 4);
    }
  }

  /** The reader takes the text of every secret up to this length, which is five bytes more than the encoder writes. */
  const MAX_READ: nat := MAX_TEXT / 4 * 3

  lemma EncodedRead(b: seq<Byte>)
    ensures VaultDecoded(Encoded(STANDARD, b)) == if |b| <= MAX_READ then Some(b) else None
  {
    hide *;
    Alphabets();
    var s := Sextets(b);
    var body, pad := Letters(STANDARD, s), Pad(|s|);
    SextetsCanonical(b);
    CanonicalLength(s);
    PadOf(|s|);
    BytesOfSextets(b);
    LettersValues(STANDARD, s);
    NoPadLetters(STANDARD, s);
    PadIndexOf(body, pad);
    Joined(body, pad);
    EncodedFits(|b|);
    assert Encoded(STANDARD, b) == body + pad by { EncodedIs(b); }
    VaultDecodedOf(body, pad, s);
  }

  /** What the vault's encoder writes, its reader reads. */
  lemma VaultRoundTrip(b: seq<Byte>)
    ensures Written(b).Ok? <==> |b| <= MAX_SECRET_BYTES
    ensures Written(b).Ok? ==> VaultDecoded(Written(b).value) == Some(b)
  {
    EncodedRead(b);
    hide Encoded;
    hide VaultDecoded;
  }

  /** A text for which the reader and the encoder differ: the secret is read, and refused when it is written back. */
  lemma ReadNotWritten(b: seq<Byte>)
    requires MAX_SECRET_BYTES < |b| <= MAX_READ
    ensures VaultDecoded(Encoded(STANDARD, b)) == Some(b) && Written(b) == Err(TooLong)
  {
    EncodedRead(b);
    hide Encoded;
    hide VaultDecoded;
  }

  /** The bytes that a text of this length and padding stands for. */
  function BytesIn(value: string): int {
    |value| / 4 * 3 - (|value| - PadIndex(value))
  }

  /** The encoder writes an accepted text back exactly when no bit is set behind the last byte and the text is not one
      of the longest. */
  lemma RewrittenIffCanonical(value: string)
    requires VaultDecoded(value).Some?
    ensures Written(VaultDecoded(value).value) == Ok(value) <==>
      Canonical(Values(STANDARD, BodyOf(value)).value) && BytesIn(value) <= MAX_SECRET_BYTES
  {
    LengthOfBytes(value);
    EncodedIffCanonical(value);
    hide Encoded;
    hide Canonical;
    hide PadIndex;
  }

  lemma EncodedIffCanonical(value: string)
    requires VaultDecoded(value).Some?
    ensures Encoded(STANDARD, VaultDecoded(value).value) == value <==> Canonical(Values(STANDARD, BodyOf(value)).value)
  {
    var body, pad := BodyOf(value), PadOfText(value);
    var s := Values(STANDARD, body).value;
    assert value == body + pad && ProperParts(body, pad) && |s| == |body|;
    assert VaultDecoded(value).value == Bytes(s);
    Alphabets();
    PadFits(|body|, pad);
    hide *;
    EncodedIs(Bytes(s));
    ValuesLetters(STANDARD, body);
    if Canonical(s) {
      SextetsOfBytes(s);
    } else if Encoded(STANDARD, Bytes(s)) == value {
      SextetsCanonical(Bytes(s));
      SameBody(Sextets(Bytes(s)), s, body, pad);
    }
  }

  lemma PadFits(n: nat, pad: string)
    requires AllPadding(pad) && |pad| <= 2 && (n + |pad|) % 4 == 0
    ensures pad == Pad(n)
  {
  }

  /** The letters and the padding of a text are told apart. */
  lemma SameBody(t: seq<Sextet>, s: seq<Sextet>, body: string, pad: string)
    requires Letters(STANDARD, t) + Pad(|t|) == body + pad && Letters(STANDARD, s) == body && pad == Pad(|s|)
    requires |t| % 4 != 1 && |s| % 4 != 1
    ensures t == s
  {
    Alphabets();
    PadOf(|t|);
    PadOf(|s|);
    hide *;
    LettersValues(STANDARD, t);
    LettersValues(STANDARD, s);
    NoPadLetters(STANDARD, t);
    NoPadLetters(STANDARD, s);
    PadIndexOf(Letters(STANDARD, t), Pad(|t|));
    PadIndexOf(body, pad);
    Joined(Letters(STANDARD, t), Pad(|t|));
    Joined(body, pad);
  }

  lemma ReadAs(body: string, pad: string, s: seq<Sextet>)
    requires AllPadding(pad) && |pad| <= 2 && (|body| + |pad|) % 4 == 0 && |body| + |pad| <= MAX_TEXT
    requires Letters(STANDARD, s) == body
    ensures VaultDecoded(body + pad) == Some(Bytes(s)) && Values(STANDARD, body) == Some(s)
  {
    Alphabets();
    LettersValues(STANDARD, s);
    NoPadLetters(STANDARD, s);
    PadIndexOf(body, pad);
    VaultDecodedOf(body, pad, s);
  }

  lemma TwoLetters(v: Sextet, w: Sextet)
    ensures Letters(STANDARD, [v, w]) == [Letter(v, '+', '/'), Letter(w, '+', '/')]
  {
    Alphabets();
  }

  lemma TwoSextets(v: Sextet, w: Sextet)
    ensures Bytes([v, w]) == [GroupByte(v, w, 0, 0, 0)]
  {
    var s := [v, w];
    assert |Bytes(s)| == 1 && Bytes(s)[0] == ByteAt(s, 0);
    assert SextetOr0(s, 0) == v && SextetOr0(s, 1) == w && SextetOr0(s, 2) == 0 && SextetOr0(s, 3) == 0;
    hide GroupByte;
    hide SextetOr0;
  }

  lemma OneByte(x: Byte)
    ensures Sextets([x]) == [GroupSextet(x, 0, 0, 0), GroupSextet(x, 0, 0, 1)]
  {
    var b := [x];
    assert |Sextets(b)| == 2 && Sextets(b)[0] == SextetAt(b, 0) && Sextets(b)[1] == SextetAt(b, 1);
    assert ByteOr0(b, 0) == x && ByteOr0(b, 1) == 0 && ByteOr0(b, 2) == 0;
    hide GroupSextet;
    hide ByteOr0;
  }

  lemma ZeroGroup()
    ensures GroupByte(0, 0, 0, 0, 0) == 0 && GroupByte(0, 1, 0, 0, 0) == 0
    ensures GroupSextet(0, 0, 0, 0) == 0 && GroupSextet(0, 0, 0, 1) == 0
    ensures Letter(0, '+', '/') == 'A' && Letter(1, '+', '/') == 'B' && Pad(2) == "=="
  {
  }

  /** Two texts of one byte: the reader drops the bits behind it. */
  lemma LooseTail()
    ensures VaultDecoded("AA" + "==") == Some([0]) && VaultDecoded("AB" + "==") == Some([0])
    ensures Encoded(STANDARD, [0]) == "AA" + "=="
  {
    assert AllPadding("==") && 4 <= MAX_TEXT;
    Alphabets();
    hide *;
    ZeroGroup();
    TwoLetters(0, 0);
    TwoLetters(0, 1);
    TwoSextets(0, 0);
    TwoSextets(0, 1);
    OneByte(0);
    EncodedIs([0]);
    ReadAs("AA", "==", [0, 0]);
    ReadAs("AB", "==", [0, 1]);
  }

  lemma CanonicalLength(s: seq<Sextet>)
    requires Canonical(s)
    ensures |s| % 4 != 1
  {
  }

  lemma EncodedIs(b: seq<Byte>)
    ensures Encoded(STANDARD, b) == Letters(STANDARD, Sextets(b)) + Pad(|Sextets(b)|)
  {
  }

  lemma VaultDecodedOf(body: string, pad: string, s: seq<Sextet>)
    requires PadIndex(body + pad) == |body| && AllPadding(pad) && |pad| <= 2 && (|body| + |pad|) % 4 == 0
    requires Values(STANDARD, body) == Some(s)
    ensures VaultDecoded(body + pad) == if |body| + |pad| <= MAX_TEXT then Some(Bytes(s)) else None
  {
    PartsOf(body, pad);
    hide PadIndex;
    hide BodyOf;
    hide PadOfText;
    hide Values;
    hide Bytes;
    hide AllPadding;
  }

  lemma PartsOf(body: string, pad: string)
    requires PadIndex(body + pad) == |body|
    ensures BodyOf(body + pad) == body && PadOfText(body + pad) == pad
  {
    hide PadIndex;
    Joined(body, pad);
  }

  lemma EncodedFits(n: nat)
    ensures SextetCount(n) + |Pad(SextetCount(n))| <= MAX_TEXT <==> n <= MAX_READ
  {
  }

  // ---- the scope string ----

  function Prefixed(field: string): string {
    Decimal(|field|) + ":" + field
  }

  /** Each field with its length before it, joined by bars. */
  function ScopeString(fields: seq<string>): string {
    if fields == [] then ""
    else if |fields| == 1 then Prefixed(fields[0])
    else Prefixed(fields[0]) + "|" + ScopeString(fields[1..])
  }

  lemma FirstColon(a: string, x: string, b: string, y: string)
    requires a + ":" + x == b + ":" + y && ':' !in a && ':' !in b
    ensures a == b && x == y
  {
    var t := a + ":" + x;
    if |a| < |b| {
      EarlierColon(a, x, b, y);
    } else if |b| < |a| {
      EarlierColon(b, y, a, x);
    } else {
      assert a == t[..|a|] && b == t[..|a|];
      assert x == t[|a| + 1..] && y == t[|a| + 1..];
    }
  }

  lemma EarlierColon(a: string, x: string, b: string, y: string)
    requires a + ":" + x == b + ":" + y && |a| < |b|
    ensures ':' in b
  {
    var t := a + ":" + x;
    assert t[|a|] == ':' && t[|a|] == b[|a|];
  }

  lemma FirstField(f: string, x: string, g: string, y: string)
    requires Prefixed(f) + x == Prefixed(g) + y
    ensures f == g && x == y
  {
    assert Prefixed(f) + x == Decimal(|f|) + ":" + (f + x) && Prefixed(g) + y == Decimal(|g|) + ":" + (g + y);
    FirstColon(Decimal(|f|), f + x, Decimal(|g|), g + y);
    DecimalInjective(|f|, |g|);
    assert f == (f + x)[..|f|] && g == (g + y)[..|g|] && x == (f + x)[|f|..] && y == (g + y)[|g|..];
  }

  /** Two scopes with the same string have the same fields, whatever characters the fields have. */
  lemma {:induction false} ScopeStringInjective(fields: seq<string>, fields': seq<string>)
    requires |fields| == |fields'| && ScopeString(fields) == ScopeString(fields')
    ensures fields == fields'
    decreases |fields|
  {
    hide Prefixed;
    if fields != [] {
      var f, g := fields[0], fields'[0];
      if |fields| == 1 {
        assert Prefixed(f) + "" == Prefixed(f) && Prefixed(g) + "" == Prefixed(g);
        FirstField(f, "", g, "");
      } else {
        var x, y := "|" + ScopeString(fields[1..]), "|" + ScopeString(fields'[1..]);
        assert ScopeString(fields) == Prefixed(f) + x && ScopeString(fields') == Prefixed(g) + y;
        FirstField(f, x, g, y);
        assert ScopeString(fields[1..]) == x[1..] && ScopeString(fields'[1..]) == y[1..];
        ScopeStringInjective(fields[1..], fields'[1..]);
      }
      assert fields == [f] + fields[1..] && fields' == [g] + fields'[1..];
    }
  }
}
