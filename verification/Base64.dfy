/** The strict base64 decoder of clients/core/src/config_verify.ts, with its wrapping 32-bit accumulator, and
    the encoder and decoder of clients/core/src/connector_vault.ts. */
module Base64 {
  import opened Results

  type Byte = x: int | 0 <= x < 256
  type Sextet = x: int | 0 <= x < 64

  /** A to Z, a to z, 0 to 9, and the last two letters of the alphabet. */
  function Letter(v: Sextet, plus: char, slash: char): char {
    if v < 26 then ('A' as int + v) as char
    else if v < 52 then ('a' as int + v - 26) as char
    else if v < 62 then ('0' as int + v - 52) as char
    else if v == 62 then plus else slash
  }

  function Alphabet(plus: char, slash: char): (alphabet: string)
    ensures |alphabet| == 64
  {
    seq(64, v requires 0 <= v < 64 => Letter(v, plus, slash))
  }

  const STANDARD: string := Alphabet('+', '/')
  const URL_SAFE: string := Alphabet('-', '_')
  const MAX_SECRET_BYTES: nat := 65536

  // ---- bytes and sextets, by position ----

  function ByteOr0(b: seq<Byte>, k: nat): Byte {
    if k < |b| then b[k] else 0
  }

  function SextetOr0(s: seq<Sextet>, j: nat): Sextet {
    if j < |s| then s[j] else 0
  }

  function SextetCount(n: nat): nat {
    (n * 8 + 5) / 6
  }

  /** Sextet r of the four that three bytes make. */
  function GroupSextet(x: int, y: int, z: int, r: nat): int
  {
    if r == 0 then x / 4 else if r == 1 then x % 4 * 16 + y / 16 else if r == 2 then y % 16 * 4 + z / 64 else z % 64
  }

  /** Byte r of the three that four sextets make. */
  function GroupByte(a: int, b: int, c: int, d: int, r: nat): int {
    if r == 0 then (a * 64 + b) / 16 % 256 else if r == 1 then (b * 64 + c) / 4 % 256 else (c * 64 + d) % 256
  }

  function SextetAt(b: seq<Byte>, j: nat): Sextet {
    var q := j / 4 * 3;
    GroupSextet(ByteOr0(b, q), ByteOr0(b, q + 1), ByteOr0(b, q + 2), j % 4)
  }

  /** The bits of the bytes, six at a time, the last group filled with zeros. */
  function Sextets(b: seq<Byte>): (s: seq<Sextet>)
    ensures |s| == SextetCount(|b|)
  {
    seq(SextetCount(|b|), j requires j >= 0 => SextetAt(b, j))
  }

  function ByteAt(s: seq<Sextet>, k: nat): Byte {
    var q := k / 3 * 4;
    GroupByte(SextetOr0(s, q), SextetOr0(s, q + 1), SextetOr0(s, q + 2), SextetOr0(s, q + 3), k % 3)
  }

  /** The bits of the sextets, eight at a time. */
  function Bytes(s: seq<Sextet>): (b: seq<Byte>)
    ensures |b| == |s| * 6 / 8
  {
    seq(|s| * 6 / 8, k requires k >= 0 => ByteAt(s, k))
  }

  /** A whole number of bytes, and zeros in the bits after the last. */
  predicate Canonical(s: seq<Sextet>) {
    && |s| % 4 != 1
    && (|s| % 4 == 2 ==> s[|s| - 1] % 16 == 0)
    && (|s| % 4 == 3 ==> s[|s| - 1] % 4 == 0)
  }

  lemma Quotient(n: int, k: int, q: int, r: int)
    requires k > 0 && n == k * q + r && 0 <= r < k
    ensures n / k == q && n % k == r
  {
    var e := n / k - q;
    assert k * e == r - n % k;
    Multiple(k, e);
  }

  lemma Multiple(k: int, e: int)
    requires k > 0
    ensures e >= 1 ==> k * e >= k
    ensures e <= -1 ==> k * e <= -k
  {
  }

  lemma FirstByte(x: Byte, y: Byte)
    ensures (x / 4 * 64 + (x % 4 * 16 + y / 16)) / 16 % 256 == x
  {
    Quotient(x / 4 * 64 + (x % 4 * 16 + y / 16), 16, x, y / 16);
  }

  lemma SecondByte(t: int, y: Byte, z: Byte)
    ensures ((t * 16 + y / 16) * 64 + (y % 16 * 4 + z / 64)) / 4 % 256 == y
  {
    var n := (t * 16 + y / 16) * 64 + (y % 16 * 4 + z / 64);
    Quotient(n, 4, 256 * t + y, z / 64);
    Quotient(256 * t + y, 256, t, y);
  }

  lemma ThirdByte(t: int, z: Byte)
    ensures ((t * 4 + z / 64) * 64 + z % 64) % 256 == z
  {
    Quotient((t * 4 + z / 64) * 64 + z % 64, 256, t, z);
  }

  lemma GroupsOfBytes(x: Byte, y: Byte, z: Byte)
    ensures var a, b, c, d := GroupSextet(x, y, z, 0), GroupSextet(x, y, z, 1), GroupSextet(x, y, z, 2), GroupSextet(x, y, z, 3);
            GroupByte(a, b, c, d, 0) == x && GroupByte(a, b, c, d, 1) == y && GroupByte(a, b, c, d, 2) == z
  {
    FirstByte(x, y);
    SecondByte(x % 4, y, z);
    ThirdByte(y % 16, z);
  }

  lemma BytesOfGroup(a: Sextet, b: Sextet, c: Sextet, d: Sextet)
    ensures var x, y, z := GroupByte(a, b, c, d, 0), GroupByte(a, b, c, d, 1), GroupByte(a, b, c, d, 2);
            && x / 4 == a && x % 4 == b / 16 && y / 16 == b % 16 && y % 16 == c / 4 && z / 64 == c % 4 && z % 64 == d
  {
    Quotient(a * 64 + b, 16, 4 * a + b / 16, b % 16);
    Quotient(4 * a + b / 16, 4, a, b / 16);
    Quotient(b * 64 + c, 4, 16 * b + c / 4, c % 4);
    Quotient(16 * b + c / 4, 256, b / 16, 16 * (b % 16) + c / 4);
    Quotient(16 * (b % 16) + c / 4, 16, b % 16, c / 4);
    Quotient(c * 64 + d, 256, c / 4, 64 * (c % 4) + d);
    Quotient(64 * (c % 4) + d, 64, c % 4, d);
  }

  lemma GroupsOfSextets(a: Sextet, b: Sextet, c: Sextet, d: Sextet)
    ensures var x, y, z := GroupByte(a, b, c, d, 0), GroupByte(a, b, c, d, 1), GroupByte(a, b, c, d, 2);
            GroupSextet(x, y, z, 0) == a && GroupSextet(x, y, z, 1) == b && GroupSextet(x, y, z, 2) == c && GroupSextet(x, y, z, 3) == d
  {
    BytesOfGroup(a, b, c, d);
    hide GroupByte;
  }

  lemma SextetInGroup(b: seq<Byte>, q: nat, r: nat)
    requires r < 4
    ensures SextetAt(b, 4 * q + r) == GroupSextet(ByteOr0(b, 3 * q), ByteOr0(b, 3 * q + 1), ByteOr0(b, 3 * q + 2), r)
  {
    hide GroupSextet;
    assert (4 * q + r) / 4 == q && (4 * q + r) % 4 == r;
  }

  lemma ByteInGroup(s: seq<Sextet>, q: nat, r: nat)
    requires r < 3
    ensures ByteAt(s, 3 * q + r) == GroupByte(SextetOr0(s, 4 * q), SextetOr0(s, 4 * q + 1), SextetOr0(s, 4 * q + 2), SextetOr0(s, 4 * q + 3), r)
  {
    hide GroupByte;
    assert (3 * q + r) / 3 == q && (3 * q + r) % 3 == r;
  }

  /** Past the last sextet, the positions of a group are zero anyway. */
  lemma SextetsPadded(b: seq<Byte>, q: nat, r: nat)
    requires r < 4 && 3 * q < |b|
    ensures SextetOr0(Sextets(b), 4 * q + r) == GroupSextet(ByteOr0(b, 3 * q), ByteOr0(b, 3 * q + 1), ByteOr0(b, 3 * q + 2), r)
  {
    SextetInGroup(b, q, r);
  }

  lemma BytesOfSextets(b: seq<Byte>)
    ensures Canonical(Sextets(b)) && Bytes(Sextets(b)) == b
  {
    var s := Sextets(b);
    forall k | 0 <= k < |b|
      ensures ByteAt(s, k) == b[k]
    {
      ByteBack(b, k / 3, k % 3);
    }
    SextetsCanonical(b);
    hide ByteAt;
    hide SextetAt;
    hide Canonical;
    assert |Bytes(s)| == |b|;
  }

  lemma OneOfThree(b: seq<Byte>, q: nat, r: nat)
    requires r < 3 && 3 * q + r < |b|
    ensures b[3 * q + r] == if r == 0 then ByteOr0(b, 3 * q) else if r == 1 then ByteOr0(b, 3 * q + 1) else ByteOr0(b, 3 * q + 2)
  {
  }

  lemma ByteBack(b: seq<Byte>, q: nat, r: nat)
    requires r < 3 && 3 * q + r < |b|
    ensures ByteAt(Sextets(b), 3 * q + r) == b[3 * q + r]
  {
    hide *;
    var x, y, z := ByteOr0(b, 3 * q), ByteOr0(b, 3 * q + 1), ByteOr0(b, 3 * q + 2);
    OneOfThree(b, q, r);
    ByteInGroup(Sextets(b), q, r);
    SextetsPadded(b, q, 0);
    SextetsPadded(b, q, 1);
    SextetsPadded(b, q, 2);
    SextetsPadded(b, q, 3);
    GroupOfBytes(x, y, z, r);
  }

  lemma GroupOfBytes(x: Byte, y: Byte, z: Byte, r: nat)
    requires r < 3
    ensures GroupByte(GroupSextet(x, y, z, 0), GroupSextet(x, y, z, 1), GroupSextet(x, y, z, 2), GroupSextet(x, y, z, 3), r)
         == if r == 0 then x else if r == 1 then y else z
  {
    GroupsOfBytes(x, y, z);
  }

  lemma SextetsCanonical(b: seq<Byte>)
    ensures Canonical(Sextets(b))
  {
    if |b| % 3 != 0 {
      var q := |b| / 3;
      SextetInGroup(b, q, |b| % 3);
      hide SextetAt;
      assert SextetCount(|b|) - 1 == 4 * q + |b| % 3;
    }
  }

  lemma BytesPadded(s: seq<Sextet>, q: nat, r: nat)
    requires r < 3 && 4 * q < |s| && Canonical(s)
    ensures ByteOr0(Bytes(s), 3 * q + r) == GroupByte(SextetOr0(s, 4 * q), SextetOr0(s, 4 * q + 1), SextetOr0(s, 4 * q + 2), SextetOr0(s, 4 * q + 3), r)
  {
    ByteInGroup(s, q, r);
    if 3 * q + r >= |Bytes(s)| {
      LastGroup(s, q, r);
    }
    hide GroupByte;
    hide SextetOr0;
    hide Canonical;
  }

  /** Behind the last byte there are only zeros. */
  lemma LastGroup(s: seq<Sextet>, q: nat, r: nat)
    requires r < 3 && 4 * q < |s| && Canonical(s) && 3 * q + r >= |s| * 6 / 8
    ensures GroupByte(SextetOr0(s, 4 * q), SextetOr0(s, 4 * q + 1), SextetOr0(s, 4 * q + 2), SextetOr0(s, 4 * q + 3), r) == 0
  {
    Rest(|s| - 4 * q, q, r);
    var b, c := SextetOr0(s, 4 * q + 1), SextetOr0(s, 4 * q + 2);
    ZeroTail(SextetOr0(s, 4 * q), b, c, SextetOr0(s, 4 * q + 3), r);
    hide GroupByte;
  }

  lemma Rest(n: int, q: nat, r: nat)
    requires n > 0 && r < 3 && 3 * q + r >= (4 * q + n) * 6 / 8
    ensures n == 1 || (n == 2 && r >= 1) || (n == 3 && r == 2)
    ensures (4 * q + n) % 4 == n % 4
  {
    assert (4 * q + n) * 6 / 8 == 3 * q + n * 6 / 8;
  }

  lemma ZeroTail(a: Sextet, b: Sextet, c: Sextet, d: Sextet, r: nat)
    requires d == 0 && ((r == 1 && b % 16 == 0 && c == 0) || (r == 2 && c % 4 == 0))
    ensures GroupByte(a, b, c, d, r) == 0
  {
    if r == 1 {
      Quotient(b * 64, 4, 16 * b, 0);
      Quotient(16 * b, 256, b / 16, 0);
    } else {
      Quotient(c * 64, 256, c / 4, 0);
    }
  }

  lemma SextetsOfBytes(s: seq<Sextet>)
    requires Canonical(s)
    ensures Sextets(Bytes(s)) == s
  {
    var b := Bytes(s);
    assert SextetCount(|b|) == |s|;
    forall j | 0 <= j < |s|
      ensures SextetAt(b, j) == s[j]
    {
      SextetBack(s, j / 4, j % 4);
    }
    hide ByteAt;
    hide SextetAt;
  }

  lemma OneOfFour(s: seq<Sextet>, q: nat, r: nat)
    requires r < 4 && 4 * q + r < |s|
    ensures s[4 * q + r] == if r == 0 then SextetOr0(s, 4 * q) else if r == 1 then SextetOr0(s, 4 * q + 1)
                            else if r == 2 then SextetOr0(s, 4 * q + 2) else SextetOr0(s, 4 * q + 3)
  {
  }

  lemma SextetBack(s: seq<Sextet>, q: nat, r: nat)
    requires Canonical(s) && r < 4 && 4 * q + r < |s|
    ensures SextetAt(Bytes(s), 4 * q + r) == s[4 * q + r]
  {
    hide *;
    var w, x, y, z := SextetOr0(s, 4 * q), SextetOr0(s, 4 * q + 1), SextetOr0(s, 4 * q + 2), SextetOr0(s, 4 * q + 3);
    OneOfFour(s, q, r);
    SextetInGroup(Bytes(s), q, r);
    BytesPadded(s, q, 0);
    BytesPadded(s, q, 1);
    BytesPadded(s, q, 2);
    GroupsOfSextets(w, x, y, z);
  }

  // ---- text ----

  function IndexOf(alphabet: string, c: char): (v: int)
    ensures -1 <= v < |alphabet|
    ensures v >= 0 ==> alphabet[v] == c
    ensures v < 0 ==> c !in alphabet
  {
    if alphabet == [] then -1
    else if alphabet[0] == c then 0
    else
      var v := IndexOf(alphabet[1..], c);
      if v < 0 then -1 else v + 1
  }

  predicate IsAlphabet(alphabet: string) {
    |alphabet| == 64 && '=' !in alphabet && forall i, j :: 0 <= i < j < 64 ==> alphabet[i] != alphabet[j]
  }

  lemma Alphabets()
    ensures IsAlphabet(STANDARD) && IsAlphabet(URL_SAFE)
  {
    forall i, j | 0 <= i < j < 64
      ensures STANDARD[i] != STANDARD[j] && URL_SAFE[i] != URL_SAFE[j]
    {
      LettersDiffer(i, j);
    }
  }

  lemma LettersDiffer(i: Sextet, j: Sextet)
    requires i < j
    ensures Letter(i, '+', '/') != Letter(j, '+', '/') && Letter(i, '-', '_') != Letter(j, '-', '_')
  {
  }

  function Letters(alphabet: string, s: seq<Sextet>): (t: string)
    requires |alphabet| == 64
    ensures |t| == |s|
  {
    seq(|s|, j requires 0 <= j < |s| => alphabet[s[j]])
  }

  function Pad(n: nat): (t: string)
    ensures |t| <= 3 && forall c :: c in t ==> c == '='
  {
    if n % 4 == 2 then "==" else if n % 4 == 3 then "=" else ""
  }

  /** The text of some bytes, with padding. */
  function Encoded(alphabet: string, b: seq<Byte>): string
    requires |alphabet| == 64
  {
    Letters(alphabet, Sextets(b)) + Pad(SextetCount(|b|))
  }

  /** The text without its padding. */
  function Bare(alphabet: string, b: seq<Byte>): string
    requires |alphabet| == 64
  {
    Letters(alphabet, Sextets(b))
  }

  // ---- the strict decoder ----

  /** What a 32-bit signed integer holds of n. */
  function Wrap(n: int): int {
    (n + 0x8000_0000) % 0x1_0000_0000 - 0x8000_0000
  }

  function Values(alphabet: string, body: string): (s: Option<seq<Sextet>>)
    requires |alphabet| == 64
    ensures s.Some? ==> |s.value| == |body|
  {
    if body == [] then Some([])
    else
      var n := |body| - 1;
      var before := Values(alphabet, body[..n]);
      var v := IndexOf(alphabet, body[n]);
      if before.None? || v < 0 then None else Some(before.value + [v])
  }

  lemma {:induction false} ValuesLetters(alphabet: string, body: string)
    requires IsAlphabet(alphabet)
    ensures Values(alphabet, body).Some? ==> Letters(alphabet, Values(alphabet, body).value) == body
    decreases |body|
  {
    if body != [] {
      var n := |body| - 1;
      ValuesLetters(alphabet, body[..n]);
      assert body == body[..n] + [body[n]];
    }
  }

  lemma {:induction false} LettersValues(alphabet: string, s: seq<Sextet>)
    requires IsAlphabet(alphabet)
    ensures Values(alphabet, Letters(alphabet, s)) == Some(s)
    decreases |s|
  {
    if s != [] {
      var n := |s| - 1;
      LettersValues(alphabet, s[..n]);
      assert Letters(alphabet, s)[..n] == Letters(alphabet, s[..n]);
      assert IndexOf(alphabet, alphabet[s[n]]) == s[n];
      assert s == s[..n] + [s[n]];
    }
  }

  predicate Finishes(acc: int, last: Sextet) {
    acc % 64 == last
  }

  /** One round of the accumulator: its low twelve bits are the last two sextets, whatever was wrapped away. */
  lemma RoundKeeps(acc: int, last: Sextet, v: Sextet)
    requires acc % 64 == last
    ensures var acc' := Wrap(acc * 64) + v;
            acc' % 4096 == last * 64 + v && acc' % 64 == v
  {
    var k := acc / 64;
    var w := Wrap(acc * 64);
    var m := (acc * 64 + 0x8000_0000) / 0x1_0000_0000;
    assert w == acc * 64 - 0x1_0000_0000 * m;
    Quotient(w + v, 4096, k - 0x10_0000 * m, last * 64 + v);
    Quotient(w + v, 64, 64 * (k - 0x10_0000 * m) + last, v);
  }

  lemma ByteTaken(acc: int, pair: int, bits: nat)
    requires acc % 4096 == pair && (bits == 0 || bits == 2 || bits == 4)
    ensures var p := if bits == 0 then 1 else if bits == 2 then 4 else 16;
            acc / p % 256 == pair / p % 256
  {
    var m := acc / 4096;
    if bits == 0 {
      Quotient(acc, 256, 16 * m + pair / 256, pair % 256);
    } else if bits == 2 {
      Quotient(acc, 4, 1024 * m + pair / 4, pair % 4);
      Quotient(1024 * m + pair / 4, 256, 4 * m + pair / 4 / 256, pair / 4 % 256);
    } else {
      Quotient(acc, 16, 256 * m + pair / 16, pair % 16);
      Quotient(256 * m + pair / 16, 256, m + pair / 16 / 256, pair / 16 % 256);
    }
  }

  // ---- the decoding loop ----

  function Pow2(bits: nat): nat
    requires bits == 0 || bits == 2 || bits == 4 || bits == 6
  {
    if bits == 0 then 1 else if bits == 2 then 4 else if bits == 4 then 16 else 64
  }

  /** How many bits wait in the accumulator after n letters. */
  function Waiting(n: nat): nat {
    if n % 4 == 0 then 0 else if n % 4 == 1 then 6 else if n % 4 == 2 then 4 else 2
  }

  function Pair(a: int, b: int): int {
    a * 64 + b
  }

  /** A byte that a letter completes is the byte at its position. */
  lemma ByteCompleted(s: seq<Sextet>, n: nat, acc: int)
    requires 0 < n < |s| && n % 4 != 0 && acc % 4096 == Pair(s[n - 1], s[n])
    ensures var k := n * 6 / 8;
            acc / Pow2(Waiting(n + 1)) % 256 == ByteAt(s, k) && (n + 1) * 6 / 8 == k + 1
  {
    var q, r := n / 4, n % 4;
    Completes(n, q, r);
    PairTaken(acc, Pair(s[n - 1], s[n]), n);
    PairOfGroup(s, q, r);
    ByteInGroup(s, q, r - 1);
    hide *;
  }

  lemma PairTaken(acc: int, pair: int, n: nat)
    requires acc % 4096 == pair && n % 4 != 0
    ensures acc / Pow2(Waiting(n + 1)) % 256 == pair / Pow2(Waiting(n + 1)) % 256
  {
    ByteTaken(acc, pair, Waiting(n + 1));
  }

  /** The two sextets that a byte of a group is cut from. */
  lemma PairOfGroup(s: seq<Sextet>, q: nat, r: nat)
    requires 0 < r < 4 && 4 * q + r < |s|
    ensures GroupByte(SextetOr0(s, 4 * q), SextetOr0(s, 4 * q + 1), SextetOr0(s, 4 * q + 2), SextetOr0(s, 4 * q + 3), r - 1) ==
      Pair(s[4 * q + r - 1], s[4 * q + r]) / Pow2(Waiting(4 * q + r + 1)) % 256
  {
  }

  lemma Completes(n: nat, q: nat, r: nat)
    requires 0 < r < 4 && n == 4 * q + r
    ensures n * 6 / 8 == 3 * q + (r - 1) && (n + 1) * 6 / 8 == n * 6 / 8 + 1
    ensures Waiting(n + 1) == if r == 1 then 4 else if r == 2 then 2 else 0
  {
  }

  /** The loop's state after the letters of s. */
  predicate Underway(s: seq<Sextet>, out: seq<Byte>, acc: int, bits: nat) {
    out == Bytes(s) && bits == Waiting(|s|) && (s != [] ==> acc % 64 == s[|s| - 1])
  }

  lemma Counts(n: nat)
    ensures (n + 1) * 6 / 8 == n * 6 / 8 + (if n % 4 == 0 then 0 else 1)
  {
    var q, r := n / 4, n % 4;
    Quotient(n * 6, 8, 3 * q + (if r < 2 then 0 else if r == 2 then 1 else 2), if r == 0 then 0 else if r == 1 then 6 else if r == 2 then 4 else 2);
    Quotient((n + 1) * 6, 8, 3 * q + r, if r == 0 then 6 else if r == 1 then 4 else if r == 2 then 2 else 0);
  }

  lemma BytesAre(s: seq<Sextet>)
    ensures |Bytes(s)| == |s| * 6 / 8 && forall k :: 0 <= k < |Bytes(s)| ==> Bytes(s)[k] == ByteAt(s, k)
  {
  }

  lemma LaterBytes(s: seq<Sextet>, v: Sextet, acc: int)
    requires s != [] && acc % 4096 == Pair(s[|s| - 1], v)
    ensures |s| % 4 == 0 ==> Bytes(s + [v]) == Bytes(s)
    ensures |s| % 4 != 0 ==> Bytes(s + [v]) == Bytes(s) + [acc / Pow2(Waiting(|s| + 1)) % 256]
  {
    var n := |s|;
    EarlierBytes(s, v);
    Counts(n);
    BytesAre(s);
    BytesAre(s + [v]);
    if n % 4 != 0 {
      ByteCompleted(s + [v], n, acc);
    }
    hide *;
  }

  lemma WaitingNext(n: nat)
    ensures Waiting(n + 1) == if n % 4 == 0 then Waiting(n) + 6 else Waiting(n) + 6 - 8
    ensures n % 4 == 0 <==> Waiting(n) + 6 < 8
    ensures n % 4 != 0 ==> Waiting(n + 1) == 0 || Waiting(n + 1) == 2 || Waiting(n + 1) == 4
  {
  }

  lemma NextLetter(s: seq<Sextet>, out: seq<Byte>, acc: int, bits: nat, v: Sextet)
    requires Underway(s, out, acc, bits)
    ensures var acc', more := Wrap(acc * 64) + v, bits + 6;
            if more < 8 then Underway(s + [v], out, acc', more)
            else (more - 8 == 0 || more - 8 == 2 || more - 8 == 4) && Underway(s + [v], out + [acc' / Pow2(more - 8) % 256], acc', more - 8)
  {
    RoundKeeps(acc, acc % 64, v);
    WaitingNext(|s|);
    hide Waiting;
    if s == [] {
      assert Bytes([v]) == [] && Bytes([]) == [] && [] + [v] == [v];
    } else {
      LaterBytes(s, v, Wrap(acc * 64) + v);
    }
    hide Bytes;
    hide Wrap;
    hide Pow2;
    hide Pair;
    hide ByteAt;
  }

  method DecodeBody(body: string, alphabet: string) returns (b: Option<seq<Byte>>)
    requires IsAlphabet(alphabet)
    ensures b == DecodedBody(body, alphabet)
  {
    assert |alphabet| == 64;
    hide IsAlphabet;
    hide IndexOf;
    if |body| % 4 == 1 {
      return None;
    }
    var out: seq<Byte> := [];
    var acc, bits := 0, 0;
    ghost var s: seq<Sextet> := [];
    assert Underway(s, out, acc, bits);
    hide Underway;
    for i := 0 to |body|
      invariant |s| == i && Values(alphabet, body[..i]) == Some(s)
      invariant Underway(s, out, acc, bits)
    {
      var v := IndexOf(alphabet, body[i]);
      assert body[..i + 1][..i] == body[..i];
      if v < 0 {
        ValuesPrefix(alphabet, body, i + 1);
        return None;
      }
      NextLetter(s, out, acc, bits, v);
      acc := Wrap(acc * 64) + v;
      bits := bits + 6;
      if bits >= 8 {
        bits := bits - 8;
        out := out + [acc / Pow2(bits) % 256];
      }
      s := s + [v];
    }
    assert body[..|body|] == body;
    b := CheckTail(s, out, acc, bits);
  }

  method CheckTail(ghost s: seq<Sextet>, out: seq<Byte>, acc: int, bits: nat) returns (b: Option<seq<Byte>>)
    requires Underway(s, out, acc, bits) && |s| % 4 != 1
    ensures b == if Canonical(s) then Some(Bytes(s)) else None
  {
    hide Bytes;
    if bits > 0 {
      TailBits(acc, s[|s| - 1], bits);
      if acc % Pow2(bits) != 0 {
        return None;
      }
    }
    return Some(out);
  }

  lemma TailBits(acc: int, last: Sextet, bits: nat)
    requires acc % 64 == last && (bits == 2 || bits == 4)
    ensures acc % Pow2(bits) == last % Pow2(bits)
  {
    var m := acc / 64;
    if bits == 2 {
      Quotient(acc, 4, 16 * m + last / 4, last % 4);
    } else {
      Quotient(acc, 16, 4 * m + last / 16, last % 16);
    }
  }

  /** A longer text has the same complete bytes. */
  lemma EarlierBytes(s: seq<Sextet>, v: Sextet)
    ensures forall k :: 0 <= k < |s| * 6 / 8 ==> ByteAt(s + [v], k) == ByteAt(s, k)
  {
    forall k | 0 <= k < |s| * 6 / 8
      ensures ByteAt(s + [v], k) == ByteAt(s, k)
    {
      var q, r := k / 3, k % 3;
      assert 4 * q + r + 1 < |s|;
    }
  }

  lemma {:induction false} ValuesPrefix(alphabet: string, body: string, i: nat)
    requires |alphabet| == 64 && i <= |body| && Values(alphabet, body[..i]).None?
    ensures Values(alphabet, body).None?
    decreases |body| - i
  {
    if i < |body| {
      assert body[..i + 1][..i] == body[..i];
      ValuesPrefix(alphabet, body, i + 1);
    } else {
      assert body[..i] == body;
    }
  }

  /** Where the padding begins. */
  function PadIndex(input: string): (k: nat)
    ensures k <= |input| && '=' !in input[..k] && (k < |input| ==> input[k] == '=')
  {
    if input == [] then 0
    else
      var n := |input| - 1;
      var k := PadIndex(input[..n]);
      assert input[..k] == input[..n][..k];
      if k < n then k
      else if input[n] == '=' then n
      else
        assert input[..n + 1] == input[..n] + [input[n]];
        n + 1
  }

  predicate AllPadding(t: string) {
    forall k :: 0 <= k < |t| ==> t[k] == '='
  }

  function DecodedBody(body: string, alphabet: string): Option<seq<Byte>>
    requires IsAlphabet(alphabet)
  {
    var s := Values(alphabet, body);
    if s.None? || |body| % 4 == 1 || !Canonical(s.value) then None else Some(Bytes(s.value))
  }

  /** What the decoder returns. */
  function Decoded(input: string, alphabet: string): Option<seq<Byte>>
    requires IsAlphabet(alphabet)
  {
    var k := PadIndex(input);
    if k < |input| && (|input| % 4 != 0 || !AllPadding(input[k..]) || |input| - k > 2) then None
    else DecodedBody(input[..k], alphabet)
  }

  method DecodeB64(input: string, alphabet: string) returns (b: Option<seq<Byte>>)
    requires IsAlphabet(alphabet)
    ensures b == Decoded(input, alphabet)
  {
    hide Values;
    hide Bytes;
    var padIdx := PadIndex(input);
    if padIdx < |input| {
      if |input| % 4 != 0 {
        return None;
      }
      for i := padIdx to |input|
        invariant forall k :: padIdx <= k < i ==> input[k] == '='
      {
        if input[i] != '=' {
          assert input[padIdx..][i - padIdx] != '=';
          return None;
        }
      }
      if |input| - padIdx > 2 {
        return None;
      }
    }
    b := DecodeBody(input[..padIdx], alphabet);
  }

  // ---- what the decoder accepts ----

  lemma {:induction false} PadIndexOf(body: string, pad: string)
    requires '=' !in body && AllPadding(pad)
    ensures PadIndex(body + pad) == |body|
    decreases |pad|
  {
    if pad == "" {
      assert body + pad == body;
    } else {
      var n := |pad| - 1;
      PadIndexOf(body, pad[..n]);
      assert (body + pad)[..|body| + n] == body + pad[..n];
    }
  }

  lemma NoPadLetters(alphabet: string, s: seq<Sextet>)
    requires IsAlphabet(alphabet)
    ensures '=' !in Letters(alphabet, s)
  {
  }

  lemma BodyDecodes(alphabet: string, b: seq<Byte>)
    requires IsAlphabet(alphabet)
    ensures DecodedBody(Letters(alphabet, Sextets(b)), alphabet) == Some(b)
  {
    BytesOfSextets(b);
    LettersValues(alphabet, Sextets(b));
    hide Values;
    hide Bytes;
    hide Letters;
  }

  lemma PadOf(n: nat)
    requires n % 4 != 1
    ensures AllPadding(Pad(n)) && |Pad(n)| <= 2 && (n + |Pad(n)|) % 4 == 0
  {
  }

  /** A body and its padding are told apart again. */
  lemma PaddedDecodes(alphabet: string, body: string, pad: string)
    requires IsAlphabet(alphabet) && '=' !in body && AllPadding(pad) && |pad| <= 2
    requires pad == "" || (|body| + |pad|) % 4 == 0
    ensures Decoded(body + pad, alphabet) == DecodedBody(body, alphabet)
  {
    PadIndexOf(body, pad);
    Joined(body, pad);
    hide PadIndex;
    hide DecodedBody;
    hide AllPadding;
    hide IsAlphabet;
  }

  lemma EncodedDecodes(alphabet: string, b: seq<Byte>)
    requires IsAlphabet(alphabet)
    ensures Decoded(Encoded(alphabet, b), alphabet) == Some(b) && Decoded(Bare(alphabet, b), alphabet) == Some(b)
  {
    var s := Sextets(b);
    var body := Letters(alphabet, s);
    SextetsCanonical(b);
    PadOf(|s|);
    BodyDecodes(alphabet, b);
    NoPadLetters(alphabet, s);
    PaddedDecodes(alphabet, body, Pad(|s|));
    PaddedDecodes(alphabet, body, "");
    assert body + "" == body;
    hide Decoded;
    hide DecodedBody;
    hide Sextets;
    hide Letters;
    hide Pad;
    hide AllPadding;
    hide IsAlphabet;
  }

  lemma Joined(body: string, pad: string)
    ensures (body + pad)[..|body|] == body && (body + pad)[|body|..] == pad
  {
  }

  lemma DecodedWasEncoded(alphabet: string, input: string)
    requires IsAlphabet(alphabet) && Decoded(input, alphabet).Some?
    ensures var b := Decoded(input, alphabet).value; input == Encoded(alphabet, b) || input == Bare(alphabet, b)
  {
    var k := PadIndex(input);
    var body, pad := input[..k], input[k..];
    BodyWasEncoded(alphabet, body);
    hide DecodedBody;
    hide Sextets;
    hide Letters;
    if k < |input| {
      PaddingFits(|body|, pad);
      assert input == body + pad;
    } else {
      assert body == input;
    }
  }

  lemma BodyWasEncoded(alphabet: string, body: string)
    requires IsAlphabet(alphabet) && DecodedBody(body, alphabet).Some?
    ensures body == Letters(alphabet, Sextets(DecodedBody(body, alphabet).value))
    ensures |body| == SextetCount(|DecodedBody(body, alphabet).value|) && |body| % 4 != 1
  {
    ValuesLetters(alphabet, body);
    SextetsOfBytes(Values(alphabet, body).value);
    hide Bytes;
    hide Values;
    hide Letters;
  }

  lemma PaddingFits(n: nat, pad: string)
    requires AllPadding(pad) && 0 < |pad| <= 2 && (n + |pad|) % 4 == 0
    ensures pad == Pad(n)
  {
  }

  /** The decoder accepts exactly the encodings of byte sequences, with their padding or without it, and decodes
      them to those bytes; so no two byte sequences share an accepted text. */
  lemma DecodesExactly(alphabet: string, input: string, b: seq<Byte>)
    requires IsAlphabet(alphabet)
    ensures Decoded(input, alphabet) == Some(b) <==> input == Encoded(alphabet, b) || input == Bare(alphabet, b)
  {
    EncodedDecodes(alphabet, b);
    hide Decoded;
    hide Encoded;
    hide Bare;
    if Decoded(input, alphabet).Some? {
      DecodedWasEncoded(alphabet, input);
    }
  }

  // ---- the vault's encoder and decoder ----

  datatype VaultError = TooLong | Malformed

  /** The four sextets of a packed group. */
  lemma Packed(a: Byte, b: Byte, c: Byte)
    ensures var packed := a * 65536 + b * 256 + c;
            && packed / 262144 % 64 == GroupSextet(a, b, c, 0) && packed / 4096 % 64 == GroupSextet(a, b, c, 1)
            && packed / 64 % 64 == GroupSextet(a, b, c, 2) && packed % 64 == GroupSextet(a, b, c, 3)
  {
    var packed := a * 65536 + b * 256 + c;
    Quotient(packed, 262144, a / 4, a % 4 * 65536 + b * 256 + c);
    Quotient(packed, 4096, 16 * a + b / 16, b % 16 * 256 + c);
    Quotient(16 * a + b / 16, 64, a / 4, a % 4 * 16 + b / 16);
    Quotient(packed, 64, 1024 * a + 4 * b + c / 64, c % 64);
    Quotient(1024 * a + 4 * b + c / 64, 64, 16 * a + b / 16, b % 16 * 4 + c / 64);
  }

  /** The text of the first q groups of three bytes. */
  function TextUpTo(b: seq<Byte>, q: nat): string {
    if 3 * q <= |b| then Letters(STANDARD, Sextets(b)[..4 * q]) else Encoded(STANDARD, b)
  }

  function GroupText(b: seq<Byte>, q: nat): string
    requires 3 * q < |b|
  {
    [STANDARD[SextetAt(b, 4 * q)], STANDARD[SextetAt(b, 4 * q + 1)],
     if 3 * q + 1 < |b| then STANDARD[SextetAt(b, 4 * q + 2)] else '=',
     if 3 * q + 2 < |b| then STANDARD[SextetAt(b, 4 * q + 3)] else '=']
  }

  lemma LettersConcat(p: seq<Sextet>, q: seq<Sextet>)
    ensures Letters(STANDARD, p + q) == Letters(STANDARD, p) + Letters(STANDARD, q)
  {
    hide Letter;
  }

  lemma NextGroup(b: seq<Byte>, q: nat)
    requires 3 * q < |b|
    ensures TextUpTo(b, q + 1) == TextUpTo(b, q) + GroupText(b, q)
  {
    hide SextetAt;
    hide Letters;
    hide GroupText;
    hide Pad;
    var s := Sextets(b);
    var group := if 3 * q + 3 <= |b| then s[4 * q..4 * q + 4] else s[4 * q..];
    GroupLetters(b, q, group);
    JoinedGroup(s, 4 * q, group);
    LettersConcat(s[..4 * q], group);
  }

  lemma JoinedGroup(s: seq<Sextet>, at: nat, group: seq<Sextet>)
    requires at <= |s|
    requires group == s[at..] || (at + 4 <= |s| && group == s[at..at + 4])
    ensures |group| == 4 && at + 4 <= |s| ==> s[..at + 4] == s[..at] + group
    ensures group == s[at..] ==> s == s[..at] + group
  {
  }

  lemma GroupLetters(b: seq<Byte>, q: nat, group: seq<Sextet>)
    requires 3 * q < |b| && group == if 3 * q + 3 <= |b| then Sextets(b)[4 * q..4 * q + 4] else Sextets(b)[4 * q..]
    ensures Letters(STANDARD, group) + (if 3 * q + 3 <= |b| then "" else Pad(SextetCount(|b|))) == GroupText(b, q)
  {
    hide SextetAt;
    hide Letter;
    CountInGroup(|b|, q);
    assert forall k :: 0 <= k < |group| ==> group[k] == SextetAt(b, 4 * q + k);
    if 3 * q + 3 <= |b| {
      assert Letters(STANDARD, group) + "" == GroupText(b, q);
    } else if 3 * q + 2 == |b| {
      assert Letters(STANDARD, group) + "=" == GroupText(b, q);
    } else {
      assert Letters(STANDARD, group) + "==" == GroupText(b, q);
    }
  }

  lemma CountInGroup(n: nat, q: nat)
    requires 3 * q < n
    ensures n >= 3 * q + 3 ==> SextetCount(n) >= 4 * q + 4
    ensures n == 3 * q + 2 ==> SextetCount(n) == 4 * q + 3 && Pad(SextetCount(n)) == "="
    ensures n == 3 * q + 1 ==> SextetCount(n) == 4 * q + 2 && Pad(SextetCount(n)) == "=="
  {
  }

  method EncodeGroup(bytes: seq<Byte>, i: nat, ghost q: nat) returns (text: string)
    requires i == 3 * q < |bytes|
    ensures text == GroupText(bytes, q)
  {
    hide SextetAt;
    var a: int, b: int, c: int := ByteOr0(bytes, i), ByteOr0(bytes, i + 1), ByteOr0(bytes, i + 2);
    var packed := a * 65536 + b * 256 + c;
    PackedGroup(bytes, q);
    text := [STANDARD[packed / 262144 % 64], STANDARD[packed / 4096 % 64],
      if i + 1 < |bytes| then STANDARD[packed / 64 % 64] else '=',
      if i + 2 < |bytes| then STANDARD[packed % 64] else '='];
  }

  /** What the vault's encoder answers for a secret. */
  function Written(b: seq<Byte>): Result<string, VaultError> {
    if |b| > MAX_SECRET_BYTES then Err(TooLong) else Ok(Encoded(STANDARD, b))
  }

  method BytesToBase64(bytes: seq<Byte>) returns (r: Result<string, VaultError>)
    ensures r == Written(bytes)
  {
    if |bytes| > MAX_SECRET_BYTES {
      return Err(TooLong);
    }
    hide SextetAt;
    var out := "";
    var i := 0;
    ghost var q := 0;
    while i < |bytes|
      invariant i == 3 * q && i < |bytes| + 3 && out == TextUpTo(bytes, q)
      decreases |bytes| - i
    {
      NextGroup(bytes, q);
      hide TextUpTo;
      hide GroupText;
      var group := EncodeGroup(bytes, i, q);
      out := out + group;
      i := i + 3;
      q := q + 1;
    }
    WholeText(bytes, q);
    return Ok(out);
  }

  lemma WholeText(b: seq<Byte>, q: nat)
    requires |b| <= 3 * q < |b| + 3
    ensures TextUpTo(b, q) == Encoded(STANDARD, b)
  {
    hide SextetAt;
    if 3 * q == |b| {
      assert Sextets(b)[..4 * q] == Sextets(b) && Pad(SextetCount(|b|)) == "";
    }
  }

  lemma PackedGroup(bytes: seq<Byte>, q: nat)
    ensures var a: int, b: int, c: int := ByteOr0(bytes, 3 * q), ByteOr0(bytes, 3 * q + 1), ByteOr0(bytes, 3 * q + 2);
            var packed := a * 65536 + b * 256 + c;
            && packed / 262144 % 64 == SextetAt(bytes, 4 * q) && packed / 4096 % 64 == SextetAt(bytes, 4 * q + 1)
            && packed / 64 % 64 == SextetAt(bytes, 4 * q + 2) && packed % 64 == SextetAt(bytes, 4 * q + 3)
  {
    Packed(ByteOr0(bytes, 3 * q), ByteOr0(bytes, 3 * q + 1), ByteOr0(bytes, 3 * q + 2));
    SextetInGroup(bytes, q, 0);
    SextetInGroup(bytes, q, 1);
    SextetInGroup(bytes, q, 2);
    SextetInGroup(bytes, q, 3);
    hide GroupSextet;
    hide SextetAt;
  }
}
