/** The format and version words of clients/ui/src/qr.ts: BCH codes over GF(2), computed by shifting. */
module QrFormat {
  type Word = bv32

  /** The carry-less product of a word below 64 and a generator. */
  function Clmul(q: Word, g: Word): Word {
    ((q & 1) * g) ^ (((q >> 1) & 1) * (g << 1)) ^ (((q >> 2) & 1) * (g << 2)) ^
    (((q >> 3) & 1) * (g << 3)) ^ (((q >> 4) & 1) * (g << 4)) ^ (((q >> 5) & 1) * (g << 5))
  }

  const FORMAT_GENERATOR: Word := 0x537
  const VERSION_GENERATOR: Word := 0x1f25
  const FORMAT_MASK: Word := 0x5412

  /** Five data bits, then ten check bits that make a multiple of the generator, under the fixed mask. */
  ghost predicate IsFormatWord(w: Word, data: Word) {
    && (w ^ FORMAT_MASK) >> 10 == data
    && exists q: Word :: q < 32 && Clmul(q, FORMAT_GENERATOR) == w ^ FORMAT_MASK
  }

  /** Six data bits, then twelve check bits that make a multiple of the generator. */
  ghost predicate IsVersionWord(w: Word, version: Word) {
    w >> 12 == version && exists q: Word :: q < 64 && Clmul(q, VERSION_GENERATOR) == w
  }

  const NUMBERS: seq<Word> := [0, 1, 2, 3, 4, 5, 6, 7, 8, 9, 10, 11, 12, 13, 14, 15]

  const FORMAT_WORDS: seq<Word> := [0x5412, 0x5125, 0x5e7c, 0x5b4b, 0x45f9, 0x40ce, 0x4f97, 0x4aa0]
  const VERSION_WORDS: seq<Word> := [0x07c94, 0x085bc, 0x09a99, 0x0a4d3]

  function FormatRem(rem: Word): Word {
    (rem << 1) ^ ((rem >> 9) * 0x537)
  }

  function FormatRems(data: Word, n: nat): Word
    decreases n
  {
    if n == 0 then data else FormatRems(FormatRem(data), n - 1)
  }

  function VersionRem(rem: Word): Word {
    (rem << 1) ^ ((rem >> 11) * 0x1f25)
  }

  function VersionRems(data: Word, n: nat): Word
    decreases n
  {
    if n == 0 then data else VersionRems(VersionRem(data), n - 1)
  }

  lemma FormatWordsLow()
    ensures ((0 << 10) | FormatRems(0, 10)) ^ 0x5412 == 0x5412
    ensures ((1 << 10) | FormatRems(1, 10)) ^ 0x5412 == 0x5125
    ensures ((2 << 10) | FormatRems(2, 10)) ^ 0x5412 == 0x5e7c
    ensures ((3 << 10) | FormatRems(3, 10)) ^ 0x5412 == 0x5b4b
  {
  }

  lemma FormatWordsHigh()
    ensures ((4 << 10) | FormatRems(4, 10)) ^ 0x5412 == 0x45f9
    ensures ((5 << 10) | FormatRems(5, 10)) ^ 0x5412 == 0x40ce
    ensures ((6 << 10) | FormatRems(6, 10)) ^ 0x5412 == 0x4f97
    ensures ((7 << 10) | FormatRems(7, 10)) ^ 0x5412 == 0x4aa0
  {
  }

  lemma VersionWordsLow()
    ensures (7 << 12) | VersionRems(7, 12) == 0x07c94
    ensures (8 << 12) | VersionRems(8, 12) == 0x085bc
  {
  }

  lemma VersionWordsHigh()
    ensures (9 << 12) | VersionRems(9, 12) == 0x09a99
    ensures (10 << 12) | VersionRems(10, 12) == 0x0a4d3
  {
  }

  function WithVersion(version: Word, rem: Word): Word {
    (version << 12) | rem
  }

  lemma FormatWordComputed(mask: nat)
    requires mask < 8
    ensures ((NUMBERS[mask] << 10) | FormatRems(NUMBERS[mask], 10)) ^ 0x5412 == FORMAT_WORDS[mask]
  {
    hide FormatRems;
    FormatWordsLow();
    FormatWordsHigh();
  }

  lemma VersionWordComputed(version: nat)
    requires 7 <= version <= 10
    ensures WithVersion(NUMBERS[version], VersionRems(NUMBERS[version], 12)) == VERSION_WORDS[version - 7]
  {
    hide VersionRems;
    VersionWordsLow();
    VersionWordsHigh();
  }

  /** The words are the code words of ISO/IEC 18004 for level M and each mask. */
  lemma FormatWordsAreCodewords(mask: nat)
    requires mask < 8
    ensures IsFormatWord(FORMAT_WORDS[mask], NUMBERS[mask])
  {
    if mask == 0 {
      assert Clmul(0, 0x537) == 0x5412 ^ 0x5412;
    } else if mask == 1 {
      assert Clmul(1, 0x537) == 0x5125 ^ 0x5412;
    } else if mask == 2 {
      assert Clmul(2, 0x537) == 0x5e7c ^ 0x5412;
    } else if mask == 3 {
      assert Clmul(3, 0x537) == 0x5b4b ^ 0x5412;
    } else if mask == 4 {
      assert Clmul(5, 0x537) == 0x45f9 ^ 0x5412;
    } else if mask == 5 {
      assert Clmul(4, 0x537) == 0x40ce ^ 0x5412;
    } else if mask == 6 {
      assert Clmul(7, 0x537) == 0x4f97 ^ 0x5412;
    } else {
      assert Clmul(6, 0x537) == 0x4aa0 ^ 0x5412;
    }
  }

  lemma VersionWordsAreCodewords(version: nat)
    requires 7 <= version <= 10
    ensures IsVersionWord(VERSION_WORDS[version - 7], NUMBERS[version])
  {
    if version == 7 {
      assert Clmul(4, 0x1f25) == 0x07c94;
    } else if version == 8 {
      assert Clmul(12, 0x1f25) == 0x085bc;
    } else if version == 9 {
      assert Clmul(13, 0x1f25) == 0x09a99;
    } else {
      assert Clmul(15, 0x1f25) == 0x0a4d3;
    }
  }

  method FormatBits(mask: nat) returns (bits: Word)
    requires mask < 8
    ensures bits == FORMAT_WORDS[mask]
  {
    hide FormatRem;
    var data := NUMBERS[mask];
    var rem := data;
    for i := 0 to 10
      invariant FormatRems(rem, 10 - i) == FormatRems(data, 10)
    {
      rem := FormatRem(rem);
    }
    FormatWordComputed(mask);
    bits := ((data << 10) | rem) ^ 0x5412;
  }

  method VersionBits(version: nat) returns (bits: Word)
    requires 7 <= version <= 10
    ensures bits == VERSION_WORDS[version - 7]
  {
    hide VersionRem;
    hide WithVersion;
    var data := NUMBERS[version];
    var rem := data;
    for i := 0 to 12
      invariant VersionRems(rem, 12 - i) == VersionRems(data, 12)
    {
      rem := VersionRem(rem);
    }
    VersionWordComputed(version);
    bits := WithVersion(data, rem);
  }

  // ---- single bits ----

  predicate Bit(w: Word, i: nat)
    requires i < 32
  {
    (w >> i) & 1 != 0
  }

  predicate FormatBit(mask: nat, i: nat)
    requires mask < 8 && i < 15
  {
    Bit(FORMAT_WORDS[mask], i)
  }

  predicate VersionBit(version: nat, i: nat)
    requires 7 <= version <= 10 && i < 18
  {
    Bit(VERSION_WORDS[version - 7], i)
  }

  /** The mask a reader finds: bits 10, 11 and 12 of the word, under the fixed mask 101. */
  function MaskOf(b10: bool, b11: bool, b12: bool): (mask: nat)
    ensures mask < 8
  {
    (if b10 then 0 else 1) + (if b11 then 2 else 0) + (if b12 then 0 else 4)
  }

  lemma MaskReadable(mask: nat)
    requires mask < 8
    ensures MaskOf(FormatBit(mask, 10), FormatBit(mask, 11), FormatBit(mask, 12)) == mask
  {
    if mask == 0 { } else if mask == 1 { } else if mask == 2 { } else if mask == 3 { }
    else if mask == 4 { } else if mask == 5 { } else if mask == 6 { } else { }
  }

  /** The number of ones among the low n bits. */
  function Weight(w: Word, n: nat): nat
    decreases n
  {
    if n == 0 then 0 else (if w & 1 != 0 then 1 else 0) + Weight(w >> 1, n - 1)
  }

  lemma Weights()
    ensures Weight(0x537, 15) >= 7
    ensures Weight(0xa6e, 15) >= 7
    ensures Weight(0xf59, 15) >= 7
    ensures Weight(0x11eb, 15) >= 7
    ensures Weight(0x14dc, 15) >= 7
    ensures Weight(0x1b85, 15) >= 7
    ensures Weight(0x1eb2, 15) >= 7
  {
  }

  lemma FormatDifference(m: nat, n: nat)
    requires m < 8 && n < 8 && m != n
    ensures FORMAT_WORDS[m] ^ FORMAT_WORDS[n] in {0x537, 0xa6e, 0xf59, 0x11eb, 0x14dc, 0x1b85, 0x1eb2}
  {
    if m == 0 { } else if m == 1 { } else if m == 2 { } else if m == 3 { }
    else if m == 4 { } else if m == 5 { } else if m == 6 { } else { }
  }

  /** Any two masks' format words differ in at least seven of the fifteen bits, so three wrong bits still
      leave one of them nearest. */
  lemma FormatWordsFarApart(m: nat, n: nat)
    requires m < 8 && n < 8 && m != n
    ensures Weight(FORMAT_WORDS[m] ^ FORMAT_WORDS[n], 15) >= 7
  {
    hide Weight;
    FormatDifference(m, n);
    Weights();
  }
}
