/** Data encoding of clients/ui/src/qr.ts: versions and their capacities, the bit buffer, and the data code
    words of a payload.  `ReadPayload` is a reader of the data code words, written from the format alone. */
module QrData {
  import opened Results
  import opened GaloisField

  datatype QrError =
    | InvalidBitField
    | NotByteAligned
    | UnsupportedVersion
    | PayloadTooLarge
    | PartitionMismatch

  // ---- versions 1 to 10, error-correction level M ----

  datatype BlockSpec = BlockSpec(count: nat, total: nat, data: nat)

  const RS_BLOCKS_M: seq<seq<BlockSpec>> := [
    [BlockSpec(1, 26, 16)],
    [BlockSpec(1, 44, 28)],
    [BlockSpec(1, 70, 44)],
    [BlockSpec(2, 50, 32)],
    [BlockSpec(2, 67, 43)],
    [BlockSpec(4, 43, 27)],
    [BlockSpec(4, 49, 31)],
    [BlockSpec(2, 60, 38), BlockSpec(2, 61, 39)],
    [BlockSpec(3, 58, 36), BlockSpec(2, 59, 37)],
    [BlockSpec(4, 69, 43), BlockSpec(1, 70, 44)]
  ]

  predicate IsVersion(version: int) {
    1 <= version <= 10
  }

  function Repeat(spec: BlockSpec, count: nat): (bs: seq<BlockSpec>)
    ensures |bs| == count && forall b :: b in bs ==> b == spec
  {
    seq(count, _ => spec)
  }

  function BlockSequence(specs: seq<BlockSpec>): seq<BlockSpec> {
    if specs == [] then [] else Repeat(specs[0], specs[0].count) + BlockSequence(specs[1..])
  }

  /** The blocks of a version, one entry a block. */
  function BlockList(version: int): seq<BlockSpec>
    requires IsVersion(version)
  {
    BlockSequence(RS_BLOCKS_M[version - 1])
  }

  function DataTotal(blocks: seq<BlockSpec>): nat {
    if blocks == [] then 0 else blocks[0].data + DataTotal(blocks[1..])
  }

  function WordTotal(blocks: seq<BlockSpec>): nat {
    if blocks == [] then 0 else blocks[0].total + WordTotal(blocks[1..])
  }

  function DataCapacity(version: int): nat
    requires IsVersion(version)
  {
    DataTotal(BlockList(version))
  }

  /** The sums over `count` copies of a block followed by `rest`. */
  lemma {:induction false} RepeatTotals(spec: BlockSpec, count: nat, rest: seq<BlockSpec>)
    ensures DataTotal(Repeat(spec, count) + rest) == count * spec.data + DataTotal(rest)
    ensures WordTotal(Repeat(spec, count) + rest) == count * spec.total + WordTotal(rest)
    decreases count
  {
    if count == 0 {
      assert Repeat(spec, 0) + rest == rest;
    } else {
      var all, fewer := Repeat(spec, count) + rest, Repeat(spec, count - 1) + rest;
      RepeatTotals(spec, count - 1, rest);
      assert all[0] == spec && all[1..] == fewer;
      assert DataTotal(all) == spec.data + DataTotal(fewer) && WordTotal(all) == spec.total + WordTotal(fewer);
      SplitProduct(count, spec.data);
      SplitProduct(count, spec.total);
    }
  }

  lemma SplitProduct(count: int, x: int)
    ensures count * x == (count - 1) * x + x
  {
  }

  const CAPACITIES: seq<nat> := [16, 28, 44, 64, 86, 108, 124, 154, 182, 216]
  const WORDS: seq<nat> := [26, 44, 70, 100, 134, 172, 196, 242, 292, 346]

  /** The capacity in data code words, and the number of code words, of each version. */
  lemma Capacities(version: int)
    requires IsVersion(version)
    ensures DataCapacity(version) == CAPACITIES[version - 1]
    ensures WordTotal(BlockList(version)) == WORDS[version - 1]
  {
    hide DataTotal;
    hide WordTotal;
    hide BlockSequence;
    var specs := RS_BLOCKS_M[version - 1];
    if version <= 7 {
      SingleTotals(specs);
    } else {
      PairTotals(specs);
    }
  }

  lemma SingleTotals(specs: seq<BlockSpec>)
    requires |specs| == 1
    ensures DataTotal(BlockSequence(specs)) == specs[0].count * specs[0].data
    ensures WordTotal(BlockSequence(specs)) == specs[0].count * specs[0].total
  {
    RepeatTotals(specs[0], specs[0].count, []);
  }

  lemma PairTotals(specs: seq<BlockSpec>)
    requires |specs| == 2
    ensures DataTotal(BlockSequence(specs)) == specs[0].count * specs[0].data + specs[1].count * specs[1].data
    ensures WordTotal(BlockSequence(specs)) == specs[0].count * specs[0].total + specs[1].count * specs[1].total
  {
    SingleTotals(specs[1..]);
    RepeatTotals(specs[0], specs[0].count, BlockSequence(specs[1..]));
  }

  function CountBits(version: int): nat {
    if version <= 9 then 8 else 16
  }

  function Power2(n: nat): (r: nat)
    ensures r > 0
  {
    if n == 0 then 1 else 2 * Power2(n - 1)
  }

  /** Mode, length and payload fit the data code words of the version, and the length its count field. */
  predicate Fits(byteLength: nat, version: int)
    requires IsVersion(version)
  {
    FitsIn(byteLength, CountBits(version), DataCapacity(version))
  }

  method ChooseVersion(byteLength: nat) returns (r: Result<int, QrError>)
    ensures r.Ok? ==> IsVersion(r.value) && Fits(byteLength, r.value)
    ensures r.Ok? ==> forall v :: 1 <= v < r.value ==> !Fits(byteLength, v)
    ensures r.Ok? <==> byteLength <= 213
    ensures r.Err? ==> r.error == PayloadTooLarge
  {
    assert Power2(8) == 256 && Power2(16) == 65536;
    for version := 1 to 11
      invariant forall v :: 1 <= v < version ==> !Fits(byteLength, v)
    {
      Capacities(version);
      var countBits := if version <= 9 then 8 else 16;
      if byteLength < Power2(countBits) {
        if 4 + countBits + byteLength * 8 <= DataCapacity(version) * 8 {
          return Ok(version);
        }
      }
    }
    assert !Fits(byteLength, 10);
    return Err(PayloadTooLarge);
  }

  // ---- numbers and bytes as bits, most significant first ----

  function BitsOf(value: nat, length: nat): (bs: seq<bool>)
    ensures |bs| == length
    decreases length
  {
    if length == 0 then [] else BitsOf(value / 2, length - 1) + [value % 2 == 1]
  }

  function NumberOf(bs: seq<bool>): (value: nat)
    ensures value < Power2(|bs|)
  {
    if bs == [] then 0
    else
      var last := |bs| - 1;
      2 * NumberOf(bs[..last]) + (if bs[last] then 1 else 0)
  }

  lemma {:induction false} NumberOfBits(value: nat, length: nat)
    requires value < Power2(length)
    ensures NumberOf(BitsOf(value, length)) == value
    decreases length
  {
    if length > 0 {
      NumberOfBits(value / 2, length - 1);
      assert BitsOf(value, length)[..length - 1] == BitsOf(value / 2, length - 1);
    }
  }

  lemma {:induction false} BitsOfNumber(bs: seq<bool>)
    ensures BitsOf(NumberOf(bs), |bs|) == bs
  {
    if bs != [] {
      var last := |bs| - 1;
      BitsOfNumber(bs[..last]);
      assert bs == bs[..last] + [bs[last]];
    }
  }

  function ByteBits(b: Elem): (bs: seq<bool>)
    ensures |bs| == 8
  {
    [b & 128 != 0, b & 64 != 0, b & 32 != 0, b & 16 != 0, b & 8 != 0, b & 4 != 0, b & 2 != 0, b & 1 != 0]
  }

  function Low(bit: bool): Elem {
    if bit then 1 else 0
  }

  function PushBit(value: Elem, bit: bool): Elem {
    (value << 1) | Low(bit)
  }

  function ByteOf(bs: seq<bool>): Elem
    requires |bs| <= 8
  {
    if bs == [] then 0 else PushBit(ByteOf(bs[..|bs| - 1]), bs[|bs| - 1])
  }

  function ByteOfEight(bs: seq<bool>): Elem
    requires |bs| == 8
  {
    PushBit(PushBit(PushBit(PushBit(PushBit(PushBit(PushBit(PushBit(0, bs[0]), bs[1]), bs[2]), bs[3]), bs[4]), bs[5]), bs[6]), bs[7])
  }

  lemma ByteOfUnrolled(bs: seq<bool>)
    requires |bs| == 8
    ensures ByteOf(bs) == ByteOfEight(bs)
  {
    forall k | 0 <= k < 8
      ensures ByteOf(bs[..k + 1]) == PushBit(ByteOf(bs[..k]), bs[k])
    {
      assert bs[..k + 1][..k] == bs[..k];
    }
    assert bs[..0] == [] && bs[..8] == bs;
  }

  lemma ByteBitsOfEight(bs: seq<bool>)
    requires |bs| == 8
    ensures ByteBits(ByteOfEight(bs)) == bs
  {
  }

  /** The number a byte stands for. */
  function ByteValue(b: Elem): (n: nat)
    ensures n < 256
  {
    assert Power2(8) == 256;
    NumberOf(ByteBits(b))
  }

  function AllBits(words: seq<Elem>): (bs: seq<bool>)
    ensures |bs| == 8 * |words|
  {
    if words == [] then [] else AllBits(words[..|words| - 1]) + ByteBits(words[|words| - 1])
  }

  lemma {:induction false} AllBitsConcat(p: seq<Elem>, q: seq<Elem>)
    ensures AllBits(p + q) == AllBits(p) + AllBits(q)
    decreases |q|
  {
    if q == [] {
      assert p + q == p;
    } else {
      var n := |q| - 1;
      AllBitsConcat(p, q[..n]);
      assert (p + q)[..|p| + n] == p + q[..n] && (p + q)[|p| + n] == q[n];
      hide *;
      AllBitsLast(p + q, p + q[..n], q[n]);
      AllBitsLast(q, q[..n], q[n]);
      Associates(AllBits(p), AllBits(q[..n]), ByteBits(q[n]));
    }
  }

  lemma Associates<T>(a: seq<T>, b: seq<T>, c: seq<T>)
    ensures a + b + c == a + (b + c)
  {
  }

  lemma AllBitsLast(words: seq<Elem>, front: seq<Elem>, last: Elem)
    requires words != [] && front == words[..|words| - 1] && last == words[|words| - 1]
    ensures AllBits(words) == AllBits(front) + ByteBits(last)
  {
    hide ByteBits;
  }

  function Shr(value: nat, n: nat): nat {
    if n == 0 then value else Shr(value, n - 1) / 2
  }

  lemma {:induction false} ShrBelow(value: nat, n: nat)
    ensures forall k: nat :: Shr(value, n) < k <==> value < Power2(n) * k
  {
    if n > 0 {
      ShrBelow(value, n - 1);
      forall k: nat ensures Shr(value, n) < k <==> value < Power2(n) * k {
        assert Shr(value, n) < k <==> Shr(value, n - 1) < 2 * k;
        assert Power2(n) * k == Power2(n - 1) * (2 * k);
      }
    }
  }

  // ---- the bit buffer ----

  class BitBuffer {
    var bits: seq<bool>

    constructor ()
      ensures bits == []
    {
      bits := [];
    }

    method Append(value: nat, length: int) returns (r: Result<(), QrError>)
      modifies this
      ensures r.Ok? <==> 0 <= length <= 31 && value < Power2(length)
      ensures bits == if r.Ok? then old(bits) + BitsOf(value, length) else old(bits)
      ensures r.Err? ==> r.error == InvalidBitField
    {
      if length < 0 || length > 31 {
        return Err(InvalidBitField);
      }
      ShrBelow(value, length);
      assert Shr(value, length) < 1 <==> value < Power2(length) * 1;
      if Shr(value, length) != 0 {
        return Err(InvalidBitField);
      }
      for i := length downto 0
        invariant bits == old(bits) + BitsOf(Shr(value, i), length - i)
      {
        bits := bits + [Shr(value, i) % 2 == 1];
      }
      return Ok(());
    }

    method ToBytes() returns (r: Result<seq<Elem>, QrError>)
      ensures r.Ok? <==> |bits| % 8 == 0
      ensures r.Ok? ==> AllBits(r.value) == bits
      ensures r.Err? ==> r.error == NotByteAligned
    {
      if |bits| % 8 != 0 {
        return Err(NotByteAligned);
      }
      var out: seq<Elem> := [];
      while 8 * |out| < |bits|
        invariant 8 * |out| <= |bits| && AllBits(out) == bits[..8 * |out|]
        decreases |bits| - 8 * |out|
      {
        var i := 8 * |out|;
        var chunk := bits[i..i + 8];
        var value: Elem := 0;
        for j := 0 to 8
          invariant value == ByteOf(chunk[..j])
        {
          value := PushBit(value, chunk[j]);
          assert chunk[..j + 1][..j] == chunk[..j];
        }
        assert chunk[..8] == chunk;
        ByteOfUnrolled(chunk);
        ByteBitsOfEight(chunk);
        assert bits[..i + 8] == bits[..i] + chunk;
        out := out + [value];
      }
      return Ok(out);
    }
  }

  // ---- the data code words of a payload ----

  /** Mode, length and payload fit `capacity` words, and the length fits its count field. */
  predicate FitsIn(byteLength: nat, countBits: nat, capacity: nat) {
    byteLength < Power2(countBits) && 4 + countBits + byteLength * 8 <= capacity * 8
  }

  const BYTE_MODE: seq<bool> := [false, true, false, false]
  const TERMINATOR: seq<bool> := [false, false, false, false]

  lemma ModeAndTerminator(four: nat, zero: nat)
    requires four == 4 && zero == 0
    ensures BitsOf(four, four) == BYTE_MODE && BitsOf(zero, four) == TERMINATOR && Power2(four) == 16
  {
    assert Power2(4) == 16;
  }

  lemma ByteModeNumber()
    ensures NumberOf(BYTE_MODE) == 4
  {
    ModeAndTerminator(4, 0);
    NumberOfBits(4, 4);
  }

  /** Byte mode and the length. */
  function Header(byteLength: nat, countBits: nat): (bs: seq<bool>)
    ensures |bs| == 4 + countBits
  {
    BYTE_MODE + BitsOf(byteLength, countBits)
  }

  /** Header, payload and terminator. */
  function Message(payload: seq<Elem>, countBits: nat): (bs: seq<bool>)
    ensures |bs| == 8 + countBits + 8 * |payload|
  {
    Header(|payload|, countBits) + AllBits(payload) + TERMINATOR
  }

  function PadWord(k: nat): Elem {
    if k % 2 == 0 then 0xec else 0x11
  }

  function Pads(count: nat): (ws: seq<Elem>)
    ensures |ws| == count
  {
    seq(count, k requires 0 <= k < count => PadWord(k))
  }

  /** The words hold the message, then the two pad words alternately up to the capacity. */
  ghost predicate HoldsMessage(words: seq<Elem>, payload: seq<Elem>, countBits: nat, capacity: nat) {
    && FitsIn(|payload|, countBits, capacity)
    && |words| == capacity
    && exists pads: nat :: AllBits(words) == Message(payload, countBits) + AllBits(Pads(pads))
  }

  method MakeDataCodewords(payload: seq<Elem>, version: int) returns (r: Result<seq<Elem>, QrError>)
    ensures !IsVersion(version) ==> r == Err(UnsupportedVersion)
    ensures IsVersion(version) && !Fits(|payload|, version) ==> r == Err(InvalidBitField)
    ensures IsVersion(version) && Fits(|payload|, version) ==>
      r.Ok? && HoldsMessage(r.value, payload, CountBits(version), DataCapacity(version))
  {
    if !IsVersion(version) {
      return Err(UnsupportedVersion);
    }
    r := FillCodewords(payload, if version <= 9 then 8 else 16, DataCapacity(version));
  }

  method FillCodewords(payload: seq<Elem>, countBits: nat, capacity: nat) returns (r: Result<seq<Elem>, QrError>)
    requires countBits == 8 || countBits == 16
    ensures r.Ok? <==> FitsIn(|payload|, countBits, capacity)
    ensures r.Ok? ==> HoldsMessage(r.value, payload, countBits, capacity)
    ensures r.Err? ==> r.error == InvalidBitField
  {
    hide AllBits;
    hide Message;
    var buffer := new BitBuffer();
    var refused := AppendMessage(buffer, payload, countBits, capacity);
    if refused {
      return Err(InvalidBitField);
    }
    ghost var message := buffer.bits;
    RoomForTerminator(|payload|, countBits, capacity);
    Align(buffer);
    assert buffer.bits == message;
    var bytes := buffer.ToBytes();
    var data := PadTo(bytes.value, capacity);
    ghost var pads := capacity - |bytes.value|;
    AllBitsConcat(bytes.value, Pads(pads));
    assert AllBits(data) == message + AllBits(Pads(pads));
    return Ok(data);
  }

  /** Words and count field are whole bytes, so the four bits of the terminator fit whenever the payload does. */
  lemma RoomForTerminator(byteLength: nat, countBits: nat, capacity: nat)
    requires countBits == 8 || countBits == 16
    ensures var room := capacity * 8 - (4 + countBits + 8 * byteLength);
            room < 0 || room >= 4
    ensures (8 + countBits + 8 * byteLength) % 8 == 0
  {
    var k := capacity - byteLength - (if countBits == 8 then 2 else 3);
    assert capacity * 8 - (4 + countBits + 8 * byteLength) == 8 * k + 4;
    assert 8 + countBits + 8 * byteLength == 8 * (byteLength + if countBits == 8 then 2 else 3);
  }

  method AppendMessage(buffer: BitBuffer, payload: seq<Elem>, countBits: nat, capacity: nat) returns (refused: bool)
    requires countBits == 8 || countBits == 16
    requires buffer.bits == []
    modifies buffer
    ensures refused <==> !FitsIn(|payload|, countBits, capacity)
    ensures !refused ==> buffer.bits == Message(payload, countBits)
  {
    var capacityBits := capacity * 8;
    refused := AppendHeader(buffer, |payload|, countBits);
    if refused {
      return;
    }
    ghost var header := Header(|payload|, countBits);
    assert buffer.bits == header;
    AppendPayload(buffer, payload);
    ghost var body := header + AllBits(payload);
    assert buffer.bits == body;
    RoomForTerminator(|payload|, countBits, capacity);
    refused := AppendTerminator(buffer, capacityBits - |buffer.bits|);
  }

  method AppendTerminator(buffer: BitBuffer, room: int) returns (refused: bool)
    requires room < 0 || room >= 4
    modifies buffer
    ensures refused <==> room < 0
    ensures !refused ==> buffer.bits == old(buffer.bits) + TERMINATOR
  {
    var width := if room < 4 then room else 4;
    var terminator := 0;
    var terminated := buffer.Append(terminator, width);
    refused := terminated.Err?;
    if !refused {
      ModeAndTerminator(width, terminator);
    }
  }

  method Align(buffer: BitBuffer)
    modifies buffer
    ensures |buffer.bits| % 8 == 0 && old(buffer.bits) <= buffer.bits && |buffer.bits| < |old(buffer.bits)| + 8
    ensures |old(buffer.bits)| % 8 == 0 ==> buffer.bits == old(buffer.bits)
  {
    ghost var target := (|buffer.bits| + 7) / 8 * 8;
    while |buffer.bits| % 8 != 0
      invariant old(buffer.bits) <= buffer.bits && |buffer.bits| <= target
      decreases target - |buffer.bits|
    {
      buffer.bits := buffer.bits + [false];
    }
  }

  lemma ConcatAssoc<T>(a: seq<T>, b: seq<T>, c: seq<T>)
    ensures (a + b) + c == a + (b + c)
  {
  }

  method AppendHeader(buffer: BitBuffer, byteLength: nat, countBits: nat) returns (refused: bool)
    requires countBits == 8 || countBits == 16
    modifies buffer
    ensures refused <==> byteLength >= Power2(countBits)
    ensures !refused ==> buffer.bits == old(buffer.bits) + Header(byteLength, countBits)
  {
    var byteMode := 4;
    ModeAndTerminator(byteMode, 0);
    var mode := buffer.Append(byteMode, byteMode);
    assert buffer.bits == old(buffer.bits) + BYTE_MODE;
    ConcatAssoc(old(buffer.bits), BYTE_MODE, BitsOf(byteLength, countBits));
    var count := buffer.Append(byteLength, countBits);
    refused := count.Err?;
  }

  method AppendByte(buffer: BitBuffer, b: Elem)
    modifies buffer
    ensures buffer.bits == old(buffer.bits) + ByteBits(b)
  {
    assert Power2(8) == 256;
    hide ByteBits;
    var r := buffer.Append(ByteValue(b), 8);
    BitsOfNumber(ByteBits(b));
  }

  method AppendPayload(buffer: BitBuffer, payload: seq<Elem>)
    modifies buffer
    ensures buffer.bits == old(buffer.bits) + AllBits(payload)
  {
    hide ByteBits;
    for k := 0 to |payload|
      invariant buffer.bits == old(buffer.bits) + AllBits(payload[..k])
    {
      AppendByte(buffer, payload[k]);
      assert payload[..k + 1][..k] == payload[..k];
    }
    assert payload[..|payload|] == payload;
  }

  method PadTo(message: seq<Elem>, capacity: nat) returns (data: seq<Elem>)
    requires |message| <= capacity
    ensures data == message + Pads(capacity - |message|)
  {
    data := message;
    var pad := 0;
    while |data| < capacity
      invariant |data| == |message| + pad <= capacity
      invariant data == message + Pads(pad)
    {
      data := data + [if pad % 2 == 0 then 0xec else 0x11];
      assert Pads(pad + 1) == Pads(pad) + [PadWord(pad)];
      pad := pad + 1;
    }
  }

  // ---- reading the payload back ----

  function BytesOf(bs: seq<bool>): (words: seq<Elem>)
    requires |bs| % 8 == 0
  {
    if bs == [] then [] else [ByteOfEight(bs[..8])] + BytesOf(bs[8..])
  }

  function Octets(bs: seq<bool>, start: nat, n: nat): (octets: seq<bool>)
    requires start + 8 * n <= |bs|
    ensures |octets| % 8 == 0
  {
    bs[start..start + 8 * n]
  }

  /** A reader of the data code words: mode, count, then that many bytes. */
  function ReadPayload(words: seq<Elem>, countBits: nat): Option<seq<Elem>> {
    var bs := AllBits(words);
    var start := 4 + countBits;
    if |bs| < start || NumberOf(bs[..4]) != 4 then None
    else
      var n := NumberOf(bs[4..start]);
      if start + 8 * n > |bs| then None else Some(BytesOf(Octets(bs, start, n)))
  }

  lemma ByteOfEightBits(b: Elem)
    ensures ByteOfEight(ByteBits(b)) == b
  {
  }

  lemma {:induction false} BytesOfAllBits(words: seq<Elem>)
    ensures BytesOf(AllBits(words)) == words
    decreases |words|
  {
    if words != [] {
      var first, rest := words[0], words[1..];
      AllBitsConcat([first], rest);
      assert words == [first] + rest;
      assert AllBits([first]) == ByteBits(first) by { assert [first][..0] == []; }
      ByteOfEightBits(first);
      assert AllBits(words)[..8] == ByteBits(first) && AllBits(words)[8..] == AllBits(rest);
      BytesOfAllBits(rest);
    }
  }

  lemma Slices(mode: seq<bool>, count: seq<bool>, payload: seq<bool>, rest: seq<bool>, bs: seq<bool>)
    requires |mode| == 4 && bs == mode + count + payload + rest
    ensures bs[..4] == mode && bs[4..4 + |count|] == count
    ensures bs[4 + |count|..4 + |count| + |payload|] == payload
  {
  }

  lemma MessageParts(payload: seq<Elem>, countBits: nat, rest: seq<bool>, bs: seq<bool>)
    requires bs == Message(payload, countBits) + rest
    ensures |bs| >= 4 + countBits + 8 * |payload|
    ensures bs[..4] == BYTE_MODE && bs[4..4 + countBits] == BitsOf(|payload|, countBits)
    ensures bs[4 + countBits..4 + countBits + 8 * |payload|] == AllBits(payload)
  {
    var count, bits := BitsOf(|payload|, countBits), AllBits(payload);
    assert bs == BYTE_MODE + count + bits + (TERMINATOR + rest);
    Slices(BYTE_MODE, count, bits, TERMINATOR + rest, bs);
  }

  /** The data code words give the payload back. */
  lemma PayloadReadBack(words: seq<Elem>, payload: seq<Elem>, countBits: nat, capacity: nat)
    requires HoldsMessage(words, payload, countBits, capacity)
    ensures ReadPayload(words, countBits) == Some(payload)
  {
    var pads: nat :| AllBits(words) == Message(payload, countBits) + AllBits(Pads(pads));
    var bs := AllBits(words);
    MessageParts(payload, countBits, AllBits(Pads(pads)), bs);
    ByteModeNumber();
    assert NumberOf(bs[4..4 + countBits]) == |payload| by { NumberOfBits(|payload|, countBits); }
    BytesOfAllBits(payload);
  }
}
