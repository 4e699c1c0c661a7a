/** Block interleaving of clients/ui/src/qr.ts.  `Deinterleave` is a reader written from the positions of
    the words alone; the lemmas show that it returns every block, and that every block is a code word. */
module QrInterleave {
  import opened Results
  import opened GaloisField
  import opened ReedSolomon
  import opened QrData

  type Words = seq<Elem>

  // ---- partition ----

  /** The part of `data` from `lo` up to `hi`, cut off at the end of `data`. */
  function Slice(data: Words, lo: nat, hi: nat): Words
    requires lo <= hi
  {
    if |data| <= lo then [] else if |data| <= hi then data[lo..] else data[lo..hi]
  }

  /** Block k of the data: it begins where the blocks before it end. */
  function Part(data: Words, blocks: seq<BlockSpec>, k: nat): Words
    requires k < |blocks|
  {
    var offset := DataTotal(blocks[..k]);
    Slice(data, offset, offset + blocks[k].data)
  }

  function DataBlocks(data: Words, blocks: seq<BlockSpec>): (parts: seq<Words>)
    ensures |parts| == |blocks|
  {
    seq(|blocks|, k requires 0 <= k < |blocks| => Part(data, blocks, k))
  }

  predicate ProperBlocks(blocks: seq<BlockSpec>) {
    forall b :: b in blocks ==> b.data < b.total <= 255
  }

  /** The check symbols of a block of data. */
  function Check(part: Words, spec: BlockSpec): (check: Words)
    requires spec.data < spec.total
    ensures |check| == spec.total - spec.data
  {
    CheckSymbols(part, spec.total - spec.data)
  }

  function EccBlocks(parts: seq<Words>, blocks: seq<BlockSpec>): (checks: seq<Words>)
    requires |parts| == |blocks| && ProperBlocks(blocks)
    ensures |checks| == |blocks|
  {
    seq(|blocks|, k requires 0 <= k < |blocks| => Check(parts[k], blocks[k]))
  }

  function Flat(parts: seq<Words>): Words {
    if parts == [] then [] else Flat(parts[..|parts| - 1]) + parts[|parts| - 1]
  }

  lemma {:induction false} TotalsSnoc(blocks: seq<BlockSpec>)
    requires blocks != []
    ensures var last := |blocks| - 1;
            && DataTotal(blocks) == DataTotal(blocks[..last]) + blocks[last].data
            && WordTotal(blocks) == WordTotal(blocks[..last]) + blocks[last].total
    decreases |blocks|
  {
    var last := |blocks| - 1;
    if last > 0 {
      TotalsSnoc(blocks[1..]);
      assert blocks[1..][..last - 1] == blocks[..last][1..];
    }
  }

  lemma TotalBefore(blocks: seq<BlockSpec>, k: nat)
    requires k < |blocks|
    ensures DataTotal(blocks[..k + 1]) == DataTotal(blocks[..k]) + blocks[k].data
  {
    assert blocks[..k + 1][..k] == blocks[..k];
    TotalsSnoc(blocks[..k + 1]);
  }

  lemma {:induction false} TotalMonotone(blocks: seq<BlockSpec>, k: nat)
    requires k <= |blocks|
    ensures DataTotal(blocks[..k]) <= DataTotal(blocks)
    decreases |blocks| - k
  {
    if k < |blocks| {
      TotalBefore(blocks, k);
      TotalMonotone(blocks, k + 1);
    } else {
      assert blocks[..k] == blocks;
    }
  }

  lemma PartLength(data: Words, blocks: seq<BlockSpec>, k: nat)
    requires |data| == DataTotal(blocks) && k < |blocks|
    ensures |Part(data, blocks, k)| == blocks[k].data
    ensures DataTotal(blocks[..k]) <= DataTotal(blocks[..k + 1]) <= |data|
    ensures data[..DataTotal(blocks[..k])] + Part(data, blocks, k) == data[..DataTotal(blocks[..k + 1])]
  {
    TotalBefore(blocks, k);
    TotalMonotone(blocks, k + 1);
  }

  lemma {:induction false} PrefixJoins(data: Words, blocks: seq<BlockSpec>, k: nat)
    requires |data| == DataTotal(blocks) && k <= |blocks|
    ensures DataTotal(blocks[..k]) <= |data|
    ensures Flat(DataBlocks(data, blocks)[..k]) == data[..DataTotal(blocks[..k])]
    decreases k
  {
    if k > 0 {
      var parts := DataBlocks(data, blocks);
      PrefixJoins(data, blocks, k - 1);
      PartLength(data, blocks, k - 1);
      assert parts[..k][..k - 1] == parts[..k - 1];
    }
  }

  /** Data of the right length is cut into blocks of the specified lengths that join to the data. */
  lemma PartsJoin(data: Words, blocks: seq<BlockSpec>)
    requires |data| == DataTotal(blocks)
    ensures Flat(DataBlocks(data, blocks)) == data
    ensures Lengths(DataBlocks(data, blocks)) == DataLengths(blocks)
  {
    PrefixJoins(data, blocks, |blocks|);
    assert blocks[..|blocks|] == blocks && DataBlocks(data, blocks)[..|blocks|] == DataBlocks(data, blocks);
    forall k | 0 <= k < |blocks|
      ensures |DataBlocks(data, blocks)[k]| == blocks[k].data
    {
      PartLength(data, blocks, k);
    }
  }

  // ---- columns ----

  /** The words in row i of the blocks that have one. */
  function Column(parts: seq<Words>, i: nat): Words {
    if parts == [] then []
    else
      var last := |parts| - 1;
      Column(parts[..last], i) + (if i < |parts[last]| then [parts[last][i]] else [])
  }

  /** The first n rows, one after another. */
  function Rows(parts: seq<Words>, n: nat): Words {
    if n == 0 then [] else Rows(parts, n - 1) + Column(parts, n - 1)
  }

  function Lengths(parts: seq<Words>): (lens: seq<nat>)
    ensures |lens| == |parts|
  {
    seq(|parts|, k requires 0 <= k < |parts| => |parts[k]|)
  }

  function Longest(lens: seq<nat>): (n: nat)
    ensures forall k :: 0 <= k < |lens| ==> lens[k] <= n
  {
    if lens == [] then 0
    else
      var last := |lens| - 1;
      var rest := Longest(lens[..last]);
      if rest < lens[last] then lens[last] else rest
  }

  function Interleaved(parts: seq<Words>): Words {
    Rows(parts, Longest(Lengths(parts)))
  }

  // ---- positions ----

  /** How many of the blocks have a word in row i. */
  function Wide(lens: seq<nat>, i: nat): (n: nat)
    ensures n <= |lens|
  {
    if lens == [] then 0 else Wide(lens[..|lens| - 1], i) + (if i < lens[|lens| - 1] then 1 else 0)
  }

  /** How many words rows 0 to n - 1 hold together. */
  function Before(lens: seq<nat>, n: nat): nat {
    if n == 0 then 0 else Before(lens, n - 1) + Wide(lens, n - 1)
  }

  /** Where the word in row i of block b stands in the interleaved stream. */
  function Position(lens: seq<nat>, b: nat, i: nat): nat
    requires b < |lens|
  {
    Before(lens, i) + Wide(lens[..b], i)
  }

  lemma {:induction false} ColumnAt(parts: seq<Words>, b: nat, i: nat)
    requires b < |parts| && i < |parts[b]|
    ensures |Column(parts, i)| == Wide(Lengths(parts), i)
    ensures Wide(Lengths(parts)[..b], i) < |Column(parts, i)|
    ensures Column(parts, i)[Wide(Lengths(parts)[..b], i)] == parts[b][i]
    decreases |parts|
  {
    var last := |parts| - 1;
    var lens := Lengths(parts);
    assert Lengths(parts[..last]) == lens[..last];
    ColumnLength(parts, i);
    ColumnLength(parts[..last], i);
    if b < last {
      ColumnAt(parts[..last], b, i);
      assert lens[..last][..b] == lens[..b];
    }
  }

  lemma {:induction false} ColumnLength(parts: seq<Words>, i: nat)
    ensures |Column(parts, i)| == Wide(Lengths(parts), i)
    decreases |parts|
  {
    if parts != [] {
      var last := |parts| - 1;
      assert Lengths(parts[..last]) == Lengths(parts)[..last];
      ColumnLength(parts[..last], i);
    }
  }

  lemma {:induction false} RowsAt(parts: seq<Words>, b: nat, i: nat, n: nat)
    requires b < |parts| && i < |parts[b]|
    ensures |Rows(parts, n)| == Before(Lengths(parts), n)
    ensures i < n ==> Position(Lengths(parts), b, i) < |Rows(parts, n)|
    ensures i < n ==> Rows(parts, n)[Position(Lengths(parts), b, i)] == parts[b][i]
    decreases n
  {
    hide Column;
    hide Wide;
    if n > 0 {
      RowsAt(parts, b, i, n - 1);
      ColumnLength(parts, n - 1);
      ColumnAt(parts, b, i);
    }
  }

  /** The word in row i of block b stands at its position. */
  lemma InterleavedAt(parts: seq<Words>, b: nat, i: nat)
    requires b < |parts| && i < |parts[b]|
    ensures Position(Lengths(parts), b, i) < |Interleaved(parts)|
    ensures Interleaved(parts)[Position(Lengths(parts), b, i)] == parts[b][i]
  {
    assert Lengths(parts)[b] == |parts[b]|;
    RowsAt(parts, b, i, Longest(Lengths(parts)));
  }

  function Sum(lens: seq<nat>): nat {
    if lens == [] then 0 else Sum(lens[..|lens| - 1]) + lens[|lens| - 1]
  }

  function Capped(lens: seq<nat>, n: nat): (capped: seq<nat>)
    ensures |capped| == |lens|
  {
    seq(|lens|, k requires 0 <= k < |lens| => if lens[k] < n then lens[k] else n)
  }

  lemma {:induction false} CappedStep(lens: seq<nat>, n: nat)
    ensures Sum(Capped(lens, n + 1)) == Sum(Capped(lens, n)) + Wide(lens, n)
    decreases |lens|
  {
    if lens != [] {
      var last := |lens| - 1;
      CappedStep(lens[..last], n);
      assert Capped(lens, n)[..last] == Capped(lens[..last], n);
      assert Capped(lens, n + 1)[..last] == Capped(lens[..last], n + 1);
    }
  }

  lemma {:induction false} CappedZero(lens: seq<nat>)
    ensures Sum(Capped(lens, 0)) == 0
    decreases |lens|
  {
    if lens != [] {
      var last := |lens| - 1;
      CappedZero(lens[..last]);
      assert Capped(lens, 0)[..last] == Capped(lens[..last], 0);
    }
  }

  lemma {:induction false} BeforeIsCapped(lens: seq<nat>, n: nat)
    ensures Before(lens, n) == Sum(Capped(lens, n))
    decreases n
  {
    if n == 0 {
      CappedZero(lens);
    } else {
      BeforeIsCapped(lens, n - 1);
      CappedStep(lens, n - 1);
    }
  }

  lemma {:induction false} RowsLength(parts: seq<Words>, n: nat)
    ensures |Rows(parts, n)| == Before(Lengths(parts), n)
    decreases n
  {
    hide Column;
    hide Wide;
    if n > 0 {
      RowsLength(parts, n - 1);
      ColumnLength(parts, n - 1);
    }
  }

  /** Interleaving keeps every word: as many come out as the blocks hold. */
  lemma InterleavedLength(parts: seq<Words>)
    ensures |Interleaved(parts)| == Sum(Lengths(parts))
  {
    var lens := Lengths(parts);
    RowsLength(parts, Longest(lens));
    BeforeIsCapped(lens, Longest(lens));
    assert Capped(lens, Longest(lens)) == lens;
  }

  // ---- the reader ----

  function WordAt(words: Words, k: nat): Elem {
    if k < |words| then words[k] else 0
  }

  function ReadBlock(lens: seq<nat>, words: Words, b: nat): (part: Words)
    requires b < |lens|
  {
    seq(lens[b], i requires i >= 0 => WordAt(words, Position(lens, b, i)))
  }

  /** Blocks of the given lengths, read out of an interleaved stream. */
  function Deinterleave(lens: seq<nat>, words: Words): (parts: seq<Words>)
    ensures |parts| == |lens|
  {
    seq(|lens|, b requires 0 <= b < |lens| => ReadBlock(lens, words, b))
  }

  /** The reader returns the blocks. */
  lemma DeinterleaveInterleaved(parts: seq<Words>)
    ensures Deinterleave(Lengths(parts), Interleaved(parts)) == parts
  {
    var read := Deinterleave(Lengths(parts), Interleaved(parts));
    forall b | 0 <= b < |parts|
      ensures read[b] == parts[b]
    {
      forall i | 0 <= i < |parts[b]|
        ensures read[b][i] == parts[b][i]
      {
        InterleavedAt(parts, b, i);
      }
    }
  }

  // ---- the method ----

  method AppendColumn(result: Words, parts: seq<Words>, i: nat) returns (longer: Words)
    ensures longer == result + Column(parts, i)
  {
    longer := result;
    for k := 0 to |parts|
      invariant longer == result + Column(parts[..k], i)
    {
      assert parts[..k + 1][..k] == parts[..k];
      if i < |parts[k]| {
        longer := longer + [parts[k][i]];
      }
    }
    assert parts[..|parts|] == parts;
  }

  method LongestPart(parts: seq<Words>) returns (n: nat)
    ensures n == Longest(Lengths(parts))
  {
    n := 0;
    for k := 0 to |parts|
      invariant n == Longest(Lengths(parts)[..k])
    {
      assert Lengths(parts)[..k + 1][..k] == Lengths(parts)[..k];
      if n < |parts[k]| {
        n := |parts[k]|;
      }
    }
    assert Lengths(parts)[..|parts|] == Lengths(parts);
  }

  method AppendInterleaved(result: Words, parts: seq<Words>) returns (longer: Words)
    ensures longer == result + Interleaved(parts)
  {
    longer := result;
    var longest := LongestPart(parts);
    for i := 0 to longest
      invariant longer == result + Rows(parts, i)
    {
      longer := AppendColumn(longer, parts, i);
    }
  }

  lemma ProperSequence(specs: seq<BlockSpec>)
    requires ProperBlocks(specs)
    ensures ProperBlocks(BlockSequence(specs))
  {
  }

  lemma VersionBlocks(version: int)
    requires IsVersion(version)
    ensures ProperBlocks(BlockList(version))
  {
    var specs := RS_BLOCKS_M[version - 1];
    forall b | b in specs
      ensures b.data < b.total <= 255
    {
    }
    ProperSequence(specs);
  }

  method Partition(data: Words, blocks: seq<BlockSpec>) returns (dataBlocks: seq<Words>, eccBlocks: seq<Words>, offset: nat)
    requires ProperBlocks(blocks)
    ensures dataBlocks == DataBlocks(data, blocks)
    ensures eccBlocks == EccBlocks(dataBlocks, blocks)
    ensures offset == DataTotal(blocks)
  {
    hide CheckSymbols;
    hide Slice;
    assert DataTotal(blocks[..0]) == 0;
    hide DataTotal;
    dataBlocks, eccBlocks, offset := [], [], 0;
    for k := 0 to |blocks|
      invariant |dataBlocks| == |eccBlocks| == k
      invariant offset == DataTotal(blocks[..k])
      invariant dataBlocks == DataBlocks(data, blocks)[..k]
      invariant eccBlocks == EccBlocks(DataBlocks(data, blocks), blocks)[..k]
    {
      TotalBefore(blocks, k);
      var spec := blocks[k];
      var part := Slice(data, offset, offset + spec.data);
      offset := offset + spec.data;
      dataBlocks := dataBlocks + [part];
      var check := RsRemainder(part, spec.total - spec.data);
      assert check == Check(part, spec);
      eccBlocks := eccBlocks + [check];
    }
    assert blocks[..|blocks|] == blocks;
  }

  method InterleaveCodewords(data: Words, version: int) returns (r: Result<Words, QrError>)
    ensures !IsVersion(version) ==> r == Err(UnsupportedVersion)
    ensures IsVersion(version) && |data| != DataCapacity(version) ==> r == Err(PartitionMismatch)
    ensures IsVersion(version) && |data| == DataCapacity(version) ==> r.Ok? && CarriesBlocks(r.value, data, BlockList(version))
  {
    if !IsVersion(version) {
      return Err(UnsupportedVersion);
    }
    VersionBlocks(version);
    r := InterleaveBlocks(data, BlockList(version));
  }

  method InterleaveBlocks(data: Words, blocks: seq<BlockSpec>) returns (r: Result<Words, QrError>)
    requires ProperBlocks(blocks)
    ensures |data| != DataTotal(blocks) ==> r == Err(PartitionMismatch)
    ensures |data| == DataTotal(blocks) ==> r.Ok? && CarriesBlocks(r.value, data, blocks)
  {
    hide CheckSymbols;
    var dataBlocks, eccBlocks, offset := Partition(data, blocks);
    if offset != |data| {
      return Err(PartitionMismatch);
    }
    var result := AppendInterleaved([], dataBlocks);
    result := AppendInterleaved(result, eccBlocks);
    return Ok(result);
  }

  /** The stream is the interleaved data blocks, then the interleaved check symbols of each block. */
  ghost predicate CarriesBlocks(words: Words, data: Words, blocks: seq<BlockSpec>) {
    && ProperBlocks(blocks)
    && var parts := DataBlocks(data, blocks);
       words == Interleaved(parts) + Interleaved(EccBlocks(parts, blocks))
  }

  // ---- reading all blocks of a symbol ----

  function DataLengths(blocks: seq<BlockSpec>): (lens: seq<nat>)
    ensures |lens| == |blocks|
  {
    seq(|blocks|, k requires 0 <= k < |blocks| => blocks[k].data)
  }

  function EccLengths(blocks: seq<BlockSpec>): (lens: seq<nat>)
    requires ProperBlocks(blocks)
    ensures |lens| == |blocks|
  {
    seq(|blocks|, k requires 0 <= k < |blocks| => blocks[k].total - blocks[k].data)
  }

  lemma {:induction false} SumOfData(blocks: seq<BlockSpec>)
    requires ProperBlocks(blocks)
    ensures Sum(DataLengths(blocks)) == DataTotal(blocks)
    ensures Sum(DataLengths(blocks)) + Sum(EccLengths(blocks)) == WordTotal(blocks)
    decreases |blocks|
  {
    if blocks != [] {
      var last := |blocks| - 1;
      SumOfData(blocks[..last]);
      TotalsSnoc(blocks);
      assert DataLengths(blocks)[..last] == DataLengths(blocks[..last]);
      assert EccLengths(blocks)[..last] == EccLengths(blocks[..last]);
    }
  }

  /** The data blocks of a symbol, and the check symbols of each, as a reader finds them. */
  function ReadDataBlocks(words: Words, blocks: seq<BlockSpec>): seq<Words> {
    Deinterleave(DataLengths(blocks), Slice(words, 0, DataTotal(blocks)))
  }

  function ReadEccBlocks(words: Words, blocks: seq<BlockSpec>): seq<Words>
    requires ProperBlocks(blocks)
  {
    Deinterleave(EccLengths(blocks), Slice(words, DataTotal(blocks), DataTotal(blocks) + |words|))
  }

  /** The reader finds the blocks and their check symbols again. */
  lemma BlocksReadBack(words: Words, data: Words, blocks: seq<BlockSpec>)
    requires |data| == DataTotal(blocks) && CarriesBlocks(words, data, blocks)
    ensures |words| == WordTotal(blocks)
    ensures ReadDataBlocks(words, blocks) == DataBlocks(data, blocks)
    ensures ReadEccBlocks(words, blocks) == EccBlocks(DataBlocks(data, blocks), blocks)
    ensures Flat(ReadDataBlocks(words, blocks)) == data
  {
    hide Interleaved;
    hide Deinterleave;
    hide Flat;
    hide Sum;
    hide DataTotal;
    hide Slice;
    hide Check;
    var parts := DataBlocks(data, blocks);
    var checks := EccBlocks(parts, blocks);
    PartsJoin(data, blocks);
    assert Lengths(checks) == EccLengths(blocks);
    SumOfData(blocks);
    InterleavedLength(parts);
    InterleavedLength(checks);
    Halves(words, Interleaved(parts), Interleaved(checks));
    DeinterleaveInterleaved(parts);
    DeinterleaveInterleaved(checks);
  }

  lemma Halves(words: Words, front: Words, back: Words)
    requires words == front + back
    ensures Slice(words, 0, |front|) == front
    ensures Slice(words, |front|, |front| + |words|) == back
  {
  }

  lemma CheckedBlock(part: Words, spec: BlockSpec)
    requires spec.data < spec.total
    ensures IsCodeword(part + Check(part, spec), spec.total - spec.data)
  {
    hide CheckSymbols;
    hide IsCodeword;
    DataWithCheckSymbols(part, spec.total - spec.data);
  }

  /** Each block a reader finds, with its check symbols, is a Reed-Solomon code word of the block's length. */
  lemma BlocksAreCodewords(words: Words, data: Words, blocks: seq<BlockSpec>, b: nat)
    requires |data| == DataTotal(blocks) && CarriesBlocks(words, data, blocks)
    requires b < |blocks|
    ensures var block := ReadDataBlocks(words, blocks)[b] + ReadEccBlocks(words, blocks)[b];
            && |block| == blocks[b].total <= 255
            && IsCodeword(block, blocks[b].total - blocks[b].data)
  {
    BlocksReadBack(words, data, blocks);
    PartsJoin(data, blocks);
    var part, spec := DataBlocks(data, blocks)[b], blocks[b];
    assert Lengths(DataBlocks(data, blocks))[b] == spec.data;
    CheckedBlock(part, spec);
  }
}
