/** The symbol of clients/ui/src/qr.ts: masking, the choice of the mask, and the whole encoder; and a reader
    of symbols, written from the layout, that returns the payload of every symbol the encoder draws. */
module QrCode {
  import opened Results
  import opened GaloisField
  import opened QrData
  import opened QrInterleave
  import opened QrFormat
  import opened QrWalk
  import opened QrCanvas
  import opened QrCapacity

  type Grid = seq<seq<bool>>

  // ---- masking ----

  function MaskBit(mask: nat, x: nat, y: nat): bool
    requires mask < 8
  {
    match mask
    case 0 => (x + y) % 2 == 0
    case 1 => y % 2 == 0
    case 2 => x % 3 == 0
    case 3 => (x + y) % 3 == 0
    case 4 => (y / 2 + x / 3) % 2 == 0
    case 5 => (x * y) % 2 + (x * y) % 3 == 0
    case 6 => ((x * y) % 2 + (x * y) % 3) % 2 == 0
    case _ => ((x + y) % 2 + (x * y) % 3) % 2 == 0
  }

  /** What a symbol shows at a module, given the placed but unmasked data. */
  function Shown(version: int, mask: nat, x: nat, y: nat, placed: bool): bool
    requires IsVersion(version) && mask < 8
  {
    if IsFunction(version, x, y) then Ink(version, mask, x, y) else placed != MaskBit(mask, x, y)
  }

  predicate IsGrid(grid: Grid, size: int) {
    |grid| == size && forall y :: 0 <= y < |grid| ==> |grid[y]| == size
  }

  function Picture(matrix: array2<bool>): (grid: Grid)
    reads matrix
    requires matrix.Length0 == matrix.Length1
    ensures IsGrid(grid, matrix.Length0)
    ensures forall y, x :: Inside(matrix.Length0, x, y) ==> grid[y][x] == matrix[y, x]
  {
    seq(matrix.Length0, y requires 0 <= y < matrix.Length0 reads matrix =>
      seq(matrix.Length1, x requires 0 <= x < matrix.Length1 reads matrix => matrix[y, x]))
  }

  /** The symbol of a stream of code words: function modules show their patterns, and data module k of the
      walk shows bit k under the mask. */
  ghost predicate IsSymbol(grid: Grid, version: int, mask: nat, words: seq<Elem>)
    requires IsVersion(version) && mask < 8
  {
    var size, cells := Size(version), DataCells(version);
    && IsGrid(grid, size)
    && (forall y, x :: Inside(size, x, y) && IsFunction(version, x, y) ==> grid[y][x] == Ink(version, mask, x, y))
    && (forall k :: 0 <= k < |cells| ==> Inside(size, cells[k].0, cells[k].1))
    && (forall k :: 0 <= k < |cells| ==> grid[cells[k].1][cells[k].0] == (StreamBit(words, k) != MaskBit(mask, cells[k].0, cells[k].1)))
  }

  /** Function patterns and walk together reach every module, so there is one symbol of a stream and a mask. */
  lemma SymbolDetermined(grid: Grid, grid': Grid, version: int, mask: nat, words: seq<Elem>)
    requires IsVersion(version) && mask < 8
    requires IsSymbol(grid, version, mask, words) && IsSymbol(grid', version, mask, words)
    ensures grid == grid'
  {
    hide Ink;
    hide MaskBit;
    hide StreamBit;
    hide FreeCells;
    var size, cells := Size(version), DataCells(version);
    WalkVisitsOnce(FunctionMap(version), size);
    forall y, x | Inside(size, x, y)
      ensures grid[y][x] == grid'[y][x]
    {
      if !IsFunction(version, x, y) {
        assert (x, y) in cells;
        var k :| 0 <= k < |cells| && cells[k] == (x, y);
        assert Inside(size, cells[k].0, cells[k].1);
      }
    }
    forall y | 0 <= y < size
      ensures grid[y] == grid'[y]
    {
    }
  }

  // ---- one candidate ----

  /** The matrices of a canvas once patterns and stream are in place. */
  ghost predicate Ready(canvas: Canvas, version: int, words: seq<Elem>)
    requires IsVersion(version)
    reads canvas.modules, canvas.functions
  {
    var cells := DataCells(version);
    && canvas.Valid() && canvas.size == Size(version)
    && (forall y, x :: Inside(canvas.size, x, y) ==> canvas.functions[y, x] == IsFunction(version, x, y))
    && (forall y, x :: Inside(canvas.size, x, y) && IsFunction(version, x, y) ==> canvas.modules[y, x] == Ink(version, 0, x, y))
    && (forall k :: 0 <= k < |cells| ==> Inside(canvas.size, cells[k].0, cells[k].1))
    && (forall k :: 0 <= k < |cells| ==> canvas.modules[cells[k].1, cells[k].0] == StreamBit(words, k))
  }

  /** The unmasked modules with the mask's bits flipped outside the function modules. */
  method Flipped(canvas: Canvas, mask: nat) returns (candidate: array2<bool>)
    requires canvas.Valid() && mask < 8
    ensures fresh(candidate) && candidate.Length0 == candidate.Length1 == canvas.size
    ensures forall y, x :: Inside(canvas.size, x, y) ==>
      candidate[y, x] == (canvas.modules[y, x] != (!canvas.functions[y, x] && MaskBit(mask, x, y)))
  {
    hide MaskBit;
    var size := canvas.size;
    candidate := new bool[size, size]((y, x) requires Inside(size, x, y) reads canvas.modules => canvas.modules[y, x]);
    for y := 0 to size
      invariant forall j, i :: Inside(size, i, j) ==>
        candidate[j, i] == (canvas.modules[j, i] != (j < y && !canvas.functions[j, i] && MaskBit(mask, i, j)))
    {
      for x := 0 to size
        invariant forall j, i :: Inside(size, i, j) ==>
          candidate[j, i] == (canvas.modules[j, i] != ((j < y || (j == y && i < x)) && !canvas.functions[j, i] && MaskBit(mask, i, j)))
      {
        if !canvas.functions[y, x] && MaskBit(mask, x, y) {
          candidate[y, x] := !candidate[y, x];
        }
      }
    }
  }

  method Candidate(canvas: Canvas, mask: nat, ghost version: int, ghost words: seq<Elem>) returns (candidate: array2<bool>)
    requires IsVersion(version) && mask < 8 && Ready(canvas, version, words)
    ensures fresh(candidate) && candidate.Length0 == candidate.Length1 == canvas.size
    ensures IsSymbol(Picture(candidate), version, mask, words)
  {
    hide MaskBit;
    hide StreamBit;
    hide FreeCells;
    hide PatternInk;
    hide FormatInk;
    hide VersionBit;
    hide VersionArea;
    candidate := Flipped(canvas, mask);
    DrawFormat(candidate, mask);
    CellsAreData(version);
  }

  lemma CellsAreData(version: int)
    requires IsVersion(version)
    ensures forall k :: 0 <= k < |DataCells(version)| ==>
      !IsFunction(version, DataCells(version)[k].0, DataCells(version)[k].1)
  {
    hide FreeCells;
    hide IsFunction;
    WalkVisitsOnce(FunctionMap(version), Size(version));
    forall k | 0 <= k < |DataCells(version)|
      ensures !IsFunction(version, DataCells(version)[k].0, DataCells(version)[k].1)
    {
      assert DataCells(version)[k] in DataCells(version);
    }
  }

  // ---- the choice of the mask ----

  /** No mask's symbol scores lower, and none of an earlier mask as low. */
  ghost predicate IsBest(grid: Grid, mask: nat, version: int, words: seq<Elem>, score: Grid -> int, masks: nat)
    requires IsVersion(version) && mask < 8 && masks <= 8
  {
    forall m: nat, g: Grid :: m < masks && IsSymbol(g, version, m, words) ==>
      score(grid) <= score(g) && (m < mask ==> score(grid) < score(g))
  }

  /** The first candidate always beats the initial infinite penalty, so the loop starts from it. */
  method SelectMask(canvas: Canvas, version: int, words: seq<Elem>, score: Grid -> int) returns (best: array2<bool>, ghost mask: nat)
    requires IsVersion(version) && Ready(canvas, version, words)
    ensures fresh(best) && best.Length0 == best.Length1 == canvas.size && mask < 8
    ensures IsSymbol(Picture(best), version, mask, words)
    ensures IsBest(Picture(best), mask, version, words, score, 8)
  {
    hide Ready;
    hide IsSymbol;
    best := Candidate(canvas, 0, version, words);
    var bestPenalty := score(Picture(best));
    mask := 0;
    forall g: Grid | IsSymbol(g, version, 0, words)
      ensures g == Picture(best)
    {
      SymbolDetermined(g, Picture(best), version, 0, words);
    }
    for m := 1 to 8
      invariant mask < m && fresh(best) && best.Length0 == best.Length1 == canvas.size
      invariant IsSymbol(Picture(best), version, mask, words) && bestPenalty == score(Picture(best))
      invariant IsBest(Picture(best), mask, version, words, score, m)
      invariant Ready(canvas, version, words)
    {
      var candidate := Candidate(canvas, m, version, words);
      var candidatePenalty := score(Picture(candidate));
      forall g: Grid | IsSymbol(g, version, m, words)
        ensures g == Picture(candidate)
      {
        SymbolDetermined(g, Picture(candidate), version, m, words);
      }
      if candidatePenalty < bestPenalty {
        bestPenalty := candidatePenalty;
        best := candidate;
        mask := m;
      }
    }
  }

  /** The symbol of a stream: patterns, placement, the mask with the lowest score. */
  method BuildMatrix(words: seq<Elem>, version: int, score: Grid -> int) returns (best: array2<bool>, ghost mask: nat)
    requires IsVersion(version)
    ensures fresh(best) && best.Length0 == best.Length1 && mask < 8
    ensures IsSymbol(Picture(best), version, mask, words)
    ensures IsBest(Picture(best), mask, version, words, score, 8)
  {
    hide IsFunction;
    hide Ink;
    hide FreeCells;
    hide StreamBit;
    var canvas := new Canvas(version);
    canvas.DrawPatterns(version);
    ghost var before: Map := (x, y) => IsFunction(version, x, y) && Ink(version, 0, x, y);
    PlaceStream(canvas.modules, canvas.functions, words, FunctionMap(version), before);
    CellsAreData(version);
    assert Ready(canvas, version, words);
    best, mask := SelectMask(canvas, version, words, score);
  }

  // ---- the encoder ----

  method EncodeQrMatrix(payload: seq<Elem>, score: Grid -> int) returns (r: Result<array2<bool>, QrError>)
    ensures r.Ok? <==> |payload| <= 213
    ensures r.Err? ==> r.error == PayloadTooLarge
    ensures r.Ok? ==> r.value.Length0 == r.value.Length1 && ReadSymbol(Picture(r.value)) == Some(payload)
  {
    hide ReadSymbol;
    hide HoldsMessage;
    hide CarriesBlocks;
    hide IsBest;
    hide IsSymbol;
    hide Fits;
    var chosen := ChooseVersion(|payload|);
    if chosen.Err? {
      return Err(chosen.error);
    }
    var version := chosen.value;
    var data := MakeDataCodewords(payload, version);
    DataFills(data.value, payload, version);
    var words := InterleaveCodewords(data.value, version);
    ghost var mask;
    var matrix;
    matrix, mask := BuildMatrix(words.value, version, score);
    SymbolReadBack(Picture(matrix), version, mask, words.value, data.value, payload);
    return Ok(matrix);
  }

  lemma DataFills(data: seq<Elem>, payload: seq<Elem>, version: int)
    requires IsVersion(version)
    ensures HoldsMessage(data, payload, CountBits(version), DataCapacity(version)) ==> |data| == DataCapacity(version)
  {
  }

  // ---- the reader ----

  /** The mask, from the first copy of the format word. */
  function ReadMask(grid: Grid): (mask: nat)
    requires |grid| >= 21 && IsGrid(grid, |grid|)
    ensures mask < 8
  {
    MaskOf(grid[8][4], grid[8][3], grid[8][2])
  }

  /** The mask, from the second copy. */
  function ReadMaskAgain(grid: Grid): (mask: nat)
    requires |grid| >= 21 && IsGrid(grid, |grid|)
    ensures mask < 8
  {
    MaskOf(grid[|grid| - 5][8], grid[|grid| - 4][8], grid[|grid| - 3][8])
  }

  function ReadModule(grid: Grid, cell: Cell, mask: nat): bool
    requires mask < 8 && IsGrid(grid, |grid|)
  {
    Inside(|grid|, cell.0, cell.1) && grid[cell.1][cell.0] != MaskBit(mask, cell.0, cell.1)
  }

  /** The first n data modules of the walk, unmasked. */
  function ReadBits(grid: Grid, cells: seq<Cell>, mask: nat, n: nat): (bits: seq<bool>)
    requires mask < 8 && IsGrid(grid, |grid|)
    ensures |bits| == n
  {
    seq(n, k requires 0 <= k < n => k < |cells| && ReadModule(grid, cells[k], mask))
  }

  /** The first n code words of the walk. */
  function ReadWords(grid: Grid, cells: seq<Cell>, n: nat): seq<Elem>
    requires |grid| >= 21 && IsGrid(grid, |grid|)
  {
    BytesOf(ReadBits(grid, cells, ReadMask(grid), 8 * n))
  }

  /** The payload of a symbol: its side gives the version, the format area the mask; the walk gives the bits,
      the blocks the data, and the data the payload. */
  function ReadSymbol(grid: Grid): Option<seq<Elem>> {
    var version := (|grid| - 17) / 4;
    if !IsVersion(version) || !IsGrid(grid, Size(version)) then None
    else
      var words := ReadWords(grid, DataCells(version), WORDS[version - 1]);
      ReadPayload(Flat(ReadDataBlocks(words, BlockList(version))), CountBits(version))
  }

  /** Both copies of the format word give the mask. */
  lemma MaskReadBack(grid: Grid, version: int, mask: nat, words: seq<Elem>)
    requires IsVersion(version) && mask < 8 && IsSymbol(grid, version, mask, words)
    ensures ReadMask(grid) == mask && ReadMaskAgain(grid) == mask
  {
    hide Bit;
    hide MaskOf;
    hide FreeCells;
    hide StreamBit;
    hide MaskBit;
    var size := Size(version);
    MaskReadable(mask);
    assert Inside(size, 4, 8) && Inside(size, 3, 8) && Inside(size, 2, 8);
    assert Inside(size, 8, size - 5) && Inside(size, 8, size - 4) && Inside(size, 8, size - 3);
    assert grid[8][4] == FormatBit(mask, 10) && grid[8][3] == FormatBit(mask, 11) && grid[8][2] == FormatBit(mask, 12);
    assert grid[size - 5][8] == FormatBit(mask, 10) && grid[size - 4][8] == FormatBit(mask, 11) && grid[size - 3][8] == FormatBit(mask, 12);
  }

  /** The reader gets the stream of code words back. */
  lemma WordsReadBack(grid: Grid, version: int, mask: nat, words: seq<Elem>)
    requires IsVersion(version) && mask < 8 && IsSymbol(grid, version, mask, words)
    requires |words| == WORDS[version - 1]
    ensures ReadWords(grid, DataCells(version), WORDS[version - 1]) == words
  {
    hide FreeCells;
    hide MaskBit;
    hide StreamBit;
    hide Ink;
    hide ReadMask;
    MaskReadBack(grid, version, mask, words);
    RoomForWords(version);
    var bits := ReadBits(grid, DataCells(version), mask, 8 * |words|);
    forall k | 0 <= k < 8 * |words|
      ensures bits[k] == AllBits(words)[k]
    {
      StreamIsAllBits(words, k);
    }
    assert bits == AllBits(words);
    BytesOfAllBits(words);
  }

  /** Every symbol of a payload is read as that payload, whatever mask was chosen. */
  lemma SymbolReadBack(grid: Grid, version: int, mask: nat, words: seq<Elem>, data: seq<Elem>, payload: seq<Elem>)
    requires IsVersion(version) && mask < 8 && IsSymbol(grid, version, mask, words)
    requires CarriesBlocks(words, data, BlockList(version))
    requires HoldsMessage(data, payload, CountBits(version), DataCapacity(version))
    ensures ReadSymbol(grid) == Some(payload)
  {
    hide ReadWords;
    hide ReadPayload;
    hide ReadDataBlocks;
    hide CarriesBlocks;
    hide Flat;
    assert IsGrid(grid, Size(version)) && (|grid| - 17) / 4 == version;
    hide IsSymbol;
    DataFills(data, payload, version);
    Capacities(version);
    BlocksReadBack(words, data, BlockList(version));
    WordsReadBack(grid, version, mask, words);
    PayloadReadBack(data, payload, CountBits(version), DataCapacity(version));
  }

  // ---- the standard's function map ----

  /** The alignment patterns of ISO/IEC 18004, annex E: at every pair of positions but the three that fall on
      finder patterns, and so also on the timing row and column. */
  predicate StandardAlignment(version: int, x: int, y: int)
    requires IsVersion(version)
  {
    var ps := ALIGNMENT_POSITIONS[version - 1];
    exists a, b :: 0 <= a < |ps| && 0 <= b < |ps| && !OnFinder(|ps|, a, b) && Near(x, y, ps[b], ps[a], 2)
  }

  predicate OnFinder(n: nat, a: int, b: int) {
    (a == 0 && b == 0) || (a == 0 && b == n - 1) || (a == n - 1 && b == 0)
  }

  predicate StandardFunction(version: int, x: int, y: int)
    requires IsVersion(version)
  {
    IsFunction(version, x, y) || StandardAlignment(version, x, y)
  }

  /** The encoder's function modules are the standard's for versions up to 6 and no others: from version 7 on
      it skips the alignment patterns centred on the timing row or column, which it drew first. */
  lemma FunctionMapIsStandard(version: int)
    requires IsVersion(version)
    ensures (forall x, y :: Inside(Size(version), x, y) ==> IsFunction(version, x, y) == StandardFunction(version, x, y))
      <==> version <= 6
  {
    PositionFacts(version);
    var ps := ALIGNMENT_POSITIONS[version - 1];
    if version <= 6 {
      forall x, y | StandardAlignment(version, x, y)
        ensures Alignment(version, x, y)
      {
        var a, b :| 0 <= a < |ps| && 0 <= b < |ps| && !OnFinder(|ps|, a, b) && Near(x, y, ps[b], ps[a], 2);
        assert a == 1 && b == 1;
      }
    } else {
      SkippedAlignment(version);
    }
  }

  /** A module that the standard reserves and the encoder fills with data. */
  lemma SkippedAlignment(version: int)
    requires 7 <= version <= 10
    ensures var x := ALIGNMENT_POSITIONS[version - 1][1];
            Inside(Size(version), x, 5) && !IsFunction(version, x, 5) && StandardAlignment(version, x, 5)
  {
    PositionFacts(version);
    var ps := ALIGNMENT_POSITIONS[version - 1];
    assert !OnFinder(|ps|, 0, 1) && Near(ps[1], 5, ps[1], ps[0], 2);
  }

  /** The payloads whose symbols follow the standard's layout are those of at most 106 bytes. */
  lemma StandardUpTo106(byteLength: nat, version: int)
    requires IsVersion(version) && Fits(byteLength, version) && forall v :: 1 <= v < version ==> !Fits(byteLength, v)
    ensures version <= 6 <==> byteLength <= 106
  {
    Capacities(6);
    Capacities(version);
    assert Power2(8) == 256;
    if version > 6 {
      assert !Fits(byteLength, 6);
    }
  }
}
