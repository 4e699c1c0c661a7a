/** The zig-zag placement of clients/ui/src/qr.ts: two columns at a time from the right, upwards and downwards
    in turn, passing over the timing column 6 and over every module that is taken. */
module QrWalk {
  import opened GaloisField
  import opened QrData

  type Cell = (int, int)
  type Map = (int, int) -> bool

  predicate IsSize(size: int) {
    size >= 21 && size % 4 == 1
  }

  /** The right-hand column of strip c. */
  function Right(size: int, c: nat): int {
    if size - 1 - 2 * c > 6 then size - 1 - 2 * c else size - 2 - 2 * c
  }

  function StripCount(size: int): nat
    requires IsSize(size)
  {
    (size - 1) / 2
  }

  /** The row visited at step v of a strip. */
  function Row(size: int, upward: bool, v: int): int {
    if upward then size - 1 - v else v
  }

  function Free(taken: Map, x: int, y: int): (cells: seq<Cell>)
    ensures |cells| <= 1
  {
    if taken(x, y) then [] else [(x, y)]
  }

  /** The free cells of the first n rows of a strip. */
  function Strip(taken: Map, size: int, right: int, upward: bool, n: nat): seq<Cell> {
    if n == 0 then []
    else
      var y := Row(size, upward, n - 1);
      Strip(taken, size, right, upward, n - 1) + Free(taken, right, y) + Free(taken, right - 1, y)
  }

  /** The free cells of the first c strips, in the order of the walk. */
  function Walk(taken: Map, size: nat, c: nat): seq<Cell> {
    if c == 0 then []
    else Walk(taken, size, c - 1) + Strip(taken, size, Right(size, c - 1), (c - 1) % 2 == 0, size)
  }

  function FreeCells(taken: Map, size: int): seq<Cell>
    requires IsSize(size)
  {
    Walk(taken, size, StripCount(size))
  }

  predicate Distinct<T(==)>(s: seq<T>) {
    forall i, j :: 0 <= i < j < |s| ==> s[i] != s[j]
  }

  predicate Inside(size: int, x: int, y: int) {
    0 <= x < size && 0 <= y < size
  }

  lemma {:induction false} StripCells(taken: Map, size: int, right: int, upward: bool, n: nat)
    requires n <= size
    ensures forall p :: p in Strip(taken, size, right, upward, n) <==>
      && right - 1 <= p.0 <= right && !taken(p.0, p.1)
      && 0 <= Row(size, upward, p.1) < n
    ensures Distinct(Strip(taken, size, right, upward, n))
    decreases n
  {
    if n > 0 {
      StripCells(taken, size, right, upward, n - 1);
      var y := Row(size, upward, n - 1);
      RowCells(taken, right, y);
      StripGrows(Strip(taken, size, right, upward, n - 1), Free(taken, right, y), Free(taken, right - 1, y));
      RowsDiffer(size, upward, n);
      assert Strip(taken, size, right, upward, n) == Strip(taken, size, right, upward, n - 1) + Free(taken, right, y) + Free(taken, right - 1, y);
      hide *;
    }
  }

  lemma RowCells(taken: Map, right: int, y: int)
    ensures forall p :: p in Free(taken, right, y) + Free(taken, right - 1, y) <==> right - 1 <= p.0 <= right && p.1 == y && !taken(p.0, p.1)
    ensures Distinct(Free(taken, right, y)) && Distinct(Free(taken, right - 1, y))
    ensures forall p :: p in Free(taken, right, y) ==> p !in Free(taken, right - 1, y)
  {
  }

  /** A row of its own joins the cells before it. */
  lemma StripGrows(a: seq<Cell>, b: seq<Cell>, c: seq<Cell>)
    ensures forall p :: p in a + b + c <==> p in a || p in b + c
    ensures Distinct(a) && Distinct(b) && Distinct(c) && (forall p :: p in b ==> p !in c) && (forall p :: p in a ==> p !in b + c) ==>
      Distinct(a + b + c)
  {
    if Distinct(a) && Distinct(b) && Distinct(c) && (forall p :: p in b ==> p !in c) && (forall p :: p in a ==> p !in b + c) {
      DistinctConcat(b, c);
      DistinctConcat(a, b + c);
      assert a + b + c == a + (b + c);
    }
  }

  lemma RowsDiffer(size: int, upward: bool, n: nat)
    requires 0 < n
    ensures forall y :: (0 <= Row(size, upward, y) < n) <==> (0 <= Row(size, upward, y) < n - 1 || y == Row(size, upward, n - 1))
  {
  }

  lemma DistinctConcat<T>(a: seq<T>, b: seq<T>)
    requires Distinct(a) && Distinct(b) && forall p :: p in a ==> p !in b
    ensures Distinct(a + b)
  {
    var s := a + b;
    forall i, j | 0 <= i < j < |s|
      ensures s[i] != s[j]
    {
      assert i < |a| ==> s[i] in a;
      assert j >= |a| ==> s[j] in b;
    }
  }

  lemma StripsMeet(size: int, c: nat, p: Cell)
    requires IsSize(size) && 0 < c <= StripCount(size)
    ensures Inside(size, p.0, p.1) ==>
      (p.0 != 6 && p.0 > Right(size, c) <==>
        (p.0 != 6 && p.0 > Right(size, c - 1)) || Right(size, c - 1) - 1 <= p.0 <= Right(size, c - 1))
    ensures 0 <= Row(size, (c - 1) % 2 == 0, p.1) < size <==> 0 <= p.1 < size
    ensures 1 <= Right(size, c - 1) < size && Right(size, c - 1) != 6 && Right(size, c - 1) - 1 != 6
  {
  }

  lemma {:induction false} WalkCells(taken: Map, size: nat, c: nat)
    requires IsSize(size) && c <= StripCount(size)
    ensures forall p :: p in Walk(taken, size, c) <==>
      Inside(size, p.0, p.1) && !taken(p.0, p.1) && p.0 != 6 && p.0 > Right(size, c)
    ensures Distinct(Walk(taken, size, c))
    decreases c
  {
    hide Strip;
    hide Distinct;
    if c > 0 {
      var walked, strip := Walk(taken, size, c - 1), Strip(taken, size, Right(size, c - 1), (c - 1) % 2 == 0, size);
      WalkCells(taken, size, c - 1);
      StripCells(taken, size, Right(size, c - 1), (c - 1) % 2 == 0, size);
      forall p
        ensures p in Walk(taken, size, c) <==> Inside(size, p.0, p.1) && !taken(p.0, p.1) && p.0 != 6 && p.0 > Right(size, c)
        ensures p in walked ==> p !in strip
      {
        StripsMeet(size, c, p);
        assert p in Walk(taken, size, c) <==> p in walked || p in strip;
      }
      DistinctConcat(walked, strip);
    } else {
      EmptyIsDistinct<Cell>();
    }
  }

  lemma EmptyIsDistinct<T>()
    ensures Distinct<T>([])
  {
  }

  /** The walk visits every free cell outside column 6, and visits it once. */
  lemma WalkVisitsOnce(taken: Map, size: int)
    requires IsSize(size)
    ensures Distinct(FreeCells(taken, size))
    ensures forall p :: p in FreeCells(taken, size) <==> Inside(size, p.0, p.1) && !taken(p.0, p.1) && p.0 != 6
  {
    hide Walk;
    WalkCells(taken, size, StripCount(size));
    assert Right(size, StripCount(size)) < 0;
  }

  // ---- the bits of the stream ----

  /** Bit k of the code words, zero after the last. */
  function StreamBit(words: seq<Elem>, k: nat): bool {
    if k / 8 < |words| then ByteBits(words[k / 8])[k % 8] else false
  }

  lemma BitOfByte(b: Elem, i: nat)
    requires i < 8
    ensures ((b >> (7 - i)) & 1 != 0) == ByteBits(b)[i]
  {
    if i == 0 { } else if i == 1 { } else if i == 2 { } else if i == 3 { }
    else if i == 4 { } else if i == 5 { } else if i == 6 { } else { }
  }

  lemma {:induction false} StreamIsAllBits(words: seq<Elem>, k: nat)
    requires k < 8 * |words|
    ensures StreamBit(words, k) == AllBits(words)[k]
    decreases |words|
  {
    var n := |words| - 1;
    if k < 8 * n {
      StreamIsAllBits(words[..n], k);
    }
  }

  // ---- the placement loop ----

  ghost predicate Maps(functions: array2<bool>, taken: Map)
    reads functions
  {
    forall y, x :: 0 <= y < functions.Length0 && 0 <= x < functions.Length1 ==> functions[y, x] == taken(x, y)
  }

  /** The first cells of the walk hold the stream; `before` gives the modules anywhere else. */
  ghost predicate Placed(modules: array2<bool>, cells: seq<Cell>, words: seq<Elem>, before: Map)
    reads modules
  {
    && (forall k :: 0 <= k < |cells| ==> Inside(modules.Length0, cells[k].0, cells[k].1))
    && modules.Length0 == modules.Length1
    && (forall k :: 0 <= k < |cells| ==> modules[cells[k].1, cells[k].0] == StreamBit(words, k))
    && (forall y, x :: Inside(modules.Length0, x, y) && (x, y) !in cells ==> modules[y, x] == before(x, y))
  }

  lemma PlacedBit(words: seq<Elem>, index: nat, byte: Elem)
    requires byte == if index / 8 < |words| then words[index / 8] else 0
    ensures ((byte >> (7 - index % 8)) & 1 != 0) == StreamBit(words, index)
  {
    BitOfByte(byte, index % 8);
    BitOfByte(0, index % 8);
    assert ByteBits(0) == [false, false, false, false, false, false, false, false];
  }

  method PlaceCell(modules: array2<bool>, functions: array2<bool>, x: int, y: int, words: seq<Elem>, index: nat,
    ghost taken: Map, ghost cells: seq<Cell>, ghost before: Map) returns (next: nat)
    requires modules != functions && modules.Length0 == modules.Length1 == functions.Length0 == functions.Length1
    requires Inside(modules.Length0, x, y) && (x, y) !in cells
    requires Maps(functions, taken)
    requires Placed(modules, cells, words, before) && index == |cells|
    modifies modules
    ensures next == |cells + Free(taken, x, y)|
    ensures Placed(modules, cells + Free(taken, x, y), words, before)
  {
    hide StreamBit;
    next := index;
    if !functions[y, x] {
      var byte := if index / 8 < |words| then words[index / 8] else 0;
      PlacedBit(words, index, byte);
      modules[y, x] := (byte >> (7 - index % 8)) & 1 != 0;
      next := next + 1;
    }
  }

  lemma RowIsNew(taken: Map, size: int, c: nat, v: nat)
    requires IsSize(size) && c < StripCount(size) && v < size
    ensures var right, upward := Right(size, c), c % 2 == 0;
            var cells := Walk(taken, size, c) + Strip(taken, size, right, upward, v);
            var y := Row(size, upward, v);
            && Inside(size, right, y) && Inside(size, right - 1, y)
            && (right, y) !in cells && (right - 1, y) !in cells + Free(taken, right, y)
  {
    var right, upward := Right(size, c), c % 2 == 0;
    WalkCells(taken, size, c);
    StripCells(taken, size, right, upward, v);
    StripsMeet(size, c + 1, (right, 0));
  }

  lemma Regroup(a: seq<Cell>, b: seq<Cell>, p: seq<Cell>, q: seq<Cell>)
    ensures a + b + p + q == a + (b + p + q)
  {
  }

  /** The placement loop: the stream goes bit by bit into the free cells in the order of the walk, and no
      other module changes. */
  method PlaceStream(modules: array2<bool>, functions: array2<bool>, words: seq<Elem>, ghost taken: Map, ghost before: Map)
    requires modules != functions && modules.Length0 == modules.Length1 == functions.Length0 == functions.Length1
    requires IsSize(modules.Length0)
    requires Maps(functions, taken)
    requires forall y, x :: Inside(modules.Length0, x, y) ==> modules[y, x] == before(x, y)
    modifies modules
    ensures Placed(modules, FreeCells(taken, modules.Length0), words, before)
  {
    hide Placed;
    hide Maps;
    hide Strip;
    hide StreamBit;
    var size := modules.Length0;
    NothingPlaced(modules, words, before);
    var bitIndex := 0;
    var upward := true;
    ghost var c := 0;
    var right := size - 1;
    while right >= 1
      invariant c <= StripCount(size) && upward == (c % 2 == 0)
      invariant right == if size - 1 - 2 * c >= 6 then size - 1 - 2 * c else size - 2 - 2 * c
      invariant bitIndex == |Walk(taken, size, c)|
      invariant Placed(modules, Walk(taken, size, c), words, before)
      invariant Maps(functions, taken)
      decreases right
    {
      if right == 6 {
        right := right - 1;
      }
      bitIndex := PlaceStrip(modules, functions, right, upward, words, bitIndex, taken, c, before);
      upward := !upward;
      right := right - 2;
      c := c + 1;
    }
  }

  lemma NothingPlaced(modules: array2<bool>, words: seq<Elem>, before: Map)
    requires modules.Length0 == modules.Length1
    requires forall y, x :: Inside(modules.Length0, x, y) ==> modules[y, x] == before(x, y)
    ensures Placed(modules, [], words, before)
  {
  }

  method PlaceStrip(modules: array2<bool>, functions: array2<bool>, right: int, upward: bool, words: seq<Elem>, index: nat,
    ghost taken: Map, ghost c: nat, ghost before: Map) returns (bitIndex: nat)
    requires modules != functions && modules.Length0 == modules.Length1 == functions.Length0 == functions.Length1
    requires IsSize(modules.Length0) && c < StripCount(modules.Length0)
    requires right == Right(modules.Length0, c) && upward == (c % 2 == 0)
    requires Maps(functions, taken)
    requires index == |Walk(taken, modules.Length0, c)|
    requires Placed(modules, Walk(taken, modules.Length0, c), words, before)
    modifies modules
    ensures bitIndex == |Walk(taken, modules.Length0, c + 1)|
    ensures Placed(modules, Walk(taken, modules.Length0, c + 1), words, before)
    ensures Maps(functions, taken)
  {
    hide Placed;
    hide StreamBit;
    hide Free;
    var size := modules.Length0;
    ghost var walked := Walk(taken, size, c);
    assert walked + Strip(taken, size, right, upward, 0) == walked;
    bitIndex := index;
    for vertical := 0 to size
      invariant bitIndex == |walked + Strip(taken, size, right, upward, vertical)|
      invariant Placed(modules, walked + Strip(taken, size, right, upward, vertical), words, before)
      invariant Maps(functions, taken)
    {
      var y := if upward then size - 1 - vertical else vertical;
      RowIsNew(taken, size, c, vertical);
      ghost var cells := walked + Strip(taken, size, right, upward, vertical);
      bitIndex := PlaceCell(modules, functions, right, y, words, bitIndex, taken, cells, before);
      bitIndex := PlaceCell(modules, functions, right - 1, y, words, bitIndex, taken, cells + Free(taken, right, y), before);
      Regroup(walked, Strip(taken, size, right, upward, vertical), Free(taken, right, y), Free(taken, right - 1, y));
    }
  }
}
