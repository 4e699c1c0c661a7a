/** Every version has room for its code words: the free modules, counted as rectangles less the alignment
    patterns that lie in them, are at least eight times the code words. */
module QrCapacity {
  import opened QrData
  import opened QrCanvas
  import opened QrWalk

  function FunctionMap(version: int): Map
    requires IsVersion(version)
  {
    (x, y) => IsFunction(version, x, y)
  }

  /** The data modules of a version in the order of the walk. */
  function DataCells(version: int): seq<Cell>
    requires IsVersion(version)
  {
    FreeCells(FunctionMap(version), Size(version))
  }

  function Box(x0: int, x1: int, y0: int, y1: int): set<Cell> {
    set x: int, y: int | x0 <= x < x1 && y0 <= y < y1 :: (x, y)
  }

  lemma {:induction false} LineSize(x: int, y0: int, y1: int)
    requires y0 <= y1
    ensures |Box(x, x + 1, y0, y1)| == y1 - y0
    decreases y1 - y0
  {
    if y0 < y1 {
      LineSize(x, y0, y1 - 1);
      assert Box(x, x + 1, y0, y1) == Box(x, x + 1, y0, y1 - 1) + {(x, y1 - 1)};
    }
  }

  lemma {:induction false} BoxSize(x0: int, x1: int, y0: int, y1: int)
    requires x0 <= x1 && y0 <= y1
    ensures |Box(x0, x1, y0, y1)| == (x1 - x0) * (y1 - y0)
    decreases x1 - x0
  {
    if x0 < x1 {
      BoxSize(x0, x1 - 1, y0, y1);
      LineSize(x1 - 1, y0, y1);
      var front, line := Box(x0, x1 - 1, y0, y1), Box(x1 - 1, x1, y0, y1);
      assert Box(x0, x1, y0, y1) == front + line && front !! line;
      SplitProduct(x1 - x0, y1 - y0);
    }
  }

  function Top(version: int): int {
    if version >= 7 then Size(version) - 11 else Size(version) - 8
  }

  /** The modules that only alignment patterns can take. */
  function Field(version: int): set<Cell> {
    var size := Size(version);
    Box(0, 6, 9, Top(version)) + Box(7, 9, 9, size - 8) + Box(9, size - 8, 7, size) +
    Box(9, Top(version), 0, 6) + Box(size - 8, size, 9, size)
  }

  lemma BoxesApart(x0: int, x1: int, y0: int, y1: int, u0: int, u1: int, v0: int, v1: int)
    requires x1 <= u0 || u1 <= x0 || y1 <= v0 || v1 <= y0
    ensures Box(x0, x1, y0, y1) !! Box(u0, u1, v0, v1)
  {
  }

  lemma UnionSize<T>(a: set<T>, b: set<T>, c: set<T>, d: set<T>, e: set<T>)
    requires a !! b !! c !! d !! e
    ensures |a + b + c + d + e| == |a| + |b| + |c| + |d| + |e|
  {
  }

  lemma FieldSize(version: int)
    requires IsVersion(version)
    ensures |Field(version)| == var size, top := Size(version), Top(version);
      6 * (top - 9) + 2 * (size - 17) + (size - 17) * (size - 7) + (top - 9) * 6 + 8 * (size - 9)
  {
    hide Box;
    var size, top := Size(version), Top(version);
    var a, b, c, d, e := Box(0, 6, 9, top), Box(7, 9, 9, size - 8), Box(9, size - 8, 7, size), Box(9, top, 0, 6), Box(size - 8, size, 9, size);
    BoxSize(0, 6, 9, top);
    BoxSize(7, 9, 9, size - 8);
    BoxSize(9, size - 8, 7, size);
    BoxSize(9, top, 0, 6);
    BoxSize(size - 8, size, 9, size);
    BoxesApart(0, 6, 9, top, 7, 9, 9, size - 8);
    BoxesApart(0, 6, 9, top, 9, size - 8, 7, size);
    BoxesApart(0, 6, 9, top, 9, top, 0, 6);
    BoxesApart(0, 6, 9, top, size - 8, size, 9, size);
    BoxesApart(7, 9, 9, size - 8, 9, size - 8, 7, size);
    BoxesApart(7, 9, 9, size - 8, 9, top, 0, 6);
    BoxesApart(7, 9, 9, size - 8, size - 8, size, 9, size);
    BoxesApart(9, size - 8, 7, size, 9, top, 0, 6);
    BoxesApart(9, size - 8, 7, size, size - 8, size, 9, size);
    BoxesApart(9, top, 0, 6, size - 8, size, 9, size);
    UnionSize(a, b, c, d, e);
  }

  function Square(cx: int, cy: int): set<Cell> {
    Box(cx - 2, cx + 3, cy - 2, cy + 3)
  }

  /** The modules of the alignment patterns. */
  function AlignmentCells(version: int): set<Cell>
    requires IsVersion(version)
  {
    var ps := ALIGNMENT_POSITIONS[version - 1];
    if version == 1 then {}
    else if version <= 6 then Square(ps[1], ps[1])
    else Square(ps[1], ps[1]) + Square(ps[1], ps[2]) + Square(ps[2], ps[1]) + Square(ps[2], ps[2])
  }

  lemma AlignmentCellsSize(version: int)
    requires IsVersion(version)
    ensures |AlignmentCells(version)| <= if version == 1 then 0 else if version <= 6 then 25 else 100
  {
    if version > 1 {
      var ps := ALIGNMENT_POSITIONS[version - 1];
      BoxSize(ps[1] - 2, ps[1] + 3, ps[1] - 2, ps[1] + 3);
      if version >= 7 {
        BoxSize(ps[1] - 2, ps[1] + 3, ps[2] - 2, ps[2] + 3);
        BoxSize(ps[2] - 2, ps[2] + 3, ps[1] - 2, ps[1] + 3);
        BoxSize(ps[2] - 2, ps[2] + 3, ps[2] - 2, ps[2] + 3);
      }
    }
  }

  lemma InBox(x: int, y: int, x0: int, x1: int, y0: int, y1: int)
    ensures (x, y) in Box(x0, x1, y0, y1) <==> x0 <= x < x1 && y0 <= y < y1
  {
  }

  /** The field holds no function module but those of alignment patterns. */
  lemma FieldIsPlain(version: int, x: int, y: int)
    requires IsVersion(version) && (x, y) in Field(version)
    ensures Inside(Size(version), x, y) && x != 6
    ensures IsFunction(version, x, y) ==> Alignment(version, x, y)
  {
    hide Box;
    hide Alignment;
    var size, top := Size(version), Top(version);
    InBox(x, y, 0, 6, 9, top);
    InBox(x, y, 7, 9, 9, size - 8);
    InBox(x, y, 9, size - 8, 7, size);
    InBox(x, y, 9, top, 0, 6);
    InBox(x, y, size - 8, size, 9, size);
  }

  lemma AlignmentIsCell(version: int, x: int, y: int)
    requires IsVersion(version) && Alignment(version, x, y)
    ensures (x, y) in AlignmentCells(version)
  {
    PositionFacts(version);
  }

  lemma {:induction false} DistinctSize(cells: seq<Cell>)
    requires Distinct(cells)
    ensures |set p | p in cells| == |cells|
    decreases |cells|
  {
    if cells != [] {
      var last := |cells| - 1;
      DistinctSize(cells[..last]);
      assert (set p | p in cells) == (set p | p in cells[..last]) + {cells[last]};
    }
  }

  lemma SubsetSize(a: set<Cell>, b: set<Cell>)
    requires a <= b
    ensures |a| <= |b|
  {
    assert b == a + (b - a);
  }

  lemma RoomLeft(cells: seq<Cell>, field: set<Cell>, blocked: set<Cell>)
    requires Distinct(cells) && forall p :: p in field && p !in blocked ==> p in cells
    ensures |cells| >= |field| - |blocked|
  {
    DistinctSize(cells);
    SubsetSize(field - blocked, set p | p in cells);
    assert field - blocked == field - (field * blocked);
    SubsetSize(field * blocked, blocked);
    assert field == (field - blocked) + (field * blocked);
  }

  lemma RoomForWords(version: int)
    requires IsVersion(version)
    ensures |DataCells(version)| >= 8 * WORDS[version - 1]
  {
    hide Field;
    hide AlignmentCells;
    hide FreeCells;
    WalkVisitsOnce(FunctionMap(version), Size(version));
    forall p | p in Field(version) && p !in AlignmentCells(version)
      ensures p in DataCells(version)
    {
      FieldIsPlain(version, p.0, p.1);
      if Alignment(version, p.0, p.1) {
        AlignmentIsCell(version, p.0, p.1);
      }
    }
    RoomLeft(DataCells(version), Field(version), AlignmentCells(version));
    FieldSize(version);
    AlignmentCellsSize(version);
    RoomNumbers(version, Size(version), Top(version));
  }

  lemma RoomNumbers(version: int, size: int, top: int)
    requires IsVersion(version) && size == Size(version) && top == Top(version)
    ensures 6 * (top - 9) + 2 * (size - 17) + (size - 17) * (size - 7) + (top - 9) * 6 + 8 * (size - 9)
      >= 8 * WORDS[version - 1] + (if version == 1 then 0 else if version <= 6 then 25 else 100)
  {
    assert (size - 17) * (size - 7) == 4 * version * (4 * version + 10);
    if version == 1 { } else if version == 2 { } else if version == 3 { } else if version == 4 { } else if version == 5 { }
    else if version == 6 { } else if version == 7 { } else if version == 8 { } else if version == 9 { } else { }
  }
}
