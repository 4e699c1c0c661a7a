/** The function patterns of clients/ui/src/qr.ts.  The closed forms say which modules are function modules
    and what they show; the drawing methods write into the two matrices in place and are proved against them. */
module QrCanvas {
  import opened QrData
  import opened QrFormat
  import opened QrWalk

  function Size(version: int): int {
    version * 4 + 17
  }

  const ALIGNMENT_POSITIONS: seq<seq<int>> := [
    [], [6, 18], [6, 22], [6, 26], [6, 30], [6, 34],
    [6, 22, 38], [6, 24, 42], [6, 26, 46], [6, 28, 50]
  ]

  // ---- closed forms ----

  predicate Timing(x: int, y: int) {
    x == 6 || y == 6
  }

  predicate Near(x: int, y: int, cx: int, cy: int, r: int) {
    -r <= x - cx <= r && -r <= y - cy <= r
  }

  function Abs(d: int): int {
    if d < 0 then -d else d
  }

  function Distance(dx: int, dy: int): int {
    if Abs(dx) < Abs(dy) then Abs(dy) else Abs(dx)
  }

  predicate Finder(size: int, x: int, y: int) {
    Near(x, y, 3, 3, 4) || Near(x, y, size - 4, 3, 4) || Near(x, y, 3, size - 4, 4)
  }

  function FinderInk(dx: int, dy: int): bool {
    Distance(dx, dy) != 2 && Distance(dx, dy) != 4
  }

  /** Which alignment position, other than the first, is the nearest to a coordinate. */
  function NearestPosition(version: int, z: int): (n: nat)
    requires 2 <= version <= 10
    ensures 1 <= n < |ALIGNMENT_POSITIONS[version - 1]|
  {
    var ps := ALIGNMENT_POSITIONS[version - 1];
    if |ps| == 3 && z >= ps[1] + 8 then 2 else 1
  }

  function NearestCentre(version: int, z: int): int
    requires 2 <= version <= 10
  {
    ALIGNMENT_POSITIONS[version - 1][NearestPosition(version, z)]
  }

  predicate Alignment(version: int, x: int, y: int)
    requires IsVersion(version)
  {
    version > 1 && Near(x, y, NearestCentre(version, x), NearestCentre(version, y), 2)
  }

  /** The modules of the two copies of the format word and the dark module. */
  predicate FormatArea(size: int, x: int, y: int) {
    (x == 8 && (0 <= y <= 5 || y == 7 || y == 8 || size - 8 <= y < size)) ||
    (y == 8 && (0 <= x <= 5 || x == 7 || size - 8 <= x < size))
  }

  /** Which bit of the format word a module of the area shows; the dark module counts as bit 15. */
  function FormatIndex(size: int, x: int, y: int): nat
    requires FormatArea(size, x, y) && size >= 21
  {
    if x == 8 && y <= 5 then y
    else if x == 8 && y <= 8 then y - 1
    else if x == 8 && y == size - 8 then 15
    else if x == 8 then y - size + 15
    else if x == 7 then 8
    else if x <= 5 then 14 - x
    else size - 1 - x
  }

  function FormatInk(size: int, mask: nat, x: int, y: int): bool
    requires FormatArea(size, x, y) && size >= 21 && mask < 8
  {
    FormatIndex(size, x, y) == 15 || FormatBit(mask, FormatIndex(size, x, y))
  }

  predicate VersionArea(size: int, x: int, y: int) {
    (size - 11 <= x <= size - 9 && 0 <= y <= 5) || (size - 11 <= y <= size - 9 && 0 <= x <= 5)
  }

  function VersionIndex(size: int, x: int, y: int): nat
    requires VersionArea(size, x, y) && size >= 21
  {
    if y <= 5 && x >= size - 11 then x - (size - 11) + 3 * y else y - (size - 11) + 3 * x
  }

  /** Every module that is not data. */
  predicate IsFunction(version: int, x: int, y: int)
    requires IsVersion(version)
  {
    var size := Size(version);
    || Timing(x, y) || Finder(size, x, y) || Alignment(version, x, y)
    || FormatArea(size, x, y) || (version >= 7 && VersionArea(size, x, y))
  }

  function FinderShown(size: int, x: int, y: int): bool {
    if Near(x, y, 3, size - 4, 4) then FinderInk(x - 3, y - (size - 4))
    else if Near(x, y, size - 4, 3, 4) then FinderInk(x - (size - 4), y - 3)
    else FinderInk(x - 3, y - 3)
  }

  function AlignmentInk(version: int, x: int, y: int): bool
    requires 2 <= version <= 10
  {
    Distance(x - NearestCentre(version, x), y - NearestCentre(version, y)) != 1
  }

  /** Its pattern belongs to a row of centres before position a. */
  predicate AlignedAbove(version: int, x: int, y: int, a: nat)
    requires IsVersion(version)
  {
    Alignment(version, x, y) && NearestPosition(version, y) < a
  }

  /** Its pattern belongs to row a of the centres, before position b. */
  predicate AlignedIn(version: int, x: int, y: int, a: nat, b: nat)
    requires 2 <= version <= 10
  {
    Alignment(version, x, y) && NearestPosition(version, y) == a && NearestPosition(version, x) < b
  }

  /** What timing, finders and alignment patterns show, the later ones over the earlier ones. */
  function PatternInk(version: int, x: int, y: int): bool
    requires IsVersion(version)
  {
    if Alignment(version, x, y) then AlignmentInk(version, x, y)
    else if Finder(Size(version), x, y) then FinderShown(Size(version), x, y)
    else Timing(x, y) && (if x == 6 then y else x) % 2 == 0
  }

  predicate PatternArea(version: int, x: int, y: int)
    requires IsVersion(version)
  {
    Timing(x, y) || Finder(Size(version), x, y) || Alignment(version, x, y)
  }

  /** What the function modules show in a symbol with the given mask. */
  function Ink(version: int, mask: nat, x: int, y: int): bool
    requires IsVersion(version) && mask < 8
  {
    var size := Size(version);
    if FormatArea(size, x, y) then FormatInk(size, mask, x, y)
    else if version >= 7 && VersionArea(size, x, y) then VersionBit(version, VersionIndex(size, x, y))
    else PatternInk(version, x, y)
  }

  lemma PositionFacts(version: int)
    requires IsVersion(version)
    ensures var ps := ALIGNMENT_POSITIONS[version - 1];
            var size := Size(version);
            && |ps| == (if version == 1 then 0 else if version <= 6 then 2 else 3)
            && (version > 1 ==> ps[0] == 6 && ps[|ps| - 1] == size - 7)
            && (version >= 7 ==> ps[1] - 6 >= 16 && size - 7 - ps[1] >= 16)
  {
  }

  /** A position is taken by timing or finder exactly when it lies on row or column 6. */
  lemma PositionTaken(version: int, a: nat, b: nat)
    requires IsVersion(version)
    requires a < |ALIGNMENT_POSITIONS[version - 1]| && b < |ALIGNMENT_POSITIONS[version - 1]|
    ensures var ps := ALIGNMENT_POSITIONS[version - 1];
            && Inside(Size(version), ps[b], ps[a])
            && (Timing(ps[b], ps[a]) || Finder(Size(version), ps[b], ps[a]) <==> a == 0 || b == 0)
  {
    PositionFacts(version);
  }

  lemma NearPosition(version: int, a: nat, z: int)
    requires 2 <= version <= 10 && a < |ALIGNMENT_POSITIONS[version - 1]|
    ensures a > 0 && -2 <= z - ALIGNMENT_POSITIONS[version - 1][a] <= 2 ==> NearestPosition(version, z) == a
  {
    PositionFacts(version);
  }

  // ---- drawing ----

  class Canvas {
    const size: int
    const modules: array2<bool>
    const functions: array2<bool>

    constructor (version: int)
      requires IsVersion(version)
      ensures Valid() && fresh(modules) && fresh(functions) && size == Size(version)
      ensures forall y, x :: Inside(size, x, y) ==> !modules[y, x] && !functions[y, x]
    {
      size := version * 4 + 17;
      modules := new bool[version * 4 + 17, version * 4 + 17]((_, _) => false);
      functions := new bool[version * 4 + 17, version * 4 + 17]((_, _) => false);
    }

    ghost predicate Valid() {
      && size >= 21
      && modules.Length0 == modules.Length1 == functions.Length0 == functions.Length1 == size
      && modules != functions
    }

    method SetFunction(x: int, y: int, value: bool)
      requires Valid()
      modifies modules, functions
      ensures forall j, i :: Inside(size, i, j) ==> functions[j, i] == (old(functions[j, i]) || (i == x && j == y))
      ensures forall j, i :: Inside(size, i, j) ==> modules[j, i] == if i == x && j == y then value else old(modules[j, i])
    {
      if x < 0 || y < 0 || x >= size || y >= size {
        return;
      }
      modules[y, x] := value;
      functions[y, x] := true;
    }

    /** The two timing lines. */
    method DrawTiming()
      requires Valid()
      requires forall j, i :: Inside(size, i, j) ==> !modules[j, i] && !functions[j, i]
      modifies modules, functions
      ensures forall j, i :: Inside(size, i, j) ==> functions[j, i] == Timing(i, j)
      ensures forall j, i :: Inside(size, i, j) ==> modules[j, i] == (Timing(i, j) && (if i == 6 then j else i) % 2 == 0)
    {
      for k := 0 to size
        invariant forall j, i :: Inside(size, i, j) ==> functions[j, i] == ((i == 6 && j < k) || (j == 6 && i < k))
        invariant forall j, i :: Inside(size, i, j) ==>
          modules[j, i] == (if i == 6 && j < k then j % 2 == 0 else j == 6 && i < k && i % 2 == 0)
      {
        SetFunction(6, k, k % 2 == 0);
        SetFunction(k, 6, k % 2 == 0);
      }
    }

    /** A finder with its light border. */
    method DrawFinder(cx: int, cy: int)
      requires Valid()
      modifies modules, functions
      ensures forall j, i :: Inside(size, i, j) ==> functions[j, i] == (old(functions[j, i]) || Near(i, j, cx, cy, 4))
      ensures forall j, i :: Inside(size, i, j) ==>
        modules[j, i] == if Near(i, j, cx, cy, 4) then FinderInk(i - cx, j - cy) else old(modules[j, i])
    {
      hide FinderInk;
      for dy := -4 to 5
        invariant forall j, i :: Inside(size, i, j) ==>
          functions[j, i] == (old(functions[j, i]) || (Near(i, j, cx, cy, 4) && j - cy < dy))
        invariant forall j, i :: Inside(size, i, j) ==>
          modules[j, i] == if Near(i, j, cx, cy, 4) && j - cy < dy then FinderInk(i - cx, j - cy) else old(modules[j, i])
      {
        FinderRow(cx, cy, dy);
      }
    }

    method FinderRow(cx: int, cy: int, dy: int)
      requires Valid()
      modifies modules, functions
      ensures forall j, i :: Inside(size, i, j) ==>
        functions[j, i] == (old(functions[j, i]) || (j - cy == dy && -4 <= i - cx <= 4))
      ensures forall j, i :: Inside(size, i, j) ==>
        modules[j, i] == if j - cy == dy && -4 <= i - cx <= 4 then FinderInk(i - cx, j - cy) else old(modules[j, i])
    {
      for dx := -4 to 5
        invariant forall j, i :: Inside(size, i, j) ==>
          functions[j, i] == (old(functions[j, i]) || (j - cy == dy && -4 <= i - cx < dx))
        invariant forall j, i :: Inside(size, i, j) ==>
          modules[j, i] == if j - cy == dy && -4 <= i - cx < dx then FinderInk(i - cx, j - cy) else old(modules[j, i])
      {
        var distance := Distance(dx, dy);
        SetFunction(cx + dx, cy + dy, distance != 2 && distance != 4);
      }
    }

    method DrawAlignment(cx: int, cy: int)
      requires Valid()
      modifies modules, functions
      ensures forall j, i :: Inside(size, i, j) ==> functions[j, i] == (old(functions[j, i]) || Near(i, j, cx, cy, 2))
      ensures forall j, i :: Inside(size, i, j) ==>
        modules[j, i] == if Near(i, j, cx, cy, 2) then Distance(i - cx, j - cy) != 1 else old(modules[j, i])
    {
      hide Distance;
      for dy := -2 to 3
        invariant forall j, i :: Inside(size, i, j) ==>
          functions[j, i] == (old(functions[j, i]) || (Near(i, j, cx, cy, 2) && j - cy < dy))
        invariant forall j, i :: Inside(size, i, j) ==>
          modules[j, i] == if Near(i, j, cx, cy, 2) && j - cy < dy then Distance(i - cx, j - cy) != 1 else old(modules[j, i])
      {
        AlignmentRow(cx, cy, dy);
      }
    }

    method AlignmentRow(cx: int, cy: int, dy: int)
      requires Valid()
      modifies modules, functions
      ensures forall j, i :: Inside(size, i, j) ==>
        functions[j, i] == (old(functions[j, i]) || (j - cy == dy && -2 <= i - cx <= 2))
      ensures forall j, i :: Inside(size, i, j) ==>
        modules[j, i] == if j - cy == dy && -2 <= i - cx <= 2 then Distance(i - cx, j - cy) != 1 else old(modules[j, i])
    {
      hide Distance;
      for dx := -2 to 3
        invariant forall j, i :: Inside(size, i, j) ==>
          functions[j, i] == (old(functions[j, i]) || (j - cy == dy && -2 <= i - cx < dx))
        invariant forall j, i :: Inside(size, i, j) ==>
          modules[j, i] == if j - cy == dy && -2 <= i - cx < dx then Distance(i - cx, j - cy) != 1 else old(modules[j, i])
      {
        SetFunction(cx + dx, cy + dy, Distance(dx, dy) != 1);
      }
    }

    method DrawFinders()
      requires Valid()
      requires forall j, i :: Inside(size, i, j) ==> functions[j, i] == Timing(i, j)
      modifies modules, functions
      ensures forall j, i :: Inside(size, i, j) ==> functions[j, i] == (Timing(i, j) || Finder(size, i, j))
      ensures forall j, i :: Inside(size, i, j) ==>
        modules[j, i] == if Finder(size, i, j) then FinderShown(size, i, j) else old(modules[j, i])
    {
      hide FinderInk;
      DrawFinder(3, 3);
      DrawFinder(size - 4, 3);
      DrawFinder(3, size - 4);
    }

    /** The alignment patterns, wherever the centre is not yet a function module. */
    method DrawAlignments(version: int)
      requires Valid() && IsVersion(version) && size == Size(version)
      requires forall j, i :: Inside(size, i, j) ==> functions[j, i] == (Timing(i, j) || Finder(size, i, j))
      modifies modules, functions
      ensures forall j, i :: Inside(size, i, j) ==> functions[j, i] == PatternArea(version, i, j)
      ensures forall j, i :: Inside(size, i, j) ==>
        modules[j, i] == if Alignment(version, i, j) then AlignmentInk(version, i, j) else old(modules[j, i])
    {
      hide AlignmentInk;
      hide Finder;
      hide NearestPosition;
      var ps := ALIGNMENT_POSITIONS[version - 1];
      PositionFacts(version);
      for a := 0 to |ps|
        invariant forall j, i :: Inside(size, i, j) ==>
          functions[j, i] == (Timing(i, j) || Finder(size, i, j) || AlignedAbove(version, i, j, a))
        invariant forall j, i :: Inside(size, i, j) ==>
          modules[j, i] == if AlignedAbove(version, i, j, a) then AlignmentInk(version, i, j) else old(modules[j, i])
      {
        AlignmentsInRow(version, a);
      }
    }

    method AlignmentsInRow(version: int, a: nat)
      requires Valid() && 2 <= version <= 10 && size == Size(version)
      requires a < |ALIGNMENT_POSITIONS[version - 1]|
      requires forall j, i :: Inside(size, i, j) ==>
        functions[j, i] == (Timing(i, j) || Finder(size, i, j) || AlignedAbove(version, i, j, a))
      modifies modules, functions
      ensures forall j, i :: Inside(size, i, j) ==>
        functions[j, i] == (old(functions[j, i]) || AlignedIn(version, i, j, a, |ALIGNMENT_POSITIONS[version - 1]|))
      ensures forall j, i :: Inside(size, i, j) ==>
        modules[j, i] == if AlignedIn(version, i, j, a, |ALIGNMENT_POSITIONS[version - 1]|) then AlignmentInk(version, i, j) else old(modules[j, i])
    {
      hide Distance;
      hide Finder;
      hide NearestPosition;
      var ps := ALIGNMENT_POSITIONS[version - 1];
      for b := 0 to |ps|
        invariant forall j, i :: Inside(size, i, j) ==>
          functions[j, i] == (old(functions[j, i]) || AlignedIn(version, i, j, a, b))
        invariant forall j, i :: Inside(size, i, j) ==>
          modules[j, i] == if AlignedIn(version, i, j, a, b) then AlignmentInk(version, i, j) else old(modules[j, i])
      {
        PositionTaken(version, a, b);
        NearPosition(version, a, ps[a]);
        NearPosition(version, b, ps[b]);
        forall i ensures b > 0 && -2 <= i - ps[b] <= 2 ==> NearestPosition(version, i) == b { NearPosition(version, b, i); }
        forall j ensures a > 0 && -2 <= j - ps[a] <= 2 ==> NearestPosition(version, j) == a { NearPosition(version, a, j); }
        if !functions[ps[a], ps[b]] {
          DrawAlignment(ps[b], ps[a]);
        }
      }
    }

    /** Both copies of the format area become function modules. */
    method MarkFormat()
      requires Valid()
      modifies functions
      ensures forall j, i :: Inside(size, i, j) ==> functions[j, i] == (old(functions[j, i]) || FormatArea(size, i, j))
    {
      for k := 0 to 6
        invariant forall j, i :: Inside(size, i, j) ==> functions[j, i] == (old(functions[j, i]) || (i == 8 && j < k))
      {
        functions[k, 8] := true;
      }
      MarkCorner();
      MarkSecondCopy();
    }

    method MarkCorner()
      requires Valid()
      modifies functions
      ensures forall j, i :: Inside(size, i, j) ==>
        functions[j, i] == (old(functions[j, i]) || (i == 8 && 7 <= j <= 8) || (j == 8 && (i <= 5 || i == 7)))
    {
      var coordinates := [(8, 7), (8, 8), (7, 8), (5, 8), (4, 8), (3, 8), (2, 8), (1, 8), (0, 8)];
      for k := 0 to |coordinates|
        invariant forall j, i :: Inside(size, i, j) ==>
          functions[j, i] == (old(functions[j, i]) || (i, j) in coordinates[..k])
      {
        var (x, y) := coordinates[k];
        functions[y, x] := true;
      }
      assert coordinates[..|coordinates|] == coordinates;
    }

    method MarkSecondCopy()
      requires Valid()
      modifies functions
      ensures forall j, i :: Inside(size, i, j) ==>
        functions[j, i] == (old(functions[j, i]) || (j == 8 && i >= size - 8) || (i == 8 && j >= size - 8))
    {
      for k := 0 to 8
        invariant forall j, i :: Inside(size, i, j) ==> functions[j, i] == (old(functions[j, i]) || (j == 8 && i >= size - k))
      {
        functions[8, size - 1 - k] := true;
      }
      for k := 8 to 15
        invariant forall j, i :: Inside(size, i, j) ==>
          functions[j, i] == (old(functions[j, i]) || (j == 8 && i >= size - 8) || (i == 8 && size - 7 <= j < size - 15 + k))
      {
        functions[size - 15 + k, 8] := true;
      }
      functions[size - 8, 8] := true;
    }

    /** The two copies of the version word. */
    method DrawVersion(version: int)
      requires Valid() && 7 <= version <= 10 && size == Size(version)
      modifies modules, functions
      ensures forall j, i :: Inside(size, i, j) ==> functions[j, i] == (old(functions[j, i]) || VersionArea(size, i, j))
      ensures forall j, i :: Inside(size, i, j) ==>
        modules[j, i] == if VersionArea(size, i, j) then VersionBit(version, VersionIndex(size, i, j)) else old(modules[j, i])
    {
      hide Bit;
      var bits := VersionBits(version);
      for k := 0 to 18
        invariant forall j, i :: Inside(size, i, j) ==>
          functions[j, i] == (old(functions[j, i]) || (VersionArea(size, i, j) && VersionIndex(size, i, j) < k))
        invariant forall j, i :: Inside(size, i, j) ==>
          modules[j, i] == if VersionArea(size, i, j) && VersionIndex(size, i, j) < k
                           then VersionBit(version, VersionIndex(size, i, j)) else old(modules[j, i])
      {
        var a := size - 11 + k % 3;
        var b := k / 3;
        SetFunction(a, b, Bit(bits, k));
        SetFunction(b, a, Bit(bits, k));
      }
    }

    /** All function patterns, with the format word of mask 0 as a placeholder. */
    method DrawPatterns(version: int)
      requires Valid() && IsVersion(version) && size == Size(version)
      requires forall j, i :: Inside(size, i, j) ==> !modules[j, i] && !functions[j, i]
      modifies modules, functions
      ensures forall j, i :: Inside(size, i, j) ==> functions[j, i] == IsFunction(version, i, j)
      ensures forall j, i :: Inside(size, i, j) ==> modules[j, i] == (IsFunction(version, i, j) && Ink(version, 0, i, j))
    {
      hide AlignmentInk;
      hide FinderShown;
      hide FormatBit;
      hide FormatIndex;
      hide VersionIndex;
      hide VersionBit;
      hide NearestPosition;
      DrawTiming();
      DrawFinders();
      DrawAlignments(version);
      DrawFormat(modules, 0);
      MarkFormat();
      if version >= 7 {
        DrawVersion(version);
      }
    }
  }

  method DrawFormat(matrix: array2<bool>, mask: nat)
    requires mask < 8 && matrix.Length0 == matrix.Length1 >= 21
    modifies matrix
    ensures forall j, i :: Inside(matrix.Length0, i, j) ==>
      matrix[j, i] == if FormatArea(matrix.Length0, i, j) then FormatInk(matrix.Length0, mask, i, j) else old(matrix[j, i])
  {
    hide Bit;
    hide FormatBit;
    var size := matrix.Length0;
    var bits := FormatBits(mask);
    FirstCopy(matrix, mask, bits);
    SecondCopy(matrix, mask, bits);
  }

  method FirstCopy(matrix: array2<bool>, mask: nat, bits: Word)
    requires mask < 8 && matrix.Length0 == matrix.Length1 >= 21 && bits == FORMAT_WORDS[mask]
    modifies matrix
    ensures forall j, i :: Inside(matrix.Length0, i, j) ==>
      matrix[j, i] == if FormatArea(matrix.Length0, i, j) && i <= 8 && j <= 8 then FormatInk(matrix.Length0, mask, i, j) else old(matrix[j, i])
  {
    hide Bit;
    var size := matrix.Length0;
    for k := 0 to 6
      invariant forall j, i :: Inside(size, i, j) ==>
        matrix[j, i] == if i == 8 && j < k then FormatBit(mask, j) else old(matrix[j, i])
    {
      matrix[k, 8] := Bit(bits, k);
    }
    matrix[7, 8] := Bit(bits, 6);
    matrix[8, 8] := Bit(bits, 7);
    matrix[8, 7] := Bit(bits, 8);
    for k := 9 to 15
      invariant forall j, i :: Inside(size, i, j) ==>
        matrix[j, i] == if FormatArea(size, i, j) && i <= 8 && j <= 8 && FormatIndex(size, i, j) < k
                        then FormatInk(size, mask, i, j) else old(matrix[j, i])
    {
      matrix[8, 14 - k] := Bit(bits, k);
    }
  }

  method SecondCopy(matrix: array2<bool>, mask: nat, bits: Word)
    requires mask < 8 && matrix.Length0 == matrix.Length1 >= 21 && bits == FORMAT_WORDS[mask]
    modifies matrix
    ensures forall j, i :: Inside(matrix.Length0, i, j) ==>
      matrix[j, i] == if FormatArea(matrix.Length0, i, j) && (i > 8 || j > 8) then FormatInk(matrix.Length0, mask, i, j) else old(matrix[j, i])
  {
    hide Bit;
    var size := matrix.Length0;
    for k := 0 to 8
      invariant forall j, i :: Inside(size, i, j) ==>
        matrix[j, i] == if j == 8 && i >= size - k then FormatBit(mask, size - 1 - i) else old(matrix[j, i])
    {
      matrix[8, size - 1 - k] := Bit(bits, k);
    }
    for k := 8 to 15
      invariant forall j, i :: Inside(size, i, j) ==>
        matrix[j, i] == if j == 8 && i >= size - 8 then FormatBit(mask, size - 1 - i)
                        else if i == 8 && size - 7 <= j < size - 15 + k then FormatBit(mask, j - size + 15)
                        else old(matrix[j, i])
    {
      matrix[size - 15 + k, 8] := Bit(bits, k);
    }
    matrix[size - 8, 8] := true;
  }
}
