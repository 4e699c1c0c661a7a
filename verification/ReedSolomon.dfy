/** The error-correction arithmetic of clients/ui/src/qr.ts: byte multiplication, the divisor polynomial
    and the check symbols, each a loop proved against the field and polynomial theory. */
module ReedSolomon {
  import opened FieldTheory
  import opened GaloisField
  import opened Polynomials

  // ---- multiplication of two bytes ----

  lemma PickBit(a: Elem, b: Elem, i: nat)
    requires i < 8
    ensures Pick(Bytes, Bits(b)[i], a) == ((b >> i) & 1) * a
  {
    if i == 0 { } else if i == 1 { } else if i == 2 { } else if i == 3 { }
    else if i == 4 { } else if i == 5 { } else if i == 6 { } else { }
  }

  /** The accumulator after the rounds for bits 7 down to k. */
  function Partial(a: Elem, b: Elem, k: nat): Elem
    requires k <= 8
  {
    Combine(Bytes, Times2, a, Bits(b)[k..])
  }

  lemma PartialStep(a: Elem, b: Elem, k: nat)
    requires k < 8
    ensures Partial(a, b, k) == Times2(Partial(a, b, k + 1)) ^ (((b >> k) & 1) * a)
  {
    BytesGroup();
    Times2Linear();
    CombineFold(Bytes, Times2, a, Bits(b), k);
    PickBit(a, b, k);
  }

  lemma PartialEnds(a: Elem, b: Elem)
    ensures Partial(a, b, 8) == 0 && Partial(a, b, 0) == Mul(a, b)
  {
    assert Bits(b)[0..] == Bits(b);
  }

  lemma DoubleWide(p: Elem)
    ensures (p as bv16 << 1) ^ ((p as bv16 >> 7) * 0x11d) == Times2(p) as bv16
  {
  }

  lemma AddWide(p: Elem, b: Elem, x: Elem, q: Elem)
    requires b <= 1 && q == b * x
    ensures (p as bv16) ^ ((b as bv16) * (x as bv16)) == (p ^ q) as bv16
  {
  }

  /** The product of two bytes.  The accumulator is wider than a byte, as in the original: doubling makes
      nine bits, and the modulus 0x11d clears the ninth again. */
  method GfMultiply(x: Elem, y: Elem) returns (product: Elem)
    ensures product == F256.mul(x, y)
  {
    var z: bv16 := 0;
    PartialEnds(x, y);
    for i := 8 downto 0
      invariant z == Partial(x, y, i) as bv16
    {
      z := (z << 1) ^ ((z >> 7) * 0x11d);
      DoubleWide(Partial(x, y, i + 1));
      var bit := (y >> i) & 1;
      AddWide(Times2(Partial(x, y, i + 1)), bit, x, bit * x);
      PartialStep(x, y, i);
      z := z ^ ((bit as bv16) * (x as bv16));
    }
    product := z as Elem;
  }

  // ---- the divisor ----

  /** One round of the divisor's outer loop, in place: multiply by (x + root). */
  method MultiplyRegister(result: array<Elem>, root: Elem)
    modifies result
    ensures result[..] == Multiplied(F256, old(result[..]), root)
  {
    hide Mul;
    hide Xor;
    ghost var r := result[..];
    for j := 0 to result.Length
      invariant forall k :: 0 <= k < j ==> result[k] == Xor(Mul(r[k], root), NextOr0(F256, r, k))
      invariant forall k :: j <= k < result.Length ==> result[k] == r[k]
    {
      var product := GfMultiply(result[j], root);
      XorZero(product);
      if j + 1 < result.Length {
        result[j] := Xor(product, result[j + 1]);
      } else {
        result[j] := product;
      }
    }
    MultipliedBytes(r, root, result[..]);
  }

  lemma MultipliedBytes(r: seq<Elem>, root: Elem, r': seq<Elem>)
    requires |r'| == |r| && forall k :: 0 <= k < |r| ==> r'[k] == Xor(Mul(r[k], root), NextOr0(F256, r, k))
    ensures r' == Multiplied(F256, r, root)
  {
  }

  lemma DivisorRound(degree: nat, i: nat)
    requires i < degree
    ensures DivisorRegister(F256, 2, degree, i + 1) == Multiplied(F256, DivisorRegister(F256, 2, degree, i), Pow(F256, 2, i))
  {
    BytesRing();
    RegisterRound(F256, 2, degree, i);
  }

  lemma DivisorEnds(degree: nat)
    requires degree > 0
    ensures DivisorRegister(F256, 2, degree, 0) == Zeros(F256, degree)[degree - 1 := F256.one]
    ensures [F256.one] + DivisorRegister(F256, 2, degree, degree) == Generator(F256, 2, degree)
  {
    BytesRing();
    RegisterStart(F256, 2, degree);
    RegisterEnd(F256, 2, degree);
  }

  /** The register holding the polynomial 1. */
  method NewRegister(degree: nat) returns (result: array<Elem>)
    requires degree >= 1
    ensures fresh(result) && result[..] == DivisorRegister(F256, 2, degree, 0)
  {
    hide Generator;
    result := new Elem[degree](_ => 0);
    result[degree - 1] := 1;
    DivisorEnds(degree);
    assert result[..] == Zeros(F256, degree)[degree - 1 := F256.one];
  }

  /** The divisor polynomial of the given degree, without its leading coefficient 1. */
  function Divisor(degree: nat): (g: seq<Elem>)
    ensures |g| == degree
  {
    DivisorRegister(F256, 2, degree, degree)
  }

  method RsDivisor(degree: nat) returns (result: array<Elem>)
    requires degree >= 1
    ensures fresh(result) && result[..] == Divisor(degree)
  {
    result := NewRegister(degree);
    var root: Elem := 1;
    for i := 0 to degree
      invariant root == Pow(F256, 2, i)
      invariant result[..] == DivisorRegister(F256, 2, degree, i)
    {
      MultiplyRegister(result, root);
      DivisorRound(degree, i);
      root := GfMultiply(root, 2);
    }
  }

  // ---- the check symbols ----

  /** The check symbols of a block: the remainder of data * x^degree by the divisor polynomial. */
  function CheckSymbols(data: seq<Elem>, degree: nat): (r: seq<Elem>)
    requires degree >= 1
    ensures |r| == degree
  {
    Remainder(F256, Divisor(degree), data)
  }

  /** Adds factor * g to the register, coefficient by coefficient. */
  method AddScaled(divisor: array<Elem>, factor: Elem, shifted: seq<Elem>) returns (result: seq<Elem>)
    requires |shifted| == divisor.Length
    ensures result == AddPoly(F256, shifted, Scale(F256, factor, divisor[..]))
  {
    result := shifted;
    for i := 0 to divisor.Length
      invariant |result| == divisor.Length
      invariant forall k :: 0 <= k < i ==> result[k] == Xor(shifted[k], Mul(divisor[k], factor))
      invariant forall k :: i <= k < divisor.Length ==> result[k] == shifted[k]
    {
      var product := GfMultiply(divisor[i], factor);
      result := result[i := Xor(result[i], product)];
    }
  }

  method RsRemainder(data: seq<Elem>, degree: nat) returns (result: seq<Elem>)
    requires degree >= 1
    ensures result == CheckSymbols(data, degree)
  {
    var divisor := RsDivisor(degree);
    ghost var g := Divisor(degree);
    result := seq(degree, _ => 0);
    assert result == Zeros(F256, degree);
    for n := 0 to |data|
      invariant |result| == degree
      invariant result == Remainder(F256, g, data[..n])
      invariant divisor[..] == g
    {
      var factor := Xor(data[n], result[0]);
      var shifted := result[1..] + [0];
      result := AddScaled(divisor, factor, shifted);
      RemainderSnoc(F256, g, data, n);
    }
    assert data[..|data|] == data;
  }

  // ---- what the check symbols are for ----

  /** A word read as a polynomial over GF(2^8) vanishes at 1, 2, ..., 2^(degree - 1). */
  ghost predicate IsCodeword(word: seq<Elem>, degree: nat) {
    forall i :: 0 <= i < degree ==> Eval(F256, word, Pow(F256, 2, i)) == 0
  }

  /** The divisor is the product of (x - 2^i) for i < degree: it takes the value of that product everywhere. */
  lemma DivisorIsProduct(degree: nat, x: Elem)
    requires degree >= 1
    ensures Eval(F256, [F256.one] + Divisor(degree), x) == RootProduct(F256, 2, degree, x)
  {
    BytesRing();
    DivisorEnds(degree);
    GeneratorValue(F256, 2, degree, x);
  }

  /** Data followed by its check symbols is a code word. */
  lemma DataWithCheckSymbols(data: seq<Elem>, degree: nat)
    requires degree >= 1
    ensures IsCodeword(data + CheckSymbols(data, degree), degree)
  {
    BytesRing();
    var g := Divisor(degree);
    DivisorEnds(degree);
    forall i | 0 <= i < degree
      ensures Eval(F256, data + CheckSymbols(data, degree), Pow(F256, 2, i)) == 0
    {
      DivisorIsProduct(degree, Pow(F256, 2, i));
      RootProductVanishes(F256, 2, degree, i);
      RemainderVanishes(F256, g, data, Pow(F256, 2, i));
    }
  }

  /** Two different code words of the same length, at most 255, differ in more than `degree` places; so
      any `degree / 2` wrong symbols leave the sent word the only nearest one. */
  lemma CodewordsDiffer(p: seq<Elem>, q: seq<Elem>, degree: nat)
    requires |p| == |q| <= 255 && p != q
    requires IsCodeword(p, degree) && IsCodeword(q, degree)
    ensures Distance(p, q) > degree
  {
    BytesField();
    forall k | 0 < k < |p|
      ensures Pow(F256, 2, k) != F256.one
    {
      OrderOfX(k);
    }
    MinimumDistance(F256, 2, degree, p, q);
  }

  /** The check symbols are the only ones that complete the data to a code word. */
  lemma CheckSymbolsUnique(data: seq<Elem>, check: seq<Elem>, degree: nat)
    requires degree >= 1 && |check| == degree && |data| + degree <= 255
    requires IsCodeword(data + check, degree)
    ensures check == CheckSymbols(data, degree)
  {
    var p, q := data + check, data + CheckSymbols(data, degree);
    DataWithCheckSymbols(data, degree);
    if p != q {
      CodewordsDiffer(p, q, degree);
      DistanceOfTails(data, check, CheckSymbols(data, degree));
    }
    assert check == p[|data|..] && CheckSymbols(data, degree) == q[|data|..];
  }

  /** A received block with at most degree / 2 wrong symbols has one nearest code word: the one that was sent. */
  lemma NearestIsSent(sent: seq<Elem>, received: seq<Elem>, other: seq<Elem>, degree: nat)
    requires |sent| == |received| == |other| <= 255 && sent != other
    requires IsCodeword(sent, degree) && IsCodeword(other, degree)
    requires 2 * Distance(sent, received) <= degree
    ensures Distance(sent, received) < Distance(received, other)
  {
    hide IsCodeword;
    CodewordsDiffer(sent, other, degree);
    Triangle(sent, received, other);
  }

  lemma {:induction false} Triangle<T(!new)>(p: seq<T>, q: seq<T>, r: seq<T>)
    requires |p| == |q| == |r|
    ensures Distance(p, r) <= Distance(p, q) + Distance(q, r)
    decreases |p|
  {
    if p != [] {
      var n := |p| - 1;
      Triangle(p[..n], q[..n], r[..n]);
    }
  }

  lemma {:induction false} DistanceOfTails(data: seq<Elem>, c: seq<Elem>, c': seq<Elem>)
    requires |c| == |c'|
    ensures Distance(data + c, data + c') <= |c|
    decreases |c|
  {
    if c == [] {
      assert data + c == data && data + c' == data;
      DistanceZero(data, data);
    } else {
      var n := |c| - 1;
      DistanceOfTails(data, c[..n], c'[..n]);
      assert (data + c)[..|data| + n] == data + c[..n] && (data + c')[..|data| + n] == data + c'[..n];
    }
  }
}
