/** The field GF(2^8) = GF(2)[x] / (x^8 + x^4 + x^3 + x^2 + 1) of clients/ui/src/qr.ts.

    An element is a byte whose bit i is the coefficient of x^i.  Addition is exclusive or.
    `Mul` adds up the products of the first factor with the single bits of the second, low bit first;
    the encoder's own loop runs from the high bit down. */
module GaloisField {
  import opened FieldTheory

  type Elem = bv8

  function Xor(a: Elem, b: Elem): Elem {
    a ^ b
  }

  const Bytes: Group<Elem> := Group(0, Xor)
  const F256: Field<Elem> := Field(Bytes, 1, Mul)

  /** Multiplication by x. */
  function Times2(a: Elem): Elem {
    (a << 1) ^ ((a >> 7) * 0x1d)
  }

  function Bits(b: Elem): (bs: seq<bool>)
    ensures |bs| == 8
  {
    [b & 1 != 0, b & 2 != 0, b & 4 != 0, b & 8 != 0, b & 16 != 0, b & 32 != 0, b & 64 != 0, b & 128 != 0]
  }

  function Mul(a: Elem, b: Elem): Elem {
    Combine(Bytes, Times2, a, Bits(b))
  }

  // ---- the F2-vector space ----

  lemma XorComm(a: Elem, b: Elem)
    ensures Xor(a, b) == Xor(b, a)
  {
  }

  lemma XorAssoc(a: Elem, b: Elem, c: Elem)
    ensures Xor(Xor(a, b), c) == Xor(a, Xor(b, c))
  {
  }

  lemma XorZero(a: Elem)
    ensures Xor(a, 0) == a && Xor(0, a) == a && Xor(a, a) == 0
  {
  }

  lemma BytesGroup()
    ensures IsGroup2(Bytes)
  {
    forall a, b ensures Bytes.AddComm(a, b) { XorComm(a, b); }
    forall a, b, c ensures Bytes.AddAssoc(a, b, c) { XorAssoc(a, b, c); }
    forall a ensures Bytes.AddZero(a) { XorZero(a); }
    forall a ensures Bytes.AddSelf(a) { XorZero(a); }
  }

  lemma Times2Xor(a: Elem, b: Elem)
    ensures Times2(a ^ b) == Times2(a) ^ Times2(b)
  {
  }

  lemma Times2Linear()
    ensures IsLinear(Bytes, Times2)
  {
    forall a, b ensures Times2(Bytes.add(a, b)) == Bytes.add(Times2(a), Times2(b)) { Times2Xor(a, b); }
  }

  lemma MulXor(a: Elem, b: Elem, c: Elem)
    ensures Mul(Xor(a, b), c) == Xor(Mul(a, c), Mul(b, c))
  {
    BytesGroup();
    Times2Linear();
    CombineAdd(Bytes, Times2, a, b, Bits(c));
  }

  lemma MulTimes2(a: Elem, b: Elem)
    ensures Mul(Times2(a), b) == Times2(Mul(a, b))
  {
    BytesGroup();
    Times2Linear();
    CombineMap(Bytes, Times2, Times2, Times2, a, Bits(b));
  }

  /** Multiplication by a fixed element commutes with any combination of shifts. */
  lemma MulCombine(a: Elem, bs: seq<bool>, c: Elem)
    ensures Mul(Combine(Bytes, Times2, a, bs), c) == Combine(Bytes, Times2, Mul(a, c), bs)
  {
    hide Combine;
    hide Xor;
    hide Times2;
    hide Mul;
    BytesGroup();
    var f := (x: Elem) => Mul(x, c);
    forall x, y ensures f(Bytes.add(x, y)) == Bytes.add(f(x), f(y)) { MulXor(x, y, c); }
    forall x ensures f(Times2(x)) == Times2(f(x)) { MulTimes2(x, c); }
    CombineMap(Bytes, Times2, Times2, f, a, bs);
  }

  // ---- the commutative ring ----

  /** The powers 1, x, ..., x^7 are the bits of a byte. */
  lemma BitBasis(b: Elem)
    ensures Eight(Bytes, 1, 2, 4, 8, 16, 32, 64, 128, Bits(b)) == b
  {
  }

  lemma OneMul(b: Elem)
    ensures Mul(1, b) == b && Mul(b, 1) == b
  {
    CombineEight(Bytes, Times2, 1, 2, 4, 8, 16, 32, 64, 128, Bits(b));
    BitBasis(b);
    MulCombine(1, Bits(b), 1);
    CombineEight(Bytes, Times2, 1, 2, 4, 8, 16, 32, 64, 128, Bits(1));
    BitBasis(1);
  }

  lemma MulComm(a: Elem, b: Elem)
    ensures Mul(a, b) == Mul(b, a)
  {
    MulCombine(1, Bits(a), b);
    OneMul(a);
    OneMul(b);
  }

  lemma MulAssoc(a: Elem, b: Elem, c: Elem)
    ensures Mul(Mul(a, b), c) == Mul(a, Mul(b, c))
  {
    MulCombine(c, Bits(b), a);
    MulComm(Mul(c, b), a);
    MulComm(c, b);
    MulComm(c, a);
    MulCombine(a, Bits(b), c);
  }

  lemma BytesRing()
    ensures IsRing2(F256)
  {
    BytesGroup();
    forall a, b ensures F256.MulComm(a, b) { MulComm(a, b); }
    forall a, b, c ensures F256.MulAssoc(a, b, c) { MulAssoc(a, b, c); }
    forall a ensures F256.MulOne(a) { OneMul(a); }
    forall a, b, c ensures F256.Distrib(a, b, c) { MulXor(a, b, c); }
  }

  lemma MulTwo(a: Elem)
    ensures Mul(2, a) == Times2(a)
  {
    MulTimes2(1, a);
    OneMul(a);
  }

  // ---- the modulus: x^8 = x^4 + x^3 + x^2 + 1 ----

  lemma ProductOf(a: Elem, b: Elem, c: Elem, a1: Elem, a2: Elem, a3: Elem, a4: Elem, a5: Elem, a6: Elem, a7: Elem)
    requires a1 == Times2(a) && a2 == Times2(a1) && a3 == Times2(a2) && a4 == Times2(a3)
    requires a5 == Times2(a4) && a6 == Times2(a5) && a7 == Times2(a6)
    requires Eight(Bytes, a, a1, a2, a3, a4, a5, a6, a7, Bits(b)) == c
    ensures Mul(a, b) == c
  {
    CombineEight(Bytes, Times2, a, a1, a2, a3, a4, a5, a6, a7, Bits(b));
  }

  lemma Square2()
    ensures Mul(2, 2) == 4
  {
    ProductOf(2, 2, 4, 4, 8, 16, 32, 64, 128, 29);
  }

  lemma Square4()
    ensures Mul(4, 4) == 16
  {
    ProductOf(4, 4, 16, 8, 16, 32, 64, 128, 29, 58);
  }

  lemma Square16()
    ensures Mul(16, 16) == 29
  {
    ProductOf(16, 16, 29, 32, 64, 128, 29, 58, 116, 232);
  }

  lemma Square29()
    ensures Mul(29, 29) == 76
  {
    ProductOf(29, 29, 76, 58, 116, 232, 205, 135, 19, 38);
  }

  lemma Square76()
    ensures Mul(76, 76) == 157
  {
    ProductOf(76, 76, 157, 152, 45, 90, 180, 117, 234, 201);
  }

  lemma Square157()
    ensures Mul(157, 157) == 95
  {
    ProductOf(157, 157, 95, 39, 78, 156, 37, 74, 148, 53);
  }

  lemma Square95()
    ensures Mul(95, 95) == 133
  {
    ProductOf(95, 95, 133, 190, 97, 194, 153, 47, 94, 188);
  }

  lemma Square133()
    ensures Mul(133, 133) == 2
  {
    ProductOf(133, 133, 2, 23, 46, 92, 184, 109, 218, 169);
  }

  /** x^256 = x. */
  lemma FrobeniusOfTwo()
    ensures Frobenius(F256, 2, 8) == 2
  {
    Square2();
    Square4();
    Square16();
    Square29();
    Square76();
    Square157();
    Square95();
    Square133();
    assert Frobenius(F256, 133, 1) == 2;
    assert Frobenius(F256, 95, 2) == 2;
    assert Frobenius(F256, 157, 3) == 2;
    assert Frobenius(F256, 76, 4) == 2;
    assert Frobenius(F256, 29, 5) == 2;
    assert Frobenius(F256, 16, 6) == 2;
    assert Frobenius(F256, 4, 7) == 2;
  }

  // ---- inverses ----

  lemma {:induction false} FrobeniusOne(n: nat)
    ensures Frobenius(F256, 1, n) == 1
  {
    if n > 0 {
      FrobeniusOne(n - 1);
      OneMul(1);
    }
  }

  /** Multiplication by x becomes a step of the values. */
  ghost predicate Steps(f: Elem -> Elem, step: Elem -> Elem) {
    forall x :: f(Times2(x)) == step(f(x))
  }

  /** A linear map is determined by its value at 1 and the step that multiplication by x becomes. */
  lemma FromOne(step: Elem -> Elem, f: Elem -> Elem, a: Elem)
    requires IsLinear(Bytes, f) && Steps(f, step)
    ensures f(a) == Combine(Bytes, step, f(1), Bits(a))
  {
    BytesGroup();
    CombineMap(Bytes, Times2, step, f, 1, Bits(a));
    OneMul(a);
  }

  lemma Expand(a: Elem)
    ensures Combine(Bytes, Times2, 1, Bits(a)) == a
  {
    OneMul(a);
  }

  function Frob(a: Elem, n: nat): Elem {
    Frobenius(F256, a, n)
  }

  lemma FrobXor(a: Elem, b: Elem, n: nat)
    ensures Frob(Xor(a, b), n) == Xor(Frob(a, n), Frob(b, n))
  {
    BytesRing();
    FrobeniusAdd(F256, a, b, n);
  }

  lemma FrobeniusLinear(n: nat, f: Elem -> Elem)
    requires f(2) == 2
    requires forall x :: f(x) == Frob(x, n)
    ensures IsLinear(Bytes, f) && f(1) == 1 && Steps(f, Times2)
  {
    forall x, y ensures f(Bytes.add(x, y)) == Bytes.add(f(x), f(y)) { FrobXor(x, y, n); }
    hide Times2;
    forall x ensures f(Times2(x)) == Times2(f(x)) { FrobeniusTimes2(x, n); }
    FrobeniusOne(n);
  }

  /** a^256 = a, because eight squarings fix 0, 1 and x, and respect sums and products. */
  lemma FrobeniusFixes(a: Elem, n: nat, f: Elem -> Elem)
    requires f(2) == 2
    requires forall x :: f(x) == Frob(x, n)
    ensures f(a) == a
  {
    FrobeniusLinear(n, f);
    hide *;
    FromOne(Times2, f, a);
    Expand(a);
  }

  lemma FrobeniusTimes2(a: Elem, n: nat)
    requires Frobenius(F256, 2, n) == 2
    ensures Frobenius(F256, Times2(a), n) == Times2(Frobenius(F256, a, n))
  {
    BytesRing();
    MulTwo(a);
    FrobeniusMul(F256, 2, a, n);
    MulTwo(Frobenius(F256, a, n));
  }

  lemma Power256(a: Elem)
    ensures Pow(F256, a, 256) == a
  {
    FrobeniusOfTwo();
    assert PowerOfTwo(8) == 256;
    FrobeniusPower(a, 8);
  }

  lemma FrobeniusPower(a: Elem, n: nat)
    requires Frobenius(F256, 2, n) == 2 && PowerOfTwo(n) == 256
    ensures Pow(F256, a, 256) == a
  {
    BytesRing();
    FrobeniusFixes(a, n, x => Frob(x, n));
    FrobeniusPow(F256, a, n);
  }

  function Times4(a: Elem): Elem {
    Times2(Times2(a))
  }

  lemma SquareTimes2(a: Elem)
    ensures Mul(Times2(a), Times2(a)) == Times4(Mul(a, a))
  {
    MulTimes2(a, Times2(a));
    MulComm(a, Times2(a));
    MulTimes2(a, a);
  }

  /** The square of a byte, from the squares of its bits. */
  lemma SquareBits(a: Elem)
    ensures Mul(a, a) == Eight(Bytes, 1, 4, 16, 64, 29, 116, 205, 19, Bits(a))
  {
    SquareBitsOf(x => Mul(x, x), a);
  }

  lemma SquareBitsOf(f: Elem -> Elem, a: Elem)
    requires forall x :: f(x) == Mul(x, x)
    ensures f(a) == Eight(Bytes, 1, 4, 16, 64, 29, 116, 205, 19, Bits(a))
  {
    SquareLinear(f);
    FourTimes();
    hide *;
    SquareEight(f, a, 4, 16, 64, 29, 116, 205, 19);
  }

  lemma SquareEight(f: Elem -> Elem, a: Elem, a1: Elem, a2: Elem, a3: Elem, a4: Elem, a5: Elem, a6: Elem, a7: Elem)
    requires IsLinear(Bytes, f) && f(1) == 1 && Steps(f, Times4)
    requires a1 == Times4(1) && a2 == Times4(a1) && a3 == Times4(a2) && a4 == Times4(a3)
    requires a5 == Times4(a4) && a6 == Times4(a5) && a7 == Times4(a6)
    ensures f(a) == Eight(Bytes, 1, a1, a2, a3, a4, a5, a6, a7, Bits(a))
  {
    hide *;
    FromOne(Times4, f, a);
    CombineEight(Bytes, Times4, 1, a1, a2, a3, a4, a5, a6, a7, Bits(a));
  }

  lemma FourTimes()
    ensures Times4(1) == 4 && Times4(4) == 16 && Times4(16) == 64 && Times4(64) == 29
    ensures Times4(29) == 116 && Times4(116) == 205 && Times4(205) == 19
  {
  }

  lemma SquareLinear(f: Elem -> Elem)
    requires forall x :: f(x) == Mul(x, x)
    ensures IsLinear(Bytes, f) && f(1) == 1 && Steps(f, Times4)
  {
    BytesRing();
    hide Times4;
    hide Times2;
    hide Mul;
    forall x, y ensures f(Bytes.add(x, y)) == Bytes.add(f(x), f(y)) { SquareOfSum(F256, x, y); }
    forall x ensures f(Times2(x)) == Times4(f(x)) { SquareTimes2(x); }
    OneMul(1);
  }

  lemma OnlyTrivialSquares(a: Elem)
    ensures Eight(Bytes, 1, 4, 16, 64, 29, 116, 205, 19, Bits(a)) == a ==> a == 0 || a == 1
  {
  }

  lemma Idempotent(e: Elem)
    ensures Mul(e, e) == e ==> e == 0 || e == 1
  {
    SquareBits(e);
    OnlyTrivialSquares(e);
  }

  lemma BytesInvertible(a: Elem)
    requires a != 0
    ensures Invertible(F256, a)
  {
    BytesRing();
    Power256(a);
    forall e ensures F256.mul(e, e) == e ==> e == F256.g.zero || e == F256.one { Idempotent(e); }
    InverseByPower(F256, a);
  }

  /** The byte operations form a field. */
  lemma BytesField()
    ensures IsField(F256)
  {
    BytesRing();
    forall a: Elem | a != 0 ensures Invertible(F256, a) { BytesInvertible(a); }
  }

  // ---- x is a primitive element: its powers have period 255 ----

  lemma PowersMultiply(m: nat, n: nat)
    ensures Pow(F256, 2, m + n) == Mul(Pow(F256, 2, m), Pow(F256, 2, n))
  {
    BytesRing();
    PowAdd(F256, 2, m, n);
  }

  lemma PowerNext(n: nat, k: nat, p: Elem, q: Elem)
    requires Pow(F256, 2, n) == p && Times2(p) == q && k == n + 1
    ensures Pow(F256, 2, k) == q
  {
    MulComm(p, 2);
    MulTwo(p);
  }

  lemma Product95By76()
    ensures Mul(95, 76) == 253
  {
    ProductOf(95, 76, 253, 190, 97, 194, 153, 47, 94, 188);
  }

  lemma Product253By32()
    ensures Mul(253, 32) == 214
  {
    ProductOf(253, 32, 214, 231, 211, 187, 107, 214, 177, 127);
  }

  lemma Product157By76()
    ensures Mul(157, 76) == 70
  {
    ProductOf(157, 76, 70, 39, 78, 156, 37, 74, 148, 53);
  }

  lemma Product70By8()
    ensures Mul(70, 8) == 10
  {
    ProductOf(70, 8, 10, 140, 5, 10, 20, 40, 80, 160);
  }

  lemma Product29By128()
    ensures Mul(29, 128) == 38
  {
    ProductOf(29, 128, 38, 58, 116, 232, 205, 135, 19, 38);
  }

  lemma Product76By2()
    ensures Mul(76, 2) == 152
  {
    ProductOf(76, 2, 152, 152, 45, 90, 180, 117, 234, 201);
  }

  /** The modulus of the field: x^8 = x^4 + x^3 + x^2 + 1. */
  lemma PowersOfX()
    ensures Pow(F256, 2, 1) == 2 && Pow(F256, 2, 2) == 4 && Pow(F256, 2, 3) == 8 && Pow(F256, 2, 4) == 16
    ensures Pow(F256, 2, 5) == 32 && Pow(F256, 2, 6) == 64 && Pow(F256, 2, 7) == 128
    ensures Pow(F256, 2, 8) == Xor(Pow(F256, 2, 4), Xor(Pow(F256, 2, 3), Xor(Pow(F256, 2, 2), 1)))
  {
    PowerNext(0, 1, 1, 2);
    PowerNext(1, 2, 2, 4);
    PowerNext(2, 3, 4, 8);
    PowerNext(3, 4, 8, 16);
    PowerNext(4, 5, 16, 32);
    PowerNext(5, 6, 32, 64);
    PowerNext(6, 7, 64, 128);
    PowerNext(7, 8, 128, 29);
  }

  lemma SquarePowers()
    ensures Pow(F256, 2, 8) == 29 && Pow(F256, 2, 16) == 76 && Pow(F256, 2, 32) == 157 && Pow(F256, 2, 64) == 95
  {
    PowersOfX();
    Square29();
    PowersMultiply(8, 8);
    Square76();
    PowersMultiply(16, 16);
    Square157();
    PowersMultiply(32, 32);
  }

  /** No power of x with a proper divisor of 255 as its exponent is 1. */
  lemma ProperDivisorPowers()
    ensures Pow(F256, 2, 1) == 2 && Pow(F256, 2, 3) == 8 && Pow(F256, 2, 5) == 32 && Pow(F256, 2, 15) == 38
    ensures Pow(F256, 2, 17) == 152 && Pow(F256, 2, 51) == 10 && Pow(F256, 2, 85) == 214
  {
    PowersOfX();
    SquarePowers();
    Product29By128();
    PowersMultiply(8, 7);
    Product76By2();
    PowersMultiply(16, 1);
    Product157By76();
    PowersMultiply(32, 16);
    Product70By8();
    PowersMultiply(48, 3);
    Product95By76();
    PowersMultiply(64, 16);
    Product253By32();
    PowersMultiply(80, 5);
  }

  lemma Power255()
    ensures Pow(F256, 2, 255) == 1
  {
    BytesField();
    Power256(2);
    var p := Pow(F256, 2, 255);
    assert F256.Distrib(p, 1, 2) && F256.MulOne(2);
    XorZero(2);
    NoZeroDivisors(F256, Xor(p, 1), 2);
    Cancel(Bytes, p, 1);
  }

  lemma OrderOfX(k: nat)
    requires 0 < k < 255
    ensures Pow(F256, 2, k) != 1
  {
    BytesRing();
    Power255();
    ProperDivisorPowers();
    Order255(F256, 2, k);
  }

  /** The first 255 powers of x are pairwise different. */
  lemma PowersDiffer(i: nat, j: nat)
    requires i < j < 255
    ensures Pow(F256, 2, i) != Pow(F256, 2, j)
  {
    BytesRing();
    Power255();
    OrderOfX(j - i);
    hide Mul;
    PowAdd(F256, 2, 255 - i, i);
    PowAdd(F256, 2, 255 - i, j);
    PowAdd(F256, 2, 255, j - i);
    assert F256.MulOne(Pow(F256, 2, j - i)) && F256.MulComm(1, Pow(F256, 2, j - i));
  }
}
