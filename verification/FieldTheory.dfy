/** Fields of characteristic two, and the F2-linear maps on them.

    A `Field` bundles the operations so that the Reed-Solomon theory can be stated once, over any such
    field; GaloisField instantiates it with the byte field of the QR encoder.  Each law is a predicate
    of its own, so that a proof uses a law only where it names the instance. */
module FieldTheory {

  datatype Group<!T> = Group(zero: T, add: (T, T) -> T)
  {
    ghost predicate AddComm(a: T, b: T) { add(a, b) == add(b, a) }
    ghost predicate AddAssoc(a: T, b: T, c: T) { add(add(a, b), c) == add(a, add(b, c)) }
    ghost predicate AddZero(a: T) { add(a, zero) == a && add(zero, a) == a }
    ghost predicate AddSelf(a: T) { add(a, a) == zero }
  }

  datatype Field<!T> = Field(g: Group<T>, one: T, mul: (T, T) -> T)
  {
    ghost predicate MulComm(a: T, b: T) { mul(a, b) == mul(b, a) }
    ghost predicate MulAssoc(a: T, b: T, c: T) { mul(mul(a, b), c) == mul(a, mul(b, c)) }
    ghost predicate MulOne(a: T) { mul(a, one) == a && mul(one, a) == a }
    ghost predicate Distrib(a: T, b: T, c: T) { mul(g.add(a, b), c) == g.add(mul(a, c), mul(b, c)) }
    ghost predicate Inverse(a: T, b: T) { mul(a, b) == one }
  }

  /** The additive group: every element is its own inverse. */
  ghost predicate IsGroup2<T(!new)>(G: Group<T>) {
    && (forall a, b :: G.AddComm(a, b))
    && (forall a, b, c :: G.AddAssoc(a, b, c))
    && (forall a :: G.AddZero(a))
    && (forall a :: G.AddSelf(a))
  }

  /** A commutative ring of characteristic two. */
  ghost predicate IsRing2<T(!new)>(F: Field<T>) {
    && IsGroup2(F.g)
    && (forall a, b :: F.MulComm(a, b))
    && (forall a, b, c :: F.MulAssoc(a, b, c))
    && (forall a :: F.MulOne(a))
    && (forall a, b, c :: F.Distrib(a, b, c))
  }

  ghost predicate Invertible<T(!new)>(F: Field<T>, a: T) {
    exists b :: F.Inverse(a, b)
  }

  /** A field: every nonzero element has an inverse. */
  ghost predicate IsField<T(!new)>(F: Field<T>) {
    IsRing2(F) && F.one != F.g.zero && forall a :: a != F.g.zero ==> Invertible(F, a)
  }

  // ---- consequences of the laws ----

  lemma Rearrange<T(!new)>(G: Group<T>, p: T, q: T, r: T, s: T)
    requires IsGroup2(G)
    ensures G.add(G.add(p, q), G.add(r, s)) == G.add(G.add(p, r), G.add(q, s))
  {
    assert G.AddAssoc(p, q, G.add(r, s)) && G.AddAssoc(q, r, s) && G.AddComm(q, r);
    assert G.AddAssoc(r, q, s) && G.AddAssoc(p, r, G.add(q, s));
  }

  lemma Cancel<T(!new)>(G: Group<T>, a: T, b: T)
    requires IsGroup2(G)
    ensures G.add(a, G.add(a, b)) == b && G.add(G.add(b, a), a) == b
    ensures G.add(a, b) == G.zero <==> a == b
  {
    assert G.AddAssoc(a, a, b) && G.AddSelf(a) && G.AddZero(b) && G.AddAssoc(b, a, a) && G.AddZero(a);
    assert G.AddSelf(b);
  }

  lemma MulZero<T(!new)>(F: Field<T>, a: T)
    requires IsRing2(F)
    ensures F.mul(F.g.zero, a) == F.g.zero && F.mul(a, F.g.zero) == F.g.zero
  {
    assert F.Distrib(F.g.zero, F.g.zero, a) && F.g.AddSelf(F.g.zero) && F.g.AddSelf(F.mul(F.g.zero, a));
    assert F.MulComm(a, F.g.zero);
  }

  lemma DistribLeft<T(!new)>(F: Field<T>, a: T, b: T, c: T)
    requires IsRing2(F)
    ensures F.mul(a, F.g.add(b, c)) == F.g.add(F.mul(a, b), F.mul(a, c))
  {
    assert F.Distrib(b, c, a) && F.MulComm(a, F.g.add(b, c)) && F.MulComm(a, b) && F.MulComm(a, c);
  }

  lemma RearrangeMul<T(!new)>(F: Field<T>, p: T, q: T, r: T, s: T)
    requires IsRing2(F)
    ensures F.mul(F.mul(p, q), F.mul(r, s)) == F.mul(F.mul(p, r), F.mul(q, s))
  {
    assert F.MulAssoc(p, q, F.mul(r, s)) && F.MulAssoc(q, r, s) && F.MulComm(q, r);
    assert F.MulAssoc(r, q, s) && F.MulAssoc(p, r, F.mul(q, s));
  }

  lemma NoZeroDivisors<T(!new)>(F: Field<T>, a: T, b: T)
    requires IsField(F) && F.mul(a, b) == F.g.zero
    ensures a == F.g.zero || b == F.g.zero
  {
    if a != F.g.zero {
      assert Invertible(F, a);
      var c :| F.Inverse(a, c);
      assert F.MulComm(a, c) && F.MulAssoc(c, a, b) && F.MulOne(b);
      MulZero(F, c);
    }
  }

  // ---- powers ----

  function Pow<T>(F: Field<T>, a: T, n: nat): T
    decreases n
  {
    if n == 0 then F.one else F.mul(Pow(F, a, n - 1), a)
  }

  lemma {:induction false} PowAdd<T(!new)>(F: Field<T>, a: T, m: nat, n: nat)
    requires IsRing2(F)
    ensures Pow(F, a, m + n) == F.mul(Pow(F, a, m), Pow(F, a, n))
    decreases n
  {
    if n == 0 {
      assert F.MulOne(Pow(F, a, m));
    } else {
      PowAdd(F, a, m, n - 1);
      assert F.MulAssoc(Pow(F, a, m), Pow(F, a, n - 1), a);
    }
  }

  lemma {:induction false} PowMul<T(!new)>(F: Field<T>, a: T, b: T, n: nat)
    requires IsRing2(F)
    ensures Pow(F, F.mul(a, b), n) == F.mul(Pow(F, a, n), Pow(F, b, n))
    decreases n
  {
    if n == 0 {
      assert F.MulOne(F.one);
    } else {
      PowMul(F, a, b, n - 1);
      RearrangeMul(F, Pow(F, a, n - 1), Pow(F, b, n - 1), a, b);
    }
  }

  lemma {:induction false} PowSwap<T(!new)>(F: Field<T>, a: T, m: nat, n: nat)
    requires IsRing2(F)
    ensures Pow(F, Pow(F, a, m), n) == Pow(F, Pow(F, a, n), m)
    decreases m
  {
    if m == 0 {
      PowOne(F, n);
    } else {
      PowSwap(F, a, m - 1, n);
      PowMul(F, Pow(F, a, m - 1), a, n);
    }
  }

  lemma PowSmall<T(!new)>(F: Field<T>, a: T)
    requires IsRing2(F)
    ensures Pow(F, a, 1) == a && Pow(F, a, 2) == F.mul(a, a)
  {
    assert F.MulOne(a);
  }

  lemma {:induction false} PowOne<T(!new)>(F: Field<T>, n: nat)
    requires IsRing2(F)
    ensures Pow(F, F.one, n) == F.one
  {
    if n > 0 {
      PowOne(F, n - 1);
      assert F.MulOne(F.one);
    }
  }

  lemma {:induction false} PowNonzero<T(!new)>(F: Field<T>, a: T, n: nat)
    requires IsField(F) && a != F.g.zero
    ensures Pow(F, a, n) != F.g.zero
  {
    if n > 0 {
      PowNonzero(F, a, n - 1);
      if Pow(F, a, n) == F.g.zero { NoZeroDivisors(F, Pow(F, a, n - 1), a); }
    }
  }

  /** An exponent at which the power is one can be subtracted from another one. */
  lemma {:induction false} PowMod<T(!new)>(F: Field<T>, a: T, k: nat, n: nat) returns (q: nat, r: nat)
    requires IsRing2(F) && k > 0 && Pow(F, a, k) == F.one && Pow(F, a, n) == F.one
    ensures n == q * k + r && r < k && Pow(F, a, r) == F.one
    decreases n
  {
    if n >= k {
      PowAdd(F, a, k, n - k);
      assert F.MulOne(Pow(F, a, n - k));
      q, r := PowMod(F, a, k, n - k);
      q := q + 1;
    } else {
      q, r := 0, n;
    }
  }

  lemma DivisorsOf255(q: nat, k: nat)
    requires 0 < k < 255 && q * k == 255
    ensures k in {1, 3, 5, 15, 17, 51, 85}
  {
    if k >= 16 {
      assert 1 < q < 16;
      if q == 2 { } else if q == 3 { } else if q == 4 { } else if q == 5 { } else if q == 6 { }
      else if q == 7 { } else if q == 8 { } else if q == 9 { } else if q == 10 { } else if q == 11 { }
      else if q == 12 { } else if q == 13 { } else if q == 14 { } else { }
    }
  }

  /** An element with a^255 = 1 has order 255 when no proper divisor of 255 does as well. */
  lemma {:induction false} Order255<T(!new)>(F: Field<T>, a: T, k: nat)
    requires IsRing2(F) && Pow(F, a, 255) == F.one && 0 < k < 255
    requires forall d :: d in {1, 3, 5, 15, 17, 51, 85} ==> Pow(F, a, d) != F.one
    ensures Pow(F, a, k) != F.one
    decreases k
  {
    if Pow(F, a, k) == F.one {
      var q, r := PowMod(F, a, k, 255);
      if r == 0 {
        DivisorsOf255(q, k);
      } else {
        Order255(F, a, r);
      }
    }
  }

  // ---- squaring, an additive map in characteristic two ----

  /** n squarings. */
  function Frobenius<T>(F: Field<T>, a: T, n: nat): T
    decreases n
  {
    if n == 0 then a else Frobenius(F, F.mul(a, a), n - 1)
  }

  lemma SquareOfSum<T(!new)>(F: Field<T>, a: T, b: T)
    requires IsRing2(F)
    ensures F.mul(F.g.add(a, b), F.g.add(a, b)) == F.g.add(F.mul(a, a), F.mul(b, b))
  {
    var s := F.g.add(a, b);
    var m := F.mul(a, b);
    assert F.Distrib(a, b, s);
    DistribLeft(F, a, a, b);
    DistribLeft(F, b, a, b);
    assert F.MulComm(b, a) && F.g.AddComm(m, F.mul(b, b));
    Rearrange(F.g, F.mul(a, a), m, F.mul(b, b), m);
    assert F.g.AddSelf(m) && F.g.AddZero(F.g.add(F.mul(a, a), F.mul(b, b)));
  }

  lemma {:induction false} FrobeniusAdd<T(!new)>(F: Field<T>, a: T, b: T, n: nat)
    requires IsRing2(F)
    ensures Frobenius(F, F.g.add(a, b), n) == F.g.add(Frobenius(F, a, n), Frobenius(F, b, n))
    decreases n
  {
    if n > 0 {
      SquareOfSum(F, a, b);
      FrobeniusAdd(F, F.mul(a, a), F.mul(b, b), n - 1);
    }
  }

  lemma {:induction false} FrobeniusMul<T(!new)>(F: Field<T>, a: T, b: T, n: nat)
    requires IsRing2(F)
    ensures Frobenius(F, F.mul(a, b), n) == F.mul(Frobenius(F, a, n), Frobenius(F, b, n))
    decreases n
  {
    if n > 0 {
      RearrangeMul(F, a, b, a, b);
      FrobeniusMul(F, F.mul(a, a), F.mul(b, b), n - 1);
    }
  }

  function PowerOfTwo(n: nat): (r: nat)
    ensures r > 0
  {
    if n == 0 then 1 else 2 * PowerOfTwo(n - 1)
  }

  lemma {:induction false} FrobeniusSnoc<T>(F: Field<T>, a: T, n: nat)
    ensures Frobenius(F, a, n + 1) == F.mul(Frobenius(F, a, n), Frobenius(F, a, n))
    decreases n
  {
    if n > 0 { FrobeniusSnoc(F, F.mul(a, a), n - 1); }
  }

  lemma {:induction false} FrobeniusPow<T(!new)>(F: Field<T>, a: T, n: nat)
    requires IsRing2(F)
    ensures Frobenius(F, a, n) == Pow(F, a, PowerOfTwo(n))
    decreases n
  {
    if n == 0 {
      PowSmall(F, a);
    } else {
      FrobeniusPow(F, a, n - 1);
      FrobeniusSnoc(F, a, n - 1);
      PowAdd(F, a, PowerOfTwo(n - 1), PowerOfTwo(n - 1));
    }
  }

  /** In a ring with a^256 = a in which 0 and 1 are the only idempotents, a^254 inverts a. */
  lemma InverseByPower<T(!new)>(F: Field<T>, a: T)
    requires IsRing2(F) && a != F.g.zero
    requires Pow(F, a, 256) == a
    requires forall e :: F.mul(e, e) == e ==> e == F.g.zero || e == F.one
    ensures F.Inverse(a, Pow(F, a, 254))
  {
    var e := Pow(F, a, 255);
    assert e == F.mul(a, Pow(F, a, 254)) by { assert F.MulComm(Pow(F, a, 254), a); }
    assert F.mul(e, e) == e by {
      PowAdd(F, a, 255, 255);
      PowAdd(F, a, 256, 254);
    }
    assert F.mul(e, a) == Pow(F, a, 256) == a;
    MulZero(F, a);
  }

  // ---- sums of shifted copies: the sum over i of bs[i] * step^i(a) ----

  ghost predicate IsLinear<T(!new)>(G: Group<T>, f: T -> T) {
    forall a, b :: f(G.add(a, b)) == G.add(f(a), f(b))
  }

  function Pick<T>(G: Group<T>, c: bool, a: T): T {
    if c then a else G.zero
  }

  function Combine<T>(G: Group<T>, step: T -> T, a: T, bs: seq<bool>): T
    decreases |bs|
  {
    if bs == [] then G.zero else G.add(Pick(G, bs[0], a), Combine(G, step, step(a), bs[1..]))
  }

  lemma {:induction false} CombineAdd<T(!new)>(G: Group<T>, step: T -> T, a: T, a': T, bs: seq<bool>)
    requires IsGroup2(G) && IsLinear(G, step)
    ensures Combine(G, step, G.add(a, a'), bs) == G.add(Combine(G, step, a, bs), Combine(G, step, a', bs))
    decreases |bs|
  {
    assert G.AddZero(G.zero);
    if bs != [] {
      CombineAdd(G, step, step(a), step(a'), bs[1..]);
      Rearrange(G, Pick(G, bs[0], a), Pick(G, bs[0], a'), Combine(G, step, step(a), bs[1..]), Combine(G, step, step(a'), bs[1..]));
    }
  }

  /** A linear map that turns one step into another passes through the combination. */
  lemma {:induction false} CombineMap<T(!new)>(G: Group<T>, step: T -> T, step': T -> T, f: T -> T, a: T, bs: seq<bool>)
    requires IsGroup2(G) && IsLinear(G, f)
    requires forall x :: f(step(x)) == step'(f(x))
    ensures f(Combine(G, step, a, bs)) == Combine(G, step', f(a), bs)
    decreases |bs|
  {
    assert f(G.zero) == G.zero by {
      assert G.AddSelf(G.zero) && G.AddSelf(f(G.zero));
      assert f(G.add(G.zero, G.zero)) == G.add(f(G.zero), f(G.zero));
    }
    if bs != [] {
      CombineMap(G, step, step', f, step(a), bs[1..]);
    }
  }

  lemma CombineStep<T>(G: Group<T>, step: T -> T, a: T, bs: seq<bool>, k: nat)
    requires k < |bs|
    ensures Combine(G, step, a, bs[k..]) == G.add(Pick(G, bs[k], a), Combine(G, step, step(a), bs[k + 1..]))
  {
    assert bs[k..][1..] == bs[k + 1..];
  }

  /** Evaluating from the last bit: the combination of bs[k..] from that of bs[k + 1..]. */
  lemma CombineFold<T(!new)>(G: Group<T>, step: T -> T, a: T, bs: seq<bool>, k: nat)
    requires IsGroup2(G) && IsLinear(G, step)
    requires k < |bs|
    ensures Combine(G, step, a, bs[k..]) == G.add(step(Combine(G, step, a, bs[k + 1..])), Pick(G, bs[k], a))
  {
    CombineStep(G, step, a, bs, k);
    CombineMap(G, step, step, step, a, bs[k + 1..]);
    assert G.AddComm(Pick(G, bs[k], a), Combine(G, step, step(a), bs[k + 1..]));
  }

  /** The combination of eight given elements. */
  function Eight<T>(G: Group<T>, a0: T, a1: T, a2: T, a3: T, a4: T, a5: T, a6: T, a7: T, bs: seq<bool>): T
    requires |bs| == 8
  {
    G.add(Pick(G, bs[0], a0), G.add(Pick(G, bs[1], a1), G.add(Pick(G, bs[2], a2), G.add(Pick(G, bs[3], a3),
    G.add(Pick(G, bs[4], a4), G.add(Pick(G, bs[5], a5), G.add(Pick(G, bs[6], a6), G.add(Pick(G, bs[7], a7), G.zero))))))))
  }

  lemma CombineEight<T>(G: Group<T>, step: T -> T, a0: T, a1: T, a2: T, a3: T, a4: T, a5: T, a6: T, a7: T, bs: seq<bool>)
    requires |bs| == 8
    requires a1 == step(a0) && a2 == step(a1) && a3 == step(a2) && a4 == step(a3)
    requires a5 == step(a4) && a6 == step(a5) && a7 == step(a6)
    ensures Combine(G, step, a0, bs) == Eight(G, a0, a1, a2, a3, a4, a5, a6, a7, bs)
  {
    CombineStep(G, step, a0, bs, 0);
    CombineStep(G, step, a1, bs, 1);
    CombineStep(G, step, a2, bs, 2);
    CombineStep(G, step, a3, bs, 3);
    CombineStep(G, step, a4, bs, 4);
    CombineStep(G, step, a5, bs, 5);
    CombineStep(G, step, a6, bs, 6);
    CombineStep(G, step, a7, bs, 7);
  }
}
