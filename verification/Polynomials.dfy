/** Polynomials over a field of characteristic two, highest coefficient first (the order in which the
    QR encoder holds its code words), and the classical facts behind Reed-Solomon codes. */
module Polynomials {
  import opened FieldTheory

  // ---- evaluation ----

  function Eval<T>(F: Field<T>, p: seq<T>, x: T): T
    decreases |p|
  {
    if p == [] then F.g.zero else F.g.add(F.mul(Eval(F, p[..|p| - 1], x), x), p[|p| - 1])
  }

  function Scale<T>(F: Field<T>, c: T, p: seq<T>): (r: seq<T>)
    ensures |r| == |p| && forall i :: 0 <= i < |r| ==> r[i] == F.mul(p[i], c)
  {
    seq(|p|, i requires 0 <= i < |p| => F.mul(p[i], c))
  }

  function AddPoly<T>(F: Field<T>, p: seq<T>, q: seq<T>): (r: seq<T>)
    requires |p| == |q|
    ensures |r| == |p| && forall i :: 0 <= i < |r| ==> r[i] == F.g.add(p[i], q[i])
  {
    seq(|p|, i requires 0 <= i < |p| => F.g.add(p[i], q[i]))
  }

  function Zeros<T>(F: Field<T>, n: nat): (r: seq<T>)
    ensures |r| == n && forall i :: 0 <= i < n ==> r[i] == F.g.zero
  {
    seq(n, _ => F.g.zero)
  }

  lemma EvalSnoc<T>(F: Field<T>, p: seq<T>, c: T, x: T)
    ensures Eval(F, p + [c], x) == F.g.add(F.mul(Eval(F, p, x), x), c)
  {
    assert (p + [c])[..|p|] == p;
  }

  lemma {:induction false} EvalConcat<T(!new)>(F: Field<T>, p: seq<T>, q: seq<T>, x: T)
    requires IsRing2(F)
    ensures Eval(F, p + q, x) == F.g.add(F.mul(Eval(F, p, x), Pow(F, x, |q|)), Eval(F, q, x))
    decreases |q|
  {
    if q == [] {
      assert p + q == p;
      assert F.MulOne(Eval(F, p, x)) && F.g.AddZero(Eval(F, p, x));
    } else {
      var q', c := q[..|q| - 1], q[|q| - 1];
      var e, n := Eval(F, p, x), Pow(F, x, |q'|);
      assert p + q == (p + q') + [c];
      EvalSnoc(F, p + q', c, x);
      EvalConcat(F, p, q', x);
      assert F.Distrib(F.mul(e, n), Eval(F, q', x), x) && F.MulAssoc(e, n, x);
      assert F.g.AddAssoc(F.mul(e, F.mul(n, x)), F.mul(Eval(F, q', x), x), c);
    }
  }

  lemma {:induction false} EvalAdd<T(!new)>(F: Field<T>, p: seq<T>, q: seq<T>, x: T)
    requires IsRing2(F) && |p| == |q|
    ensures Eval(F, AddPoly(F, p, q), x) == F.g.add(Eval(F, p, x), Eval(F, q, x))
    decreases |p|
  {
    if p == [] {
      assert F.g.AddZero(F.g.zero);
    } else {
      var p', c, q', d := p[..|p| - 1], p[|p| - 1], q[..|q| - 1], q[|q| - 1];
      assert AddPoly(F, p, q)[..|p| - 1] == AddPoly(F, p', q');
      EvalAdd(F, p', q', x);
      assert F.Distrib(Eval(F, p', x), Eval(F, q', x), x);
      Rearrange(F.g, F.mul(Eval(F, p', x), x), F.mul(Eval(F, q', x), x), c, d);
    }
  }

  lemma {:induction false} EvalScale<T(!new)>(F: Field<T>, c: T, p: seq<T>, x: T)
    requires IsRing2(F)
    ensures Eval(F, Scale(F, c, p), x) == F.mul(Eval(F, p, x), c)
    decreases |p|
  {
    if p == [] {
      MulZero(F, c);
    } else {
      var p', d := p[..|p| - 1], p[|p| - 1];
      var e := Eval(F, p', x);
      assert Scale(F, c, p)[..|p| - 1] == Scale(F, c, p');
      EvalScale(F, c, p', x);
      assert F.MulAssoc(e, c, x) && F.MulComm(c, x) && F.MulAssoc(e, x, c);
      assert F.Distrib(F.mul(e, x), d, c);
    }
  }

  lemma {:induction false} EvalZeros<T(!new)>(F: Field<T>, n: nat, x: T)
    requires IsRing2(F)
    ensures Eval(F, Zeros(F, n), x) == F.g.zero
    decreases n
  {
    if n > 0 {
      assert Zeros(F, n)[..n - 1] == Zeros(F, n - 1);
      EvalZeros(F, n - 1, x);
      MulZero(F, x);
      assert F.g.AddZero(F.g.zero);
    }
  }

  // ---- the generator: the product of (x - a^i) for i < n ----

  /** p * (x + r). */
  function TimesLinear<T>(F: Field<T>, p: seq<T>, r: T): (q: seq<T>)
    ensures |q| == |p| + 1
  {
    AddPoly(F, p + [F.g.zero], [F.g.zero] + Scale(F, r, p))
  }

  function Generator<T>(F: Field<T>, a: T, n: nat): (p: seq<T>)
    ensures |p| == n + 1
    decreases n
  {
    if n == 0 then [F.one] else TimesLinear(F, Generator(F, a, n - 1), Pow(F, a, n - 1))
  }

  /** The product of the values x + a^i for i < n. */
  function RootProduct<T>(F: Field<T>, a: T, n: nat, x: T): T
    decreases n
  {
    if n == 0 then F.one else F.mul(RootProduct(F, a, n - 1, x), F.g.add(x, Pow(F, a, n - 1)))
  }

  lemma EvalTimesLinear<T(!new)>(F: Field<T>, p: seq<T>, r: T, x: T)
    requires IsRing2(F)
    ensures Eval(F, TimesLinear(F, p, r), x) == F.mul(Eval(F, p, x), F.g.add(x, r))
  {
    var z := F.g.zero;
    var e := Eval(F, p, x);
    EvalAdd(F, p + [z], [z] + Scale(F, r, p), x);
    EvalSnoc(F, p, z, x);
    assert F.g.AddZero(F.mul(e, x));
    EvalConcat(F, [z], Scale(F, r, p), x);
    EvalZeros(F, 1, x);
    assert [z] == Zeros(F, 1);
    MulZero(F, Pow(F, x, |p|));
    EvalScale(F, r, p, x);
    assert F.g.AddZero(F.mul(e, r));
    DistribLeft(F, e, x, r);
  }

  lemma {:induction false} GeneratorValue<T(!new)>(F: Field<T>, a: T, n: nat, x: T)
    requires IsRing2(F)
    ensures Eval(F, Generator(F, a, n), x) == RootProduct(F, a, n, x)
    decreases n
  {
    if n == 0 {
      assert Eval(F, [F.one], x) == F.g.add(F.mul(Eval(F, [], x), x), F.one) by { EvalSnoc(F, [], F.one, x); assert [] + [F.one] == [F.one]; }
      MulZero(F, x);
      assert F.g.AddZero(F.one);
    } else {
      GeneratorValue(F, a, n - 1, x);
      EvalTimesLinear(F, Generator(F, a, n - 1), Pow(F, a, n - 1), x);
    }
  }

  lemma {:induction false} GeneratorMonic<T(!new)>(F: Field<T>, a: T, n: nat)
    requires IsRing2(F)
    ensures Generator(F, a, n)[0] == F.one
    decreases n
  {
    if n > 0 {
      GeneratorMonic(F, a, n - 1);
      assert F.g.AddZero(F.one);
    }
  }

  lemma {:induction false} RootProductVanishes<T(!new)>(F: Field<T>, a: T, n: nat, i: nat)
    requires IsRing2(F) && i < n
    ensures RootProduct(F, a, n, Pow(F, a, i)) == F.g.zero
    decreases n
  {
    var x := Pow(F, a, i);
    if i == n - 1 {
      assert F.g.AddSelf(x);
      MulZero(F, RootProduct(F, a, n - 1, x));
    } else {
      RootProductVanishes(F, a, n - 1, i);
      MulZero(F, F.g.add(x, Pow(F, a, n - 1)));
    }
  }

  // ---- the generator as a shift register ----

  /** The register after i rounds: the product of the first i linear factors, behind leading zeros, of which
      the coefficient above the register's width is not stored. */
  function DivisorRegister<T>(F: Field<T>, a: T, degree: nat, i: nat): (r: seq<T>)
    requires i <= degree
    ensures |r| == degree
  {
    (Zeros(F, degree - i) + Generator(F, a, i))[1..]
  }

  lemma RegisterStart<T>(F: Field<T>, a: T, degree: nat)
    requires degree > 0
    ensures DivisorRegister(F, a, degree, 0) == Zeros(F, degree)[degree - 1 := F.one]
  {
  }

  lemma RegisterEnd<T(!new)>(F: Field<T>, a: T, degree: nat)
    requires IsRing2(F)
    ensures [F.one] + DivisorRegister(F, a, degree, degree) == Generator(F, a, degree)
  {
    hide Generator;
    GeneratorMonic(F, a, degree);
    assert Zeros(F, 0) + Generator(F, a, degree) == Generator(F, a, degree);
  }

  /** The next coefficient, or zero past the end. */
  function NextOr0<T>(F: Field<T>, r: seq<T>, j: nat): T {
    if j + 1 < |r| then r[j + 1] else F.g.zero
  }

  /** The register after multiplication by (x + root): every coefficient times the root, plus the next lower one. */
  function Multiplied<T>(F: Field<T>, r: seq<T>, root: T): (r': seq<T>)
    ensures |r'| == |r| && forall j :: 0 <= j < |r| ==> r'[j] == F.g.add(F.mul(r[j], root), NextOr0(F, r, j))
  {
    seq(|r|, j requires 0 <= j < |r| => F.g.add(F.mul(r[j], root), NextOr0(F, r, j)))
  }

  lemma RegisterRound<T(!new)>(F: Field<T>, a: T, degree: nat, i: nat)
    requires IsRing2(F) && i < degree
    ensures DivisorRegister(F, a, degree, i + 1) == Multiplied(F, DivisorRegister(F, a, degree, i), Pow(F, a, i))
  {
    var r := DivisorRegister(F, a, degree, i);
    RegisterRoundAt(F, a, degree, i, r, Multiplied(F, r, Pow(F, a, i)));
  }

  lemma RegisterRoundAt<T(!new)>(F: Field<T>, a: T, degree: nat, i: nat, r: seq<T>, r': seq<T>)
    requires IsRing2(F)
    requires i < degree && r == DivisorRegister(F, a, degree, i) && |r'| == degree
    requires forall j :: 0 <= j < degree ==> r'[j] == F.g.add(F.mul(r[j], Pow(F, a, i)), NextOr0(F, r, j))
    ensures r' == DivisorRegister(F, a, degree, i + 1)
  {
    var g := Generator(F, a, i);
    var root := Pow(F, a, i);
    var p := Zeros(F, degree - i) + g;
    var t := TimesLinear(F, g, root);
    var q := Zeros(F, degree - i - 1) + t;
    forall j | 0 <= j < degree
      ensures r'[j] == q[j + 1]
    {
      var next := NextOr0(F, r, j);
      var m := j + 2 + i - degree;
      assert r[j] == p[j + 1] && next == (if j + 2 < |p| then p[j + 2] else F.g.zero);
      if m < 0 {
        MulZero(F, root);
        assert F.g.AddZero(F.g.zero);
      } else {
        assert q[j + 1] == t[m];
        assert next == (g + [F.g.zero])[m];
        assert F.mul(r[j], root) == ([F.g.zero] + Scale(F, root, g))[m] by { MulZero(F, root); }
        assert F.g.AddComm(F.mul(r[j], root), next);
      }
    }
  }

  // ---- division by a monic polynomial whose tail is g ----

  /** One step of the shift register: bring in the next coefficient and cancel the leading one. */
  function RegisterStep<T>(F: Field<T>, g: seq<T>, r: seq<T>, v: T): (r': seq<T>)
    requires |r| == |g| > 0
    ensures |r'| == |g|
  {
    AddPoly(F, r[1..] + [F.g.zero], Scale(F, F.g.add(v, r[0]), g))
  }

  function Remainder<T>(F: Field<T>, g: seq<T>, data: seq<T>): (r: seq<T>)
    requires |g| > 0
    ensures |r| == |g|
    decreases |data|
  {
    if data == [] then Zeros(F, |g|)
    else RegisterStep(F, g, Remainder(F, g, data[..|data| - 1]), data[|data| - 1])
  }

  lemma RemainderSnoc<T>(F: Field<T>, g: seq<T>, data: seq<T>, n: nat)
    requires |g| > 0 && n < |data|
    ensures Remainder(F, g, data[..n + 1]) == RegisterStep(F, g, Remainder(F, g, data[..n]), data[n])
  {
    assert data[..n + 1][..n] == data[..n];
  }

  /** Shifting a register of length d multiplies its value by x, except for the coefficient shifted out. */
  lemma ShiftValue<T(!new)>(F: Field<T>, r: seq<T>, x: T)
    requires IsRing2(F) && |r| > 0
    ensures Eval(F, r[1..] + [F.g.zero], x) == F.g.add(F.mul(Eval(F, r, x), x), F.mul(r[0], Pow(F, x, |r|)))
  {
    var t := r[1..];
    var z := F.g.zero;
    var u := F.mul(r[0], Pow(F, x, |t|));
    EvalSnoc(F, t, z, x);
    assert F.g.AddZero(F.mul(Eval(F, t, x), x));
    EvalSnoc(F, [], r[0], x);
    assert [r[0]] == [] + [r[0]] && r == [r[0]] + t;
    MulZero(F, x);
    assert F.g.AddZero(r[0]);
    EvalConcat(F, [r[0]], t, x);
    assert Eval(F, r, x) == F.g.add(u, Eval(F, t, x));
    assert F.Distrib(u, Eval(F, t, x), x) && F.MulAssoc(r[0], Pow(F, x, |t|), x);
    Cancel(F.g, F.mul(u, x), F.mul(Eval(F, t, x), x));
    assert F.g.AddComm(F.mul(u, x), F.g.add(F.mul(u, x), F.mul(Eval(F, t, x), x)));
  }

  /** The value of a code word at a root of the divisor is zero: the register holds the check symbols. */
  lemma {:induction false} RemainderVanishes<T(!new)>(F: Field<T>, g: seq<T>, data: seq<T>, x: T)
    requires IsRing2(F) && |g| > 0 && Eval(F, [F.one] + g, x) == F.g.zero
    ensures Eval(F, data + Remainder(F, g, data), x) == F.g.zero
    decreases |data|
  {
    var n := Pow(F, x, |g|);
    if data == [] {
      assert [] + Zeros(F, |g|) == Zeros(F, |g|);
      EvalZeros(F, |g|, x);
    } else {
      var d, v := data[..|data| - 1], data[|data| - 1];
      var r := Remainder(F, g, d);
      RemainderVanishes(F, g, d, x);
      RegisterValue(F, g, r, v, x);
      EvalConcat(F, d, r, x);
      EvalConcat(F, data, Remainder(F, g, data), x);
      assert data == d + [v];
      EvalSnoc(F, d, v, x);
      BalanceStep(F, Eval(F, d, x), Eval(F, r, x), v, x, n);
    }
  }

  /** The divisor's tail takes the value x^d at a root of the divisor. */
  lemma TailValue<T(!new)>(F: Field<T>, g: seq<T>, x: T)
    requires IsRing2(F) && Eval(F, [F.one] + g, x) == F.g.zero
    ensures Eval(F, g, x) == Pow(F, x, |g|)
  {
    EvalSnoc(F, [], F.one, x);
    assert [F.one] == [] + [F.one];
    MulZero(F, x);
    assert F.g.AddZero(F.one) && F.MulOne(Pow(F, x, |g|));
    EvalConcat(F, [F.one], g, x);
    Cancel(F.g, Pow(F, x, |g|), Eval(F, g, x));
  }

  lemma RegisterValue<T(!new)>(F: Field<T>, g: seq<T>, r: seq<T>, v: T, x: T)
    requires IsRing2(F) && |r| == |g| > 0 && Eval(F, [F.one] + g, x) == F.g.zero
    ensures Eval(F, RegisterStep(F, g, r, v), x) == F.g.add(F.mul(Eval(F, r, x), x), F.mul(v, Pow(F, x, |g|)))
  {
    var n := Pow(F, x, |g|);
    var f := F.g.add(v, r[0]);
    TailValue(F, g, x);
    ShiftValue(F, r, x);
    EvalScale(F, f, g, x);
    EvalAdd(F, r[1..] + [F.g.zero], Scale(F, f, g), x);
    assert F.MulComm(n, f) && F.Distrib(v, r[0], n);
    var p, q, s := F.mul(Eval(F, r, x), x), F.mul(r[0], n), F.mul(v, n);
    assert F.g.AddComm(s, q) && F.g.AddAssoc(p, q, F.g.add(q, s));
    Cancel(F.g, q, s);
  }

  lemma BalanceStep<T(!new)>(F: Field<T>, d: T, r: T, v: T, x: T, n: T)
    requires IsRing2(F) && F.g.add(F.mul(d, n), r) == F.g.zero
    ensures F.g.add(F.mul(F.g.add(F.mul(d, x), v), n), F.g.add(F.mul(r, x), F.mul(v, n))) == F.g.zero
  {
    Cancel(F.g, F.mul(d, n), r);
    assert F.Distrib(F.mul(d, x), v, n);
    assert F.mul(F.mul(d, x), n) == F.mul(r, x) by {
      assert F.MulAssoc(d, x, n) && F.MulComm(x, n) && F.MulAssoc(d, n, x);
    }
    assert F.g.AddSelf(F.g.add(F.mul(r, x), F.mul(v, n)));
  }

  // ---- the minimum distance ----

  function PowerSum<T>(F: Field<T>, cs: seq<T>, xs: seq<T>, i: nat): T
    requires |cs| == |xs|
    decreases |cs|
  {
    if cs == [] then F.g.zero
    else
      var n := |cs| - 1;
      F.g.add(PowerSum(F, cs[..n], xs[..n], i), F.mul(cs[n], Pow(F, xs[n], i)))
  }

  ghost predicate Distinct<T>(xs: seq<T>) {
    forall i, j :: 0 <= i < j < |xs| ==> xs[i] != xs[j]
  }

  /** The coefficients of a combination from which the locator x has been eliminated. */
  function Eliminate<T>(F: Field<T>, cs: seq<T>, xs: seq<T>, x: T): (r: seq<T>)
    requires |cs| == |xs|
    ensures |r| == |cs| && forall k :: 0 <= k < |r| ==> r[k] == F.mul(cs[k], F.g.add(xs[k], x))
  {
    seq(|cs|, k requires 0 <= k < |cs| => F.mul(cs[k], F.g.add(xs[k], x)))
  }

  lemma {:induction false} EliminateSum<T(!new)>(F: Field<T>, cs: seq<T>, xs: seq<T>, x: T, i: nat)
    requires IsRing2(F) && |cs| == |xs|
    ensures PowerSum(F, Eliminate(F, cs, xs, x), xs, i)
         == F.g.add(PowerSum(F, cs, xs, i + 1), F.mul(PowerSum(F, cs, xs, i), x))
    decreases |cs|
  {
    if cs == [] {
      MulZero(F, x);
      assert F.g.AddZero(F.g.zero);
    } else {
      var n := |cs| - 1;
      var c, y := cs[n], xs[n];
      var s, w := PowerSum(F, cs[..n], xs[..n], i), Pow(F, y, i);
      EliminateSum(F, cs[..n], xs[..n], x, i);
      assert Eliminate(F, cs, xs, x)[..n] == Eliminate(F, cs[..n], xs[..n], x);
      assert F.mul(F.mul(c, F.g.add(y, x)), w) == F.g.add(F.mul(c, F.mul(w, y)), F.mul(F.mul(c, w), x)) by {
        assert F.MulAssoc(c, F.g.add(y, x), w) && F.MulComm(F.g.add(y, x), w) && F.MulAssoc(c, w, x);
        DistribLeft(F, w, y, x);
        DistribLeft(F, c, F.mul(w, y), F.mul(w, x));
      }
      assert F.Distrib(s, F.mul(c, w), x);
      Rearrange(F.g, PowerSum(F, cs[..n], xs[..n], i + 1), F.mul(s, x), F.mul(c, F.mul(w, y)), F.mul(F.mul(c, w), x));
    }
  }

  /** Distinct locators are independent: if enough power sums vanish, so do the coefficients. */
  lemma {:induction false} Vandermonde<T(!new)>(F: Field<T>, cs: seq<T>, xs: seq<T>)
    requires IsField(F) && |cs| == |xs| && Distinct(xs)
    requires forall i :: 0 <= i < |cs| ==> PowerSum(F, cs, xs, i) == F.g.zero
    ensures forall k :: 0 <= k < |cs| ==> cs[k] == F.g.zero
    decreases |cs|
  {
    if cs != [] {
      var n := |cs| - 1;
      var cs', xs', c, x := cs[..n], xs[..n], cs[n], xs[n];
      var es := Eliminate(F, cs', xs', x);
      forall i | 0 <= i < n
        ensures PowerSum(F, es, xs', i) == F.g.zero
      {
        LastTerm(F, cs, xs, i);
        LastTerm(F, cs, xs, i + 1);
        EliminateSum(F, cs', xs', x, i);
        assert F.MulAssoc(c, Pow(F, x, i), x) && F.g.AddSelf(F.mul(c, Pow(F, x, i + 1)));
      }
      Vandermonde(F, es, xs');
      forall k | 0 <= k < n
        ensures cs[k] == F.g.zero
      {
        assert es[k] == F.g.zero;
        NoZeroDivisors(F, cs[k], F.g.add(xs[k], x));
        Cancel(F.g, xs[k], x);
      }
      ZeroSum(F, cs', xs', 0);
      LastTerm(F, cs, xs, 0);
      assert F.MulOne(c);
    }
  }

  /** If a power sum vanishes, its last term equals the rest. */
  lemma LastTerm<T(!new)>(F: Field<T>, cs: seq<T>, xs: seq<T>, i: nat)
    requires IsRing2(F) && |cs| == |xs| > 0 && PowerSum(F, cs, xs, i) == F.g.zero
    ensures PowerSum(F, cs[..|cs| - 1], xs[..|cs| - 1], i) == F.mul(cs[|cs| - 1], Pow(F, xs[|cs| - 1], i))
  {
    Cancel(F.g, PowerSum(F, cs[..|cs| - 1], xs[..|cs| - 1], i), F.mul(cs[|cs| - 1], Pow(F, xs[|cs| - 1], i)));
  }

  lemma {:induction false} ZeroSum<T(!new)>(F: Field<T>, cs: seq<T>, xs: seq<T>, i: nat)
    requires IsRing2(F) && |cs| == |xs| && forall k :: 0 <= k < |cs| ==> cs[k] == F.g.zero
    ensures PowerSum(F, cs, xs, i) == F.g.zero
    decreases |cs|
  {
    if cs != [] {
      var n := |cs| - 1;
      ZeroSum(F, cs[..n], xs[..n], i);
      MulZero(F, Pow(F, xs[n], i));
      assert F.g.AddZero(F.g.zero);
    }
  }

  /** The nonzero coefficients of p, and the exponent of x that goes with each, shifted by s. */
  ghost function Support<T(!new)>(F: Field<T>, p: seq<T>, s: nat): (r: (seq<T>, seq<nat>))
    ensures |r.0| == |r.1|
    ensures forall c :: c in r.0 ==> c != F.g.zero
    decreases |p|
  {
    if p == [] then ([], [])
    else
      var (cs, es) := Support(F, p[..|p| - 1], s + 1);
      var c := p[|p| - 1];
      if c == F.g.zero then (cs, es) else (cs + [c], es + [s])
  }

  lemma {:induction false} SupportExponents<T(!new)>(F: Field<T>, p: seq<T>, s: nat)
    ensures forall k :: 0 <= k < |Support(F, p, s).1| ==> s <= Support(F, p, s).1[k] < s + |p|
    ensures forall j, k :: 0 <= j < k < |Support(F, p, s).1| ==> Support(F, p, s).1[k] < Support(F, p, s).1[j]
    decreases |p|
  {
    if p != [] {
      SupportExponents(F, p[..|p| - 1], s + 1);
      var es := Support(F, p[..|p| - 1], s + 1).1;
      assert Support(F, p, s).1 == es || Support(F, p, s).1 == es + [s];
    }
  }

  function Locators<T>(F: Field<T>, a: T, es: seq<nat>): (xs: seq<T>)
    ensures |xs| == |es| && forall k :: 0 <= k < |xs| ==> xs[k] == Pow(F, a, es[k])
  {
    seq(|es|, k requires 0 <= k < |es| => Pow(F, a, es[k]))
  }

  /** The value of p at a^i is the i-th power sum over its support. */
  lemma {:induction false} SupportValue<T(!new)>(F: Field<T>, a: T, p: seq<T>, s: nat, i: nat)
    requires IsRing2(F)
    ensures PowerSum(F, Support(F, p, s).0, Locators(F, a, Support(F, p, s).1), i)
         == F.mul(Eval(F, p, Pow(F, a, i)), Pow(F, Pow(F, a, i), s))
    decreases |p|
  {
    var x := Pow(F, a, i);
    var n := Pow(F, x, s);
    if p == [] {
      MulZero(F, n);
    } else {
      var p', c := p[..|p| - 1], p[|p| - 1];
      var (cs, es) := Support(F, p', s + 1);
      var e := Eval(F, p', x);
      SupportValue(F, a, p', s + 1, i);
      assert F.MulComm(x, n) && F.MulAssoc(e, x, n);
      assert F.Distrib(F.mul(e, x), c, n);
      if c == F.g.zero {
        MulZero(F, n);
        assert F.g.AddZero(F.mul(F.mul(e, x), n));
      } else {
        assert (cs + [c])[..|cs|] == cs && Locators(F, a, es + [s])[..|es|] == Locators(F, a, es);
        PowSwap(F, a, s, i);
      }
    }
  }

  lemma LocatorsDistinct<T(!new)>(F: Field<T>, a: T, es: seq<nat>, n: nat)
    requires IsField(F) && a != F.g.zero
    requires forall k :: 0 < k < n ==> Pow(F, a, k) != F.one
    requires forall k :: 0 <= k < |es| ==> es[k] < n
    requires forall j, k :: 0 <= j < k < |es| ==> es[k] < es[j]
    ensures Distinct(Locators(F, a, es))
  {
    forall j, k | 0 <= j < k < |es|
      ensures Pow(F, a, es[j]) != Pow(F, a, es[k])
    {
      PowersDiffer(F, a, es[k], es[j] - es[k]);
    }
  }

  lemma PowersDiffer<T(!new)>(F: Field<T>, a: T, m: nat, k: nat)
    requires IsField(F) && a != F.g.zero && Pow(F, a, k) != F.one
    ensures Pow(F, a, m + k) != Pow(F, a, m)
  {
    var p, q := Pow(F, a, m), Pow(F, a, k);
    PowAdd(F, a, m, k);
    if F.mul(p, q) == p {
      DistribLeft(F, p, q, F.one);
      assert F.MulOne(p) && F.g.AddSelf(p);
      NoZeroDivisors(F, p, F.g.add(q, F.one));
      PowNonzero(F, a, m);
      Cancel(F.g, q, F.one);
    }
  }

  /** The number of places in which two words of the same length differ. */
  ghost function Distance<T(!new)>(p: seq<T>, q: seq<T>): nat
    requires |p| == |q|
    decreases |p|
  {
    if p == [] then 0
    else Distance(p[..|p| - 1], q[..|q| - 1]) + (if p[|p| - 1] == q[|q| - 1] then 0 else 1)
  }

  lemma {:induction false} DistanceIsSupport<T(!new)>(F: Field<T>, p: seq<T>, q: seq<T>, s: nat)
    requires IsGroup2(F.g) && |p| == |q|
    ensures |Support(F, AddPoly(F, p, q), s).0| == Distance(p, q)
    decreases |p|
  {
    if p != [] {
      var n := |p| - 1;
      DistanceIsSupport(F, p[..n], q[..n], s + 1);
      assert AddPoly(F, p, q)[..n] == AddPoly(F, p[..n], q[..n]);
      Cancel(F.g, p[n], q[n]);
    }
  }

  lemma {:induction false} DistanceZero<T(!new)>(p: seq<T>, q: seq<T>)
    requires |p| == |q|
    ensures Distance(p, q) == 0 <==> p == q
    decreases |p|
  {
    if p != [] {
      var n := |p| - 1;
      DistanceZero(p[..n], q[..n]);
      assert p == p[..n] + [p[n]] && q == q[..n] + [q[n]];
    }
  }

  lemma SupportDistinct<T(!new)>(F: Field<T>, a: T, p: seq<T>)
    requires IsField(F) && a != F.g.zero && forall k :: 0 < k < |p| ==> Pow(F, a, k) != F.one
    ensures Distinct(Locators(F, a, Support(F, p, 0).1))
  {
    SupportExponents(F, p, 0);
    LocatorsDistinct(F, a, Support(F, p, 0).1, |p|);
  }

  /** A word whose first power sums vanish, as many as it has nonzero coefficients, has none. */
  lemma FewTerms<T(!new)>(F: Field<T>, a: T, p: seq<T>)
    requires IsField(F) && a != F.g.zero && forall k :: 0 < k < |p| ==> Pow(F, a, k) != F.one
    requires forall i :: 0 <= i < |Support(F, p, 0).0|
              ==> PowerSum(F, Support(F, p, 0).0, Locators(F, a, Support(F, p, 0).1), i) == F.g.zero
    ensures Support(F, p, 0).0 == []
  {
    var cs := Support(F, p, 0).0;
    assert cs != [] ==> cs[0] in cs;
    SupportDistinct(F, a, p);
    Vandermonde(F, cs, Locators(F, a, Support(F, p, 0).1));
  }

  lemma DifferenceSum<T(!new)>(F: Field<T>, a: T, p: seq<T>, q: seq<T>, i: nat)
    requires IsRing2(F) && |p| == |q|
    requires Eval(F, p, Pow(F, a, i)) == F.g.zero && Eval(F, q, Pow(F, a, i)) == F.g.zero
    ensures PowerSum(F, Support(F, AddPoly(F, p, q), 0).0, Locators(F, a, Support(F, AddPoly(F, p, q), 0).1), i) == F.g.zero
  {
    var x := Pow(F, a, i);
    SupportValue(F, a, AddPoly(F, p, q), 0, i);
    EvalAdd(F, p, q, x);
    assert F.g.AddZero(F.g.zero);
    MulZero(F, Pow(F, x, 0));
  }

  /** Two different words of length n that vanish at 1, a, ..., a^(d-1) differ in more than d places,
      provided the powers of a below the n-th are distinct. */
  lemma MinimumDistance<T(!new)>(F: Field<T>, a: T, d: nat, p: seq<T>, q: seq<T>)
    requires IsField(F) && a != F.g.zero && |p| == |q| && p != q
    requires forall k :: 0 < k < |p| ==> Pow(F, a, k) != F.one
    requires forall i :: 0 <= i < d ==> Eval(F, p, Pow(F, a, i)) == F.g.zero && Eval(F, q, Pow(F, a, i)) == F.g.zero
    ensures Distance(p, q) > d
  {
    var w := AddPoly(F, p, q);
    DistanceIsSupport(F, p, q, 0);
    DistanceZero(p, q);
    if Distance(p, q) <= d {
      forall i | 0 <= i < |Support(F, w, 0).0|
        ensures PowerSum(F, Support(F, w, 0).0, Locators(F, a, Support(F, w, 0).1), i) == F.g.zero
      {
        DifferenceSum(F, a, p, q, i);
      }
      FewTerms(F, a, w);
    }
  }
}
