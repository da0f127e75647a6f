/**
 Generator polynomials: the products (x + a^0)(x + a^1)...(x + a^(n-1)) that create_bytes divides by
 when its table has no entry (qml/utilities/qrcode/base.py:265-272, util.py:523-526).
 */
module Generators {
  import opened GF256
  import opened Wrappers
  import opened Polynomials

  // ---- Polynomial.__mul__ --------------------------------------------------------------------

  lemma {:induction false} PowerSum(x: bv8, m: nat, n: nat)
    ensures Power(x, m + n) == Mul(Power(x, m), Power(x, n))
  {
    hide Mul;
    if n == 0 {
      MulComm(Power(x, m), 1);
      OneMul(Power(x, m));
    } else {
      PowerSum(x, m, n - 1);
      MulAssoc(Power(x, m), Power(x, n - 1), x);
    }
  }

  /** Adding t to one coefficient adds t * x^position to the value. */
  lemma {:induction false} EvalUpdate(acc: bv8, p: Poly, k: nat, t: bv8, x: bv8)
    requires k < |p|
    ensures EvalFrom(acc, p[k := Xor(p[k], t)], x) == Xor(EvalFrom(acc, p, x), Mul(t, Power(x, |p| - 1 - k)))
    decreases k
  {
    hide Xor, Mul;
    var u := p[k := Xor(p[k], t)];
    var a := Xor(Mul(acc, x), p[0]);
    if k == 0 {
      assert u[1..] == p[1..];
      var n := |p| - 1;
      XorAssoc(Mul(acc, x), p[0], t);
      EvalAffine(Xor(a, t), p[1..], x);
      EvalAffine(a, p[1..], x);
      MulXor(a, t, Power(x, n));
      XorAssoc(Mul(a, Power(x, n)), Mul(t, Power(x, n)), Eval(p[1..], x));
      XorComm(Mul(t, Power(x, n)), Eval(p[1..], x));
      XorAssoc(Mul(a, Power(x, n)), Eval(p[1..], x), Mul(t, Power(x, n)));
    } else {
      assert u[1..] == p[1..][k - 1 := Xor(p[1..][k - 1], t)];
      EvalUpdate(a, p[1..], k - 1, t, x);
    }
  }

  /** The first i coefficients of p, the others replaced by zero. */
  function Prefix(p: Poly, i: nat): (r: Poly)
    requires i <= |p|
    ensures |r| == |p|
  {
    p[..i] + Zeros(|p| - i)
  }

  lemma {:induction false} EvalPrefix(p: Poly, i: nat, x: bv8)
    requires i < |p|
    ensures Eval(Prefix(p, i + 1), x) == Xor(Eval(Prefix(p, i), x), Mul(p[i], Power(x, |p| - 1 - i)))
  {
    hide Xor, Mul;
    XorSelf(p[i]);
    assert Prefix(p, i + 1) == Prefix(p, i)[i := Xor(Prefix(p, i)[i], p[i])];
    EvalUpdate(0, Prefix(p, i), i, p[i], x);
  }

  /** The value of num once the terms of rows 0..i-1 and of row i up to column j-1 are in. */
  function PartialProduct(p: Poly, i: nat, q: Poly, j: nat, x: bv8): bv8
    requires i < |p| && j <= |q|
  {
    Xor(Mul(Eval(Prefix(p, i), x), Eval(q, x)),
        Mul(Mul(p[i], Power(x, |p| - 1 - i)), Eval(Prefix(q, j), x)))
  }

  lemma {:induction false} PartialStart(p: Poly, i: nat, q: Poly, x: bv8)
    requires i < |p|
    ensures PartialProduct(p, i, q, 0, x) == Mul(Eval(Prefix(p, i), x), Eval(q, x))
    ensures i == 0 ==> PartialProduct(p, 0, q, 0, x) == 0
  {
    hide Xor, Mul;
    assert Prefix(q, 0) == Zeros(|q|);
    EvalZeros(|q|, x);
    MulZero(Mul(p[i], Power(x, |p| - 1 - i)));
    XorSelf(Mul(Eval(Prefix(p, i), x), Eval(q, x)));
    assert Prefix(p, 0) == Zeros(|p|);
    EvalZeros(|p|, x);
    MulZero(Eval(q, x));
  }

  lemma {:induction false} PartialStep(p: Poly, i: nat, q: Poly, j: nat, num: Poly, x: bv8)
    requires i < |p| && j < |q| && |num| == |p| + |q| - 1
    requires Eval(num, x) == PartialProduct(p, i, q, j, x)
    ensures Eval(num[i + j := Xor(num[i + j], Mul(p[i], q[j]))], x) == PartialProduct(p, i, q, j + 1, x)
  {
    hide Xor, Mul;
    var u, v := |p| - 1 - i, |q| - 1 - j;
    EvalUpdate(0, num, i + j, Mul(p[i], q[j]), x);
    PowerSum(x, u, v);
    EvalPrefix(q, j, x);
    var a, b := Power(x, u), Power(x, v);
    // (p q)(a b) = (p a)(q b)
    MulAssoc(Mul(p[i], q[j]), a, b);
    MulAssoc(p[i], q[j], a);
    MulComm(q[j], a);
    MulAssoc(p[i], a, q[j]);
    MulAssoc(Mul(p[i], a), q[j], b);
    MulXor(Eval(Prefix(q, j), x), Mul(q[j], b), Mul(p[i], a));
    XorAssoc(Mul(Eval(Prefix(p, i), x), Eval(q, x)), Mul(Mul(p[i], a), Eval(Prefix(q, j), x)),
             Mul(Mul(p[i], a), Mul(q[j], b)));
  }

  lemma {:induction false} PartialRow(p: Poly, i: nat, q: Poly, x: bv8)
    requires i < |p|
    ensures PartialProduct(p, i, q, |q|, x) == Mul(Eval(Prefix(p, i + 1), x), Eval(q, x))
  {
    hide Xor, Mul;
    assert Prefix(q, |q|) == q;
    EvalPrefix(p, i, x);
    MulXor(Eval(Prefix(p, i), x), Mul(p[i], Power(x, |p| - 1 - i)), Eval(q, x));
  }

  /**
   The double loop over both factors.  It takes the logarithm of every coefficient, so it raises
   (None) exactly when one of them is zero; otherwise the result evaluates to the product of the
   factors' values everywhere.
   */
  method Times(p: Poly, q: Poly) returns (r: Option<Poly>)
    requires p != [] && q != []
    ensures r.None? <==> 0 in p || 0 in q
    ensures r.Some? ==> |r.value| == |p| + |q| - 1 && r.value[0] == Mul(p[0], q[0])
    ensures r.Some? ==> forall x :: Eval(r.value, x) == Mul(Eval(p, x), Eval(q, x))
  {
    hide Xor, Mul, Pow, GExp, GLog, EvalFrom, Power;
    var num := Zeros(|p| + |q| - 1);
    forall x ensures Eval(num, x) == PartialProduct(p, 0, q, 0, x) {
      PartialStart(p, 0, q, x);
      EvalZeros(|num|, x);
    }
    for i := 0 to |p|
      invariant |num| == |p| + |q| - 1
      invariant 0 !in p[..i] && (i > 0 ==> 0 !in q && num[0] == Mul(p[0], q[0]))
      invariant i == 0 ==> num[0] == 0
      invariant i < |p| ==> forall x :: Eval(num, x) == PartialProduct(p, i, q, 0, x)
      invariant i == |p| ==> forall x :: Eval(num, x) == Mul(Eval(p, x), Eval(q, x))
    {
      for j := 0 to |q|
        invariant |num| == |p| + |q| - 1
        invariant 0 !in q[..j] && (j > 0 ==> p[i] != 0)
        invariant if i == 0 && j == 0 then num[0] == 0 else num[0] == Mul(p[0], q[0])
        invariant forall x :: Eval(num, x) == PartialProduct(p, i, q, j, x)
      {
        if p[i] == 0 || q[j] == 0 {
          return None;
        }
        LogProduct(p[i], q[j]);
        XorSelf(Mul(p[0], q[0]));
        ghost var before := num;
        num := num[i + j := Xor(num[i + j], GExp(GLog(p[i]) + GLog(q[j])))];
        forall x ensures Eval(num, x) == PartialProduct(p, i, q, j + 1, x) {
          PartialStep(p, i, q, j, before, x);
        }
      }
      forall x ensures Eval(num, x) == Mul(Eval(Prefix(p, i + 1), x), Eval(q, x)) {
        PartialRow(p, i, q, x);
      }
      if i + 1 < |p| {
        forall x ensures Eval(num, x) == PartialProduct(p, i + 1, q, 0, x) {
          PartialStart(p, i + 1, q, x);
        }
      } else {
        assert Prefix(p, i + 1) == p;
      }
    }
    MulNonZero(p[0], q[0]);
    r := MakePolynomial(num, 0);
    assert Trim(num) + Zeros(0) == num;
  }

  // ---- the product loop ----------------------------------------------------------------------

  ghost predicate VanishesOn(p: Poly, n: nat) {
    forall i: nat :: i < n ==> Eval(p, GExp(i)) == 0
  }

  /** [1, g] is x + g. */
  lemma {:induction false} EvalLinear(g: bv8, x: bv8)
    ensures Eval([1, g], x) == Xor(x, g)
  {
    hide Xor, Mul;
    assert [1, g][1..] == [g];
    MulZero(x);
    XorSelf(1);
    OneMul(x);
    EvalOne(1, g, x);
  }

  /** The fallback of create_bytes: multiply the n linear factors together. */
  method ProductLoop(n: nat) returns (r: Option<Poly>)
    ensures r.Some? ==> |r.value| == n + 1 && r.value[0] == 1 && VanishesOn(r.value, n)
    ensures r.None? ==> exists p: Poly :: 0 < |p| <= n && p[0] == 1 && 0 in p && VanishesOn(p, |p| - 1)
  {
    hide Xor, Mul, Pow, GExp, EvalFrom, Eval;
    var p: Poly := [1];
    for i := 0 to n
      invariant |p| == i + 1 && p[0] == 1 && VanishesOn(p, i)
    {
      GExpNonZero(i);
      var product := Times(p, [1, GExp(i)]);
      if product.None? {
        return None;
      }
      OneMul(1);
      forall k: nat | k < i + 1 ensures Eval(product.value, GExp(k)) == 0 {
        EvalLinear(GExp(i), GExp(k));
        XorSelf(GExp(i));
        MulZero(Eval(p, GExp(k)));
        MulZero(Eval([1, GExp(i)], GExp(k)));
      }
      p := product.value;
    }
    return Some(p);
  }
}
