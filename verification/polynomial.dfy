/**
 Polynomials over GF(256), highest coefficient first (class Polynomial in
 qml/utilities/qrcode/base.py), and the remainder that yields the error correction codewords.
 */
module Polynomials {
  import opened GF256
  import opened Wrappers

  type Poly = seq<bv8>

  // ---- what a polynomial means ---------------------------------------------------------------

  /** Horner's scheme started from acc. */
  function EvalFrom(acc: bv8, p: Poly, x: bv8): bv8
    decreases |p|
  {
    if p == [] then acc else EvalFrom(Xor(Mul(acc, x), p[0]), p[1..], x)
  }

  function Eval(p: Poly, x: bv8): bv8 {
    EvalFrom(0, p, x)
  }

  function Zeros(n: nat): (z: Poly)
    ensures |z| == n && forall i :: 0 <= i < n ==> z[i] == 0
  {
    seq(n, _ => 0)
  }

  function Power(x: bv8, n: nat): bv8 {
    if n == 0 then 1 else Mul(Power(x, n - 1), x)
  }

  lemma {:induction false} EvalAppend(acc: bv8, p: Poly, q: Poly, x: bv8)
    ensures EvalFrom(acc, p + q, x) == EvalFrom(EvalFrom(acc, p, x), q, x)
    decreases |p|
  {
    hide Xor, Mul;
    if p == [] {
      assert p + q == q;
    } else {
      assert (p + q)[1..] == p[1..] + q;
      EvalAppend(Xor(Mul(acc, x), p[0]), p[1..], q, x);
    }
  }

  /** The accumulator contributes acc * x^|p| and nothing else. */
  lemma {:induction false} EvalAffine(acc: bv8, p: Poly, x: bv8)
    ensures EvalFrom(acc, p, x) == Xor(Mul(acc, Power(x, |p|)), Eval(p, x))
    decreases |p|
  {
    hide Xor, Mul;
    if p == [] {
      MulComm(acc, 1);
      OneMul(acc);
      XorSelf(acc);
    } else {
      var n := |p| - 1;
      var q := p[..n];
      assert p == q + [p[n]];
      EvalAffine(acc, q, x);
      EvalAppend(acc, q, [p[n]], x);
      EvalAppend(0, q, [p[n]], x);
      MulXor(Mul(acc, Power(x, n)), Eval(q, x), x);
      MulAssoc(acc, Power(x, n), x);
      XorAssoc(Mul(acc, Power(x, n + 1)), Mul(Eval(q, x), x), p[n]);
      EvalOne(EvalFrom(acc, q, x), p[n], x);
      EvalOne(Eval(q, x), p[n], x);
    }
  }

  lemma {:induction false} EvalOne(acc: bv8, c: bv8, x: bv8)
    ensures EvalFrom(acc, [c], x) == Xor(Mul(acc, x), c)
  {
    hide Xor, Mul;
    assert [c][1..] == [];
  }

  lemma {:induction false} EvalZeros(n: nat, x: bv8)
    ensures Eval(Zeros(n), x) == 0
  {
    hide Xor, Mul;
    if n > 0 {
      assert Zeros(n)[1..] == Zeros(n - 1);
      MulZero(x);
      XorSelf(0);
      EvalZeros(n - 1, x);
    }
  }

  lemma {:induction false} EvalShifted(p: Poly, n: nat, x: bv8)
    ensures Eval(p + Zeros(n), x) == Mul(Eval(p, x), Power(x, n))
  {
    hide Xor, Mul;
    EvalAppend(0, p, Zeros(n), x);
    EvalAffine(Eval(p, x), Zeros(n), x);
    EvalZeros(n, x);
    XorSelf(Mul(Eval(p, x), Power(x, n)));
  }

  lemma {:induction false} EvalPadded(n: nat, p: Poly, x: bv8)
    ensures Eval(Zeros(n) + p, x) == Eval(p, x)
  {
    EvalAppend(0, Zeros(n), p, x);
    EvalZeros(n, x);
  }

  /** p + c * q, coefficient by coefficient. */
  function AddScaled(p: Poly, q: Poly, c: bv8): (r: Poly)
    requires |p| == |q|
    ensures |r| == |p|
  {
    seq(|p|, i requires 0 <= i < |p| => Xor(p[i], Mul(q[i], c)))
  }

  lemma {:induction false} EvalAddScaled(a: bv8, p: Poly, b: bv8, q: Poly, c: bv8, x: bv8)
    requires |p| == |q|
    ensures EvalFrom(Xor(a, Mul(b, c)), AddScaled(p, q, c), x) == Xor(EvalFrom(a, p, x), Mul(EvalFrom(b, q, x), c))
    decreases |p|
  {
    hide Xor, Mul;
    if p != [] {
      var a', b' := Xor(Mul(a, x), p[0]), Xor(Mul(b, x), q[0]);
      assert AddScaled(p, q, c)[1..] == AddScaled(p[1..], q[1..], c);
      EvalAddScaled(a', p[1..], b', q[1..], c, x);
      // (a + b c) x + (p0 + q0 c) = (a x + p0) + (b x + q0) c
      MulXor(a, Mul(b, c), x);
      MulAssoc(b, c, x);
      MulComm(c, x);
      MulAssoc(b, x, c);
      XorSwap(Mul(a, x), Mul(Mul(b, x), c), p[0], Mul(q[0], c));
      MulXor(Mul(b, x), q[0], c);
    }
  }

  // ---- Polynomial.__init__ -------------------------------------------------------------------

  /** Leading zeros removed, but one coefficient always kept. */
  function Trim(num: Poly): (r: Poly)
    ensures |r| <= |num| && (num != [] ==> r != [])
    ensures num != [] ==> r[0] != 0 || r == [0]
  {
    if |num| > 1 && num[0] == 0 then Trim(num[1..]) else num
  }

  lemma {:induction false} TrimIsSuffix(num: Poly)
    ensures num == Zeros(|num| - |Trim(num)|) + Trim(num)
    ensures Trim(num) == [0] <==> num != [] && num == Zeros(|num|)
  {
    if |num| > 1 && num[0] == 0 {
      TrimIsSuffix(num[1..]);
      assert num == [num[0]] + num[1..];
      var k := |num| - 1 - |Trim(num)|;
      assert num == ([0] + Zeros(k)) + Trim(num);
      assert [0] + Zeros(k) == Zeros(k + 1);
      assert Zeros(|num|)[1..] == Zeros(|num| - 1);
    } else {
      assert num == Zeros(0) + num;
    }
  }

  lemma {:induction false} EvalTrim(num: Poly, x: bv8)
    ensures Eval(Trim(num), x) == Eval(num, x)
  {
    hide Xor, Mul;
    TrimIsSuffix(num);
    EvalPadded(|num| - |Trim(num)|, Trim(num), x);
  }

  /** The constructor: it raises on an empty list and otherwise skips to the first non-zero entry. */
  method MakePolynomial(num: Poly, shift: nat) returns (r: Option<Poly>)
    ensures r == if num == [] then None else Some(Trim(num) + Zeros(shift))
  {
    if num == [] {
      return None;
    }
    var offset := 0;
    while offset < |num| - 1 && num[offset] == 0
      invariant offset < |num|
      invariant Trim(num) == Trim(num[offset..])
    {
      assert num[offset..][1..] == num[offset + 1..];
      offset := offset + 1;
    }
    return Some(num[offset..] + seq(shift, _ => 0));
  }

  // ---- Polynomial.__mod__ --------------------------------------------------------------------

  /**
   One subtraction of the division: other, scaled so that the leading coefficients agree, is taken
   from the front of p.  The scale is written with logarithms as in the program.
   */
  function Reduce(p: Poly, other: Poly): (r: Poly)
    requires 0 < |other| <= |p| && p[0] != 0 && 0 !in other
    ensures |r| == |p|
  {
    var ratio := GLog(p[0]) - GLog(other[0]);
    seq(|other|, i requires 0 <= i < |other| => Xor(p[i], GExp(GLog(other[i]) + ratio))) + p[|other|..]
  }

  /** The leading terms cancel, and a root of other sees no difference. */
  lemma {:induction false} ReduceMeaning(p: Poly, other: Poly, x: bv8)
    requires 0 < |other| <= |p| && p[0] != 0 && 0 !in other
    ensures Reduce(p, other)[0] == 0
    ensures Eval(other, x) == 0 ==> Eval(Reduce(p, other), x) == Eval(p, x)
  {
    hide Xor, Mul, GExp, Pow;
    var ratio := GLog(p[0]) - GLog(other[0]);
    var m, c := |other|, GExp(ratio);
    var head := seq(m, i requires 0 <= i < m => Xor(p[i], GExp(GLog(other[i]) + ratio)));
    assert head == AddScaled(p[..m], other, c) by {
      forall i | 0 <= i < m ensures head[i] == AddScaled(p[..m], other, c)[i] {
        GExpSum(GLog(other[i]), ratio);
        LogExp(other[i]);
      }
    }
    LogExp(p[0]);
    XorSelf(p[0]);
    assert p == p[..m] + p[m..];
    EvalAppend(0, p[..m], p[m..], x);
    EvalAppend(0, head, p[m..], x);
    EvalAddScaled(0, p[..m], 0, other, c, x);
    MulZero(c);
    XorSelf(0);
    XorSelf(Eval(p[..m], x));
  }

  /** The remainder, or None where the program raises because it takes the logarithm of zero. */
  function Mod(p: Poly, other: Poly): (r: Option<Poly>)
    requires p != [] && other != []
    ensures r.Some? ==> 0 < |r.value| < |other|
    decreases |p|, if p[0] == 0 then 0 else 1
  {
    if |p| < |other| then Some(p)
    else if p[0] == 0 || 0 in other then None
    else
      ReduceMeaning(p, other, 0);
      Mod(Trim(Reduce(p, other)), other)
  }

  lemma {:induction false} ModKeepsRoots(p: Poly, other: Poly, x: bv8)
    requires p != [] && other != []
    requires Eval(other, x) == 0
    ensures Mod(p, other).Some? ==> Eval(Mod(p, other).value, x) == Eval(p, x)
    decreases |p|, if p[0] == 0 then 0 else 1
  {
    hide Xor, Mul, GExp, Eval;
    if |p| >= |other| && p[0] != 0 && 0 !in other {
      ReduceMeaning(p, other, x);
      EvalTrim(Reduce(p, other), x);
      ModKeepsRoots(Trim(Reduce(p, other)), other, x);
    }
  }

  /** Exactly when the division raises. */
  lemma {:induction false} ModRaises(p: Poly, other: Poly)
    requires p != [] && other != []
    ensures Mod(p, other).None? <==> |p| >= |other| && (p[0] == 0 || 0 in other || |other| == 1)
    decreases |p|, if p[0] == 0 then 0 else 1
  {
    hide Xor, Mul, GExp;
    if |p| >= |other| && p[0] != 0 && 0 !in other {
      ReduceMeaning(p, other, 0);
      ModRaises(Trim(Reduce(p, other)), other);
    }
  }
}
