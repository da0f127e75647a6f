/**
 The table of generator polynomials (qml/utilities/qrcode/LUT.py) and its certificate.

 R0 .. R30 list the products of the first n linear factors, padded in front with zeros to 32
 coefficients.  Thirteen of them are the rows of the program's table; the others are the
 intermediate products that connect them.
 */
module GeneratorTable {
  import opened GF256
  import opened Wrappers
  import opened Polynomials
  import opened Generators

  datatype Eight = Eight(a: bv8, b: bv8, c: bv8, d: bv8, e: bv8, f: bv8, g: bv8, h: bv8)
  {
    function ToPoly(): (r: Poly)
      ensures |r| == 8
    {
      [a, b, c, d, e, f, g, h]
    }

    /** Every coefficient times the first window entry, plus its successor; `after` succeeds the last one. */
    function Next(after: bv8, w: Eight): Eight {
      Eight(Xor(b, SelectedSum(a, w)), Xor(c, SelectedSum(b, w)), Xor(d, SelectedSum(c, w)), Xor(e, SelectedSum(d, w)),
            Xor(f, SelectedSum(e, w)), Xor(g, SelectedSum(f, w)), Xor(h, SelectedSum(g, w)), Xor(after, SelectedSum(h, w)))
    }

    /** The first k coefficients are zero and no other is. */
    predicate Shape(k: int) {
      && (a == 0 <==> k > 0) && (b == 0 <==> k > 1) && (c == 0 <==> k > 2) && (d == 0 <==> k > 3)
      && (e == 0 <==> k > 4) && (f == 0 <==> k > 5) && (g == 0 <==> k > 6) && (h == 0 <==> k > 7)
    }
  }

  datatype Row = Row(p: Eight, q: Eight, s: Eight, t: Eight)
  {
    function ToPoly(): (r: Poly)
      ensures |r| == 32
    {
      p.ToPoly() + q.ToPoly() + s.ToPoly() + t.ToPoly()
    }

    function Next(w: Eight): Row {
      Row(p.Next(q.a, w), q.Next(s.a, w), s.Next(t.a, w), t.Next(0, w))
    }

    predicate Shape(k: int) {
      p.Shape(k) && q.Shape(k - 8) && s.Shape(k - 16) && t.Shape(k - 24)
    }
  }

  /** r, r x, ..., r x^7. */
  function Window(r: bv8): Eight {
    var r1 := XTime(r);
    var r2 := XTime(r1);
    var r3 := XTime(r2);
    var r4 := XTime(r3);
    var r5 := XTime(r4);
    var r6 := XTime(r5);
    Eight(r, r1, r2, r3, r4, r5, r6, XTime(r6))
  }

  function Xor8(a: bv8, b: bv8, c: bv8, d: bv8, e: bv8, f: bv8, g: bv8, h: bv8): bv8 {
    a ^ b ^ c ^ d ^ e ^ f ^ g ^ h
  }

  /** The window entries that the bits of c select, added up. */
  function SelectedSum(c: bv8, w: Eight): bv8 {
    Xor8(if c & 0x01 != 0 then w.a else 0, if c & 0x02 != 0 then w.b else 0,
         if c & 0x04 != 0 then w.c else 0, if c & 0x08 != 0 then w.d else 0,
         if c & 0x10 != 0 then w.e else 0, if c & 0x20 != 0 then w.f else 0,
         if c & 0x40 != 0 then w.g else 0, if c & 0x80 != 0 then w.h else 0)
  }

  lemma {:induction false} BitsOf(c: bv8)
    ensures (c & 1 != 0) == (c & 0x01 != 0) && ((c >> 1) & 1 != 0) == (c & 0x02 != 0)
    ensures ((c >> 2) & 1 != 0) == (c & 0x04 != 0) && ((c >> 3) & 1 != 0) == (c & 0x08 != 0)
    ensures ((c >> 4) & 1 != 0) == (c & 0x10 != 0) && ((c >> 5) & 1 != 0) == (c & 0x20 != 0)
    ensures ((c >> 6) & 1 != 0) == (c & 0x40 != 0) && ((c >> 7) & 1 != 0) == (c & 0x80 != 0)
  {}

  lemma {:induction false} FlatXor(a: bv8, b: bv8, c: bv8, d: bv8, e: bv8, f: bv8, g: bv8, h: bv8)
    ensures Xor8(a, b, c, d, e, f, g, h) == Xor(a, Xor(b, Xor(c, Xor(d, Xor(e, Xor(f, Xor(g, h)))))))
  {}

  lemma {:induction false} SumIsNested(c: bv8, w: Eight)
    ensures SelectedSum(c, w) == Xor(Select(c & 0x01 != 0, w.a), Xor(Select(c & 0x02 != 0, w.b),
                         Xor(Select(c & 0x04 != 0, w.c), Xor(Select(c & 0x08 != 0, w.d),
                         Xor(Select(c & 0x10 != 0, w.e), Xor(Select(c & 0x20 != 0, w.f),
                         Xor(Select(c & 0x40 != 0, w.g), Select(c & 0x80 != 0, w.h))))))))
  {
    hide Xor, Xor8;
    FlatXor(Select(c & 0x01 != 0, w.a), Select(c & 0x02 != 0, w.b), Select(c & 0x04 != 0, w.c),
            Select(c & 0x08 != 0, w.d), Select(c & 0x10 != 0, w.e), Select(c & 0x20 != 0, w.f),
            Select(c & 0x40 != 0, w.g), Select(c & 0x80 != 0, w.h));
  }

  lemma {:induction false} SumIsMul(c: bv8, r: bv8)
    ensures SelectedSum(c, Window(r)) == Mul(r, c)
  {
    hide Xor, XTime, Select, SelectedSum;
    SumIsNested(c, Window(r));
    BitsOf(c);
    ShiftDown(c);
    var r1 := XTime(r);
    var r2 := XTime(r1);
    var r3 := XTime(r2);
    var r4 := XTime(r3);
    var r5 := XTime(r4);
    var r6 := XTime(r5);
    var r7 := XTime(r6);
    XorSelf(Select((c >> 7) & 1 != 0, r7));
    assert MulBits(r7, c >> 7, 1) == Xor(Select((c >> 7) & 1 != 0, r7), MulBits(XTime(r7), (c >> 7) >> 1, 0));
    assert MulBits(r6, c >> 6, 2) == Xor(Select((c >> 6) & 1 != 0, r6), MulBits(r7, c >> 7, 1));
    assert MulBits(r5, c >> 5, 3) == Xor(Select((c >> 5) & 1 != 0, r5), MulBits(r6, c >> 6, 2));
    assert MulBits(r4, c >> 4, 4) == Xor(Select((c >> 4) & 1 != 0, r4), MulBits(r5, c >> 5, 3));
    assert MulBits(r3, c >> 3, 5) == Xor(Select((c >> 3) & 1 != 0, r3), MulBits(r4, c >> 4, 4));
    assert MulBits(r2, c >> 2, 6) == Xor(Select((c >> 2) & 1 != 0, r2), MulBits(r3, c >> 3, 5));
    assert MulBits(r1, c >> 1, 7) == Xor(Select((c >> 1) & 1 != 0, r1), MulBits(r2, c >> 2, 6));
  }

  lemma {:induction false} NextCoefficients(e: Eight, after: bv8, r: bv8)
    ensures e.Next(after, Window(r)).ToPoly() == AddScaled(e.ToPoly()[1..] + [after], e.ToPoly(), r)
  {
    hide Xor, SelectedSum, Window, Mul, AddScaled;
    SumTimes(e.a, r);
    SumTimes(e.b, r);
    SumTimes(e.c, r);
    SumTimes(e.d, r);
    SumTimes(e.e, r);
    SumTimes(e.f, r);
    SumTimes(e.g, r);
    SumTimes(e.h, r);
    AddScaledEight(e.b, e.c, e.d, e.e, e.f, e.g, e.h, after, e.a, e.b, e.c, e.d, e.e, e.f, e.g, e.h, r);
    assert e.ToPoly()[1..] + [after] == [e.b, e.c, e.d, e.e, e.f, e.g, e.h, after];
  }

  lemma {:induction false} AddScaledEight(a: bv8, b: bv8, c: bv8, d: bv8, e: bv8, f: bv8, g: bv8, h: bv8,
      i: bv8, j: bv8, k: bv8, l: bv8, m: bv8, n: bv8, o: bv8, p: bv8, r: bv8)
    ensures AddScaled([a, b, c, d, e, f, g, h], [i, j, k, l, m, n, o, p], r)
         == [Xor(a, Mul(i, r)), Xor(b, Mul(j, r)), Xor(c, Mul(k, r)), Xor(d, Mul(l, r)),
             Xor(e, Mul(m, r)), Xor(f, Mul(n, r)), Xor(g, Mul(o, r)), Xor(h, Mul(p, r))]
  {
    hide Xor, Mul;
  }

  lemma {:induction false} SumTimes(c: bv8, r: bv8)
    ensures SelectedSum(c, Window(r)) == Mul(c, r)
  {
    hide SelectedSum, Window, Mul;
    SumIsMul(c, r);
    MulComm(c, r);
  }

  lemma {:induction false} AddScaledConcat(u: Poly, p: Poly, v: Poly, q: Poly, c: bv8)
    requires |u| == |p| && |v| == |q|
    ensures AddScaled(u + v, p + q, c) == AddScaled(u, p, c) + AddScaled(v, q, c)
  {
    hide Xor, Mul;
  }

  lemma {:induction false} NextRowCoefficients(row: Row, r: bv8)
    ensures row.Next(Window(r)).ToPoly() == AddScaled(row.ToPoly()[1..] + [0], row.ToPoly(), r)
  {
    hide Xor, SelectedSum, Window, Mul, Eight.Next, AddScaled, Eight.ToPoly;
    NextCoefficients(row.p, row.q.a, r);
    NextCoefficients(row.q, row.s.a, r);
    NextCoefficients(row.s, row.t.a, r);
    NextCoefficients(row.t, 0, r);
    var p, q, s, t := row.p.ToPoly(), row.q.ToPoly(), row.s.ToPoly(), row.t.ToPoly();
    var up, uq, us, ut := p[1..] + [row.q.a], q[1..] + [row.s.a], s[1..] + [row.t.a], t[1..] + [0];
    AddScaledConcat(up, p, uq, q, r);
    AddScaledConcat(up + uq, p + q, us, s, r);
    AddScaledConcat(up + uq + us, p + q + s, ut, t, r);
    FirstCoefficient(row.q);
    FirstCoefficient(row.s);
    FirstCoefficient(row.t);
    assert row.ToPoly()[1..] + [0] == up + uq + us + ut;
  }

  lemma {:induction false} FirstCoefficient(e: Eight)
    ensures e.ToPoly()[0] == e.a
  {}

  /** One step of the table multiplies by (x + r), as long as the leading coefficient is zero. */
  lemma {:induction false} EvalNext(row: Row, r: bv8, x: bv8)
    requires row.p.a == 0
    ensures Eval(row.Next(Window(r)).ToPoly(), x) == Mul(Eval(row.ToPoly(), x), Xor(x, r))
  {
    hide Xor, SelectedSum, Window, Mul, Eight.Next, Row.Next, AddScaled, Eight.ToPoly;
    NextRowCoefficients(row, r);
    FirstCoefficient(row.p);
    var p := row.ToPoly();
    var u := p[1..] + [0];
    MulZero(r);
    MulZero(x);
    XorSelf(0);
    EvalAddScaled(0, u, 0, p, r, x);
    EvalAppend(0, p[1..], [0], x);
    assert p[0] == 0;
    EvalOne(Eval(p[1..], x), 0, x);
    XorSelf(Mul(Eval(p, x), x));
    MulXor(x, r, Eval(p, x));
    MulComm(Eval(p, x), Xor(x, r));
    MulComm(Eval(p, x), x);
    MulComm(Eval(p, x), r);
  }

  lemma {:induction false} WindowOfPower(n: nat)
    ensures Window(Pow(n)) == Eight(Pow(n), Pow(n + 1), Pow(n + 2), Pow(n + 3),
                                    Pow(n + 4), Pow(n + 5), Pow(n + 6), Pow(n + 7))
  {
    hide XTime;
    assert Pow(n + 1) == XTime(Pow(n));
    assert Pow(n + 2) == XTime(Pow(n + 1));
    assert Pow(n + 3) == XTime(Pow(n + 2));
    assert Pow(n + 4) == XTime(Pow(n + 3));
    assert Pow(n + 5) == XTime(Pow(n + 4));
    assert Pow(n + 6) == XTime(Pow(n + 5));
    assert Pow(n + 7) == XTime(Pow(n + 6));
  }

  function R0(): Row {
    Row(Eight(0, 0, 0, 0, 0, 0, 0, 0),
        Eight(0, 0, 0, 0, 0, 0, 0, 0),
        Eight(0, 0, 0, 0, 0, 0, 0, 0),
        Eight(0, 0, 0, 0, 0, 0, 0, 1))
  }

  function R1(): Row {
    Row(Eight(0, 0, 0, 0, 0, 0, 0, 0),
        Eight(0, 0, 0, 0, 0, 0, 0, 0),
        Eight(0, 0, 0, 0, 0, 0, 0, 0),
        Eight(0, 0, 0, 0, 0, 0, 1, 1))
  }

  function R2(): Row {
    Row(Eight(0, 0, 0, 0, 0, 0, 0, 0),
        Eight(0, 0, 0, 0, 0, 0, 0, 0),
        Eight(0, 0, 0, 0, 0, 0, 0, 0),
        Eight(0, 0, 0, 0, 0, 1, 3, 2))
  }

  function R3(): Row {
    Row(Eight(0, 0, 0, 0, 0, 0, 0, 0),
        Eight(0, 0, 0, 0, 0, 0, 0, 0),
        Eight(0, 0, 0, 0, 0, 0, 0, 0),
        Eight(0, 0, 0, 0, 1, 7, 14, 8))
  }

  function R4(): Row {
    Row(Eight(0, 0, 0, 0, 0, 0, 0, 0),
        Eight(0, 0, 0, 0, 0, 0, 0, 0),
        Eight(0, 0, 0, 0, 0, 0, 0, 0),
        Eight(0, 0, 0, 1, 15, 54, 120, 64))
  }

  function R5(): Row {
    Row(Eight(0, 0, 0, 0, 0, 0, 0, 0),
        Eight(0, 0, 0, 0, 0, 0, 0, 0),
        Eight(0, 0, 0, 0, 0, 0, 0, 0),
        Eight(0, 0, 1, 31, 198, 63, 147, 116))
  }

  function R6(): Row {
    Row(Eight(0, 0, 0, 0, 0, 0, 0, 0),
        Eight(0, 0, 0, 0, 0, 0, 0, 0),
        Eight(0, 0, 0, 0, 0, 0, 0, 0),
        Eight(0, 1, 63, 1, 218, 32, 227, 38))
  }

  function R7(): Row {
    Row(Eight(0, 0, 0, 0, 0, 0, 0, 0),
        Eight(0, 0, 0, 0, 0, 0, 0, 0),
        Eight(0, 0, 0, 0, 0, 0, 0, 0),
        Eight(1, 127, 122, 154, 164, 11, 68, 117))
  }

  function R8(): Row {
    Row(Eight(0, 0, 0, 0, 0, 0, 0, 0),
        Eight(0, 0, 0, 0, 0, 0, 0, 0),
        Eight(0, 0, 0, 0, 0, 0, 0, 1),
        Eight(255, 11, 81, 54, 239, 173, 200, 24))
  }

  function R9(): Row {
    Row(Eight(0, 0, 0, 0, 0, 0, 0, 0),
        Eight(0, 0, 0, 0, 0, 0, 0, 0),
        Eight(0, 0, 0, 0, 0, 0, 1, 226),
        Eight(207, 158, 245, 235, 164, 232, 197, 37))
  }

  function R10(): Row {
    Row(Eight(0, 0, 0, 0, 0, 0, 0, 0),
        Eight(0, 0, 0, 0, 0, 0, 0, 0),
        Eight(0, 0, 0, 0, 0, 1, 216, 194),
        Eight(159, 111, 199, 94, 95, 113, 157, 193))
  }

  function R11(): Row {
    Row(Eight(0, 0, 0, 0, 0, 0, 0, 0),
        Eight(0, 0, 0, 0, 0, 0, 0, 0),
        Eight(0, 0, 0, 0, 1, 172, 130, 163),
        Eight(50, 123, 219, 162, 248, 144, 116, 160))
  }

  function R12(): Row {
    Row(Eight(0, 0, 0, 0, 0, 0, 0, 0),
        Eight(0, 0, 0, 0, 0, 0, 0, 0),
        Eight(0, 0, 0, 1, 68, 119, 67, 118),
        Eight(220, 31, 7, 84, 92, 127, 213, 97))
  }

  function R13(): Row {
    Row(Eight(0, 0, 0, 0, 0, 0, 0, 0),
        Eight(0, 0, 0, 0, 0, 0, 0, 0),
        Eight(0, 0, 1, 137, 73, 227, 17, 177),
        Eight(17, 52, 13, 46, 43, 83, 132, 120))
  }

  function R14(): Row {
    Row(Eight(0, 0, 0, 0, 0, 0, 0, 0),
        Eight(0, 0, 0, 0, 0, 0, 0, 0),
        Eight(0, 1, 14, 54, 114, 70, 174, 151),
        Eight(43, 158, 195, 127, 166, 210, 234, 163))
  }

  function R15(): Row {
    Row(Eight(0, 0, 0, 0, 0, 0, 0, 0),
        Eight(0, 0, 0, 0, 0, 0, 0, 0),
        Eight(1, 29, 196, 111, 163, 112, 74, 10),
        Eight(105, 105, 139, 132, 151, 32, 134, 26))
  }

  function R16(): Row {
    Row(Eight(0, 0, 0, 0, 0, 0, 0, 0),
        Eight(0, 0, 0, 0, 0, 0, 0, 1),
        Eight(59, 13, 104, 189, 68, 209, 30, 8),
        Eight(163, 65, 41, 229, 98, 50, 36, 59))
  }

  function R17(): Row {
    Row(Eight(0, 0, 0, 0, 0, 0, 0, 0),
        Eight(0, 0, 0, 0, 0, 0, 1, 119),
        Eight(66, 83, 120, 119, 22, 197, 83, 249),
        Eight(41, 143, 134, 85, 53, 125, 99, 79))
  }

  function R18(): Row {
    Row(Eight(0, 0, 0, 0, 0, 0, 0, 0),
        Eight(0, 0, 0, 0, 0, 1, 239, 251),
        Eight(183, 113, 149, 175, 199, 215, 240, 220),
        Eight(73, 82, 173, 75, 32, 67, 217, 146))
  }

  function R19(): Row {
    Row(Eight(0, 0, 0, 0, 0, 0, 0, 0),
        Eight(0, 0, 0, 0, 1, 194, 8, 26),
        Eight(146, 20, 223, 187, 152, 85, 115, 238),
        Eight(133, 146, 109, 173, 138, 33, 172, 179))
  }

  function R20(): Row {
    Row(Eight(0, 0, 0, 0, 0, 0, 0, 0),
        Eight(0, 0, 0, 1, 152, 185, 240, 5),
        Eight(111, 99, 6, 220, 112, 150, 69, 36),
        Eight(187, 22, 228, 198, 121, 121, 165, 174))
  }

  function R21(): Row {
    Row(Eight(0, 0, 0, 0, 0, 0, 0, 0),
        Eight(0, 0, 1, 44, 243, 13, 131, 49),
        Eight(132, 194, 67, 214, 28, 89, 124, 82),
        Eight(158, 244, 37, 236, 142, 82, 255, 89))
  }

  function R22(): Row {
    Row(Eight(0, 0, 0, 0, 0, 0, 0, 0),
        Eight(0, 1, 89, 179, 131, 176, 182, 244),
        Eight(19, 189, 69, 40, 28, 137, 29, 123),
        Eight(67, 253, 86, 218, 230, 26, 145, 245))
  }

  function R23(): Row {
    Row(Eight(0, 0, 0, 0, 0, 0, 0, 0),
        Eight(1, 179, 68, 154, 163, 140, 136, 190),
        Eight(152, 25, 85, 19, 3, 196, 27, 113),
        Eight(198, 18, 130, 2, 120, 93, 41, 71))
  }

  function R24(): Row {
    Row(Eight(0, 0, 0, 0, 0, 0, 0, 1),
        Eight(122, 118, 169, 70, 178, 237, 216, 102),
        Eight(115, 150, 229, 73, 130, 72, 61, 43),
        Eight(206, 1, 237, 247, 127, 217, 144, 117))
  }

  function R25(): Row {
    Row(Eight(0, 0, 0, 0, 0, 0, 1, 245),
        Eight(49, 228, 53, 215, 6, 205, 210, 38),
        Eight(82, 56, 80, 97, 139, 81, 134, 126),
        Eight(168, 98, 226, 125, 23, 171, 173, 193))
  }

  function R26(): Row {
    Row(Eight(0, 0, 0, 0, 0, 1, 246, 51),
        Eight(183, 4, 136, 98, 199, 152, 77, 56),
        Eight(206, 24, 145, 40, 209, 117, 233, 42),
        Eight(135, 68, 70, 144, 146, 77, 43, 94))
  }

  function R27(): Row {
    Row(Eight(0, 0, 0, 0, 1, 240, 61, 29),
        Eight(145, 144, 117, 150, 48, 58, 139, 94),
        Eight(134, 193, 105, 33, 169, 202, 102, 123),
        Eight(113, 195, 25, 213, 6, 152, 164, 217))
  }

  function R28(): Row {
    Row(Eight(0, 0, 0, 1, 252, 9, 28, 13),
        Eight(18, 251, 208, 150, 103, 174, 100, 41),
        Eight(167, 12, 247, 56, 117, 119, 233, 127),
        Eight(181, 100, 121, 147, 176, 74, 58, 197))
  }

  function R29(): Row {
    Row(Eight(0, 0, 1, 228, 193, 196, 48, 170),
        Eight(86, 80, 217, 54, 143, 79, 32, 88),
        Eight(255, 87, 24, 15, 251, 85, 82, 201),
        Eight(58, 112, 191, 153, 108, 132, 143, 170))
  }

  function R30(): Row {
    Row(Eight(0, 1, 212, 246, 77, 73, 195, 192),
        Eight(75, 98, 5, 70, 103, 177, 22, 217),
        Eight(138, 51, 181, 246, 72, 25, 18, 46),
        Eight(228, 74, 216, 195, 11, 106, 130, 150))
  }

  lemma {:induction false} Steps0()
    ensures R1() == R0().Next(Eight(1, 2, 4, 8, 16, 32, 64, 128))
    ensures R2() == R1().Next(Eight(2, 4, 8, 16, 32, 64, 128, 29))
    ensures R3() == R2().Next(Eight(4, 8, 16, 32, 64, 128, 29, 58))
    ensures R4() == R3().Next(Eight(8, 16, 32, 64, 128, 29, 58, 116))
    ensures R5() == R4().Next(Eight(16, 32, 64, 128, 29, 58, 116, 232))
    ensures R6() == R5().Next(Eight(32, 64, 128, 29, 58, 116, 232, 205))
  {}

  lemma {:induction false} Steps6()
    ensures R7() == R6().Next(Eight(64, 128, 29, 58, 116, 232, 205, 135))
    ensures R8() == R7().Next(Eight(128, 29, 58, 116, 232, 205, 135, 19))
    ensures R9() == R8().Next(Eight(29, 58, 116, 232, 205, 135, 19, 38))
    ensures R10() == R9().Next(Eight(58, 116, 232, 205, 135, 19, 38, 76))
    ensures R11() == R10().Next(Eight(116, 232, 205, 135, 19, 38, 76, 152))
    ensures R12() == R11().Next(Eight(232, 205, 135, 19, 38, 76, 152, 45))
  {}

  lemma {:induction false} Steps12()
    ensures R13() == R12().Next(Eight(205, 135, 19, 38, 76, 152, 45, 90))
    ensures R14() == R13().Next(Eight(135, 19, 38, 76, 152, 45, 90, 180))
    ensures R15() == R14().Next(Eight(19, 38, 76, 152, 45, 90, 180, 117))
    ensures R16() == R15().Next(Eight(38, 76, 152, 45, 90, 180, 117, 234))
    ensures R17() == R16().Next(Eight(76, 152, 45, 90, 180, 117, 234, 201))
    ensures R18() == R17().Next(Eight(152, 45, 90, 180, 117, 234, 201, 143))
  {}

  lemma {:induction false} Steps18()
    ensures R19() == R18().Next(Eight(45, 90, 180, 117, 234, 201, 143, 3))
    ensures R20() == R19().Next(Eight(90, 180, 117, 234, 201, 143, 3, 6))
    ensures R21() == R20().Next(Eight(180, 117, 234, 201, 143, 3, 6, 12))
    ensures R22() == R21().Next(Eight(117, 234, 201, 143, 3, 6, 12, 24))
    ensures R23() == R22().Next(Eight(234, 201, 143, 3, 6, 12, 24, 48))
    ensures R24() == R23().Next(Eight(201, 143, 3, 6, 12, 24, 48, 96))
  {}

  lemma {:induction false} Steps24()
    ensures R25() == R24().Next(Eight(143, 3, 6, 12, 24, 48, 96, 192))
    ensures R26() == R25().Next(Eight(3, 6, 12, 24, 48, 96, 192, 157))
    ensures R27() == R26().Next(Eight(6, 12, 24, 48, 96, 192, 157, 39))
    ensures R28() == R27().Next(Eight(12, 24, 48, 96, 192, 157, 39, 78))
    ensures R29() == R28().Next(Eight(24, 48, 96, 192, 157, 39, 78, 156))
    ensures R30() == R29().Next(Eight(48, 96, 192, 157, 39, 78, 156, 37))
  {}

  lemma {:induction false} Shapes0()
    ensures R0().Shape(31)
    ensures R1().Shape(30)
    ensures R2().Shape(29)
    ensures R3().Shape(28)
    ensures R4().Shape(27)
    ensures R5().Shape(26)
  {}

  lemma {:induction false} Shapes6()
    ensures R6().Shape(25)
    ensures R7().Shape(24)
    ensures R8().Shape(23)
    ensures R9().Shape(22)
    ensures R10().Shape(21)
    ensures R11().Shape(20)
  {}

  lemma {:induction false} Shapes12()
    ensures R12().Shape(19)
    ensures R13().Shape(18)
    ensures R14().Shape(17)
    ensures R15().Shape(16)
    ensures R16().Shape(15)
    ensures R17().Shape(14)
  {}

  lemma {:induction false} Shapes18()
    ensures R18().Shape(13)
    ensures R19().Shape(12)
    ensures R20().Shape(11)
    ensures R21().Shape(10)
    ensures R22().Shape(9)
    ensures R23().Shape(8)
  {}

  lemma {:induction false} Shapes24()
    ensures R24().Shape(7)
    ensures R25().Shape(6)
    ensures R26().Shape(5)
    ensures R27().Shape(4)
    ensures R28().Shape(3)
    ensures R29().Shape(2)
  {}

  lemma {:induction false} Shapes30()
    ensures R30().Shape(1)
  {}

  lemma {:induction false} Powers0()
    ensures Pow(0) == 1
    ensures Pow(1) == 2
    ensures Pow(2) == 4
    ensures Pow(3) == 8
    ensures Pow(4) == 16
    ensures Pow(5) == 32
    ensures Pow(6) == 64
    ensures Pow(7) == 128
    ensures Pow(8) == 29
    ensures Pow(9) == 58
  {
    assert Pow(1) == XTime(Pow(0));
    assert Pow(2) == XTime(Pow(1));
    assert Pow(3) == XTime(Pow(2));
    assert Pow(4) == XTime(Pow(3));
    assert Pow(5) == XTime(Pow(4));
    assert Pow(6) == XTime(Pow(5));
    assert Pow(7) == XTime(Pow(6));
    assert Pow(8) == XTime(Pow(7));
    assert Pow(9) == XTime(Pow(8));
  }

  lemma {:induction false} Powers9()
    ensures Pow(9) == 58
    ensures Pow(10) == 116
    ensures Pow(11) == 232
    ensures Pow(12) == 205
    ensures Pow(13) == 135
    ensures Pow(14) == 19
    ensures Pow(15) == 38
    ensures Pow(16) == 76
    ensures Pow(17) == 152
    ensures Pow(18) == 45
  {
    Powers0();
    assert Pow(10) == XTime(Pow(9));
    assert Pow(11) == XTime(Pow(10));
    assert Pow(12) == XTime(Pow(11));
    assert Pow(13) == XTime(Pow(12));
    assert Pow(14) == XTime(Pow(13));
    assert Pow(15) == XTime(Pow(14));
    assert Pow(16) == XTime(Pow(15));
    assert Pow(17) == XTime(Pow(16));
    assert Pow(18) == XTime(Pow(17));
  }

  lemma {:induction false} Powers18()
    ensures Pow(18) == 45
    ensures Pow(19) == 90
    ensures Pow(20) == 180
    ensures Pow(21) == 117
    ensures Pow(22) == 234
    ensures Pow(23) == 201
    ensures Pow(24) == 143
    ensures Pow(25) == 3
    ensures Pow(26) == 6
    ensures Pow(27) == 12
  {
    Powers9();
    assert Pow(19) == XTime(Pow(18));
    assert Pow(20) == XTime(Pow(19));
    assert Pow(21) == XTime(Pow(20));
    assert Pow(22) == XTime(Pow(21));
    assert Pow(23) == XTime(Pow(22));
    assert Pow(24) == XTime(Pow(23));
    assert Pow(25) == XTime(Pow(24));
    assert Pow(26) == XTime(Pow(25));
    assert Pow(27) == XTime(Pow(26));
  }

  lemma {:induction false} Powers27()
    ensures Pow(27) == 12
    ensures Pow(28) == 24
    ensures Pow(29) == 48
    ensures Pow(30) == 96
    ensures Pow(31) == 192
    ensures Pow(32) == 157
    ensures Pow(33) == 39
    ensures Pow(34) == 78
    ensures Pow(35) == 156
    ensures Pow(36) == 37
  {
    Powers18();
    assert Pow(28) == XTime(Pow(27));
    assert Pow(29) == XTime(Pow(28));
    assert Pow(30) == XTime(Pow(29));
    assert Pow(31) == XTime(Pow(30));
    assert Pow(32) == XTime(Pow(31));
    assert Pow(33) == XTime(Pow(32));
    assert Pow(34) == XTime(Pow(33));
    assert Pow(35) == XTime(Pow(34));
    assert Pow(36) == XTime(Pow(35));
  }

  lemma {:induction false} Powers36()
    ensures Pow(36) == 37
  {
    Powers27();
  }

  function RowAt(n: nat): Row
    requires n <= 30
  {
    match n
    case 0 => R0()
    case 1 => R1()
    case 2 => R2()
    case 3 => R3()
    case 4 => R4()
    case 5 => R5()
    case 6 => R6()
    case 7 => R7()
    case 8 => R8()
    case 9 => R9()
    case 10 => R10()
    case 11 => R11()
    case 12 => R12()
    case 13 => R13()
    case 14 => R14()
    case 15 => R15()
    case 16 => R16()
    case 17 => R17()
    case 18 => R18()
    case 19 => R19()
    case 20 => R20()
    case 21 => R21()
    case 22 => R22()
    case 23 => R23()
    case 24 => R24()
    case 25 => R25()
    case 26 => R26()
    case 27 => R27()
    case 28 => R28()
    case 29 => R29()
    case _ => R30()
  }

  lemma {:induction false} StepOfEarlyRow(n: nat)
    requires n < 12
    ensures RowAt(n + 1) == RowAt(n).Next(Window(Pow(n)))
  {
    hide XTime, Pow, SelectedSum, Eight.Next, Row.Next, Window;
    hide R0, R1, R2, R3, R4, R5, R6, R7, R8, R9, R10, R11, R12, R13, R14, R15, R16, R17, R18, R19, R20, R21, R22, R23, R24, R25, R26, R27, R28, R29, R30;
    WindowOfPower(n);
    if n < 6 {
      Steps0();
      Powers0();
      Powers9();
    } else {
      Steps6();
      Powers0();
      Powers9();
      Powers18();
    }
  }

  lemma {:induction false} StepOfLateRow(n: nat)
    requires 12 <= n < 30
    ensures RowAt(n + 1) == RowAt(n).Next(Window(Pow(n)))
  {
    hide XTime, Pow, SelectedSum, Eight.Next, Row.Next, Window;
    hide R0, R1, R2, R3, R4, R5, R6, R7, R8, R9, R10, R11, R12, R13, R14, R15, R16, R17, R18, R19, R20, R21, R22, R23, R24, R25, R26, R27, R28, R29, R30;
    WindowOfPower(n);
    if n < 18 {
      Steps12();
      Powers9();
      Powers18();
    } else if n < 24 {
      Steps18();
      Powers9();
      Powers18();
      Powers27();
    } else {
      Steps24();
      Powers18();
      Powers27();
      Powers36();
    }
  }

  /** Each row of the table is the product of the one before and its linear factor. */
  lemma {:induction false} StepOfRow(n: nat)
    requires n < 30
    ensures RowAt(n + 1) == RowAt(n).Next(Window(Pow(n)))
  {
    hide RowAt, Row.Next, Window, Pow;
    if n < 12 {
      StepOfEarlyRow(n);
    } else {
      StepOfLateRow(n);
    }
  }

  lemma {:induction false} ShapeOfEarlyRow(n: nat)
    requires n < 12
    ensures RowAt(n).Shape(31 - n)
  {
    hide Row.Shape;
    hide R0, R1, R2, R3, R4, R5, R6, R7, R8, R9, R10, R11, R12, R13, R14, R15, R16, R17, R18, R19, R20, R21, R22, R23, R24, R25, R26, R27, R28, R29, R30;
    if n < 6 {
      Shapes0();
    } else {
      Shapes6();
    }
  }

  lemma {:induction false} ShapeOfMiddleRow(n: nat)
    requires 12 <= n < 24
    ensures RowAt(n).Shape(31 - n)
  {
    hide Row.Shape;
    hide R0, R1, R2, R3, R4, R5, R6, R7, R8, R9, R10, R11, R12, R13, R14, R15, R16, R17, R18, R19, R20, R21, R22, R23, R24, R25, R26, R27, R28, R29, R30;
    if n < 18 {
      Shapes12();
    } else {
      Shapes18();
    }
  }

  lemma {:induction false} ShapeOfLateRow(n: nat)
    requires 24 <= n <= 30
    ensures RowAt(n).Shape(31 - n)
  {
    hide Row.Shape;
    hide R0, R1, R2, R3, R4, R5, R6, R7, R8, R9, R10, R11, R12, R13, R14, R15, R16, R17, R18, R19, R20, R21, R22, R23, R24, R25, R26, R27, R28, R29, R30;
    if n < 30 {
      Shapes24();
    } else {
      Shapes30();
    }
  }

  lemma {:induction false} ShapeOfRow(n: nat)
    requires n <= 30
    ensures RowAt(n).Shape(31 - n)
  {
    hide RowAt, Row.Shape;
    if n < 12 {
      ShapeOfEarlyRow(n);
    } else if n < 24 {
      ShapeOfMiddleRow(n);
    } else {
      ShapeOfLateRow(n);
    }
  }

  /** Row n has n + 1 coefficients, none of them zero, and the first n powers as roots. */
  ghost predicate Good(row: Row, n: nat) {
    row.Shape(31 - n) && VanishesOn(row.ToPoly(), n)
  }

  lemma {:induction false} Extend(row: Row, n: nat)
    requires n < 31 && Good(row, n) && row.Next(Window(Pow(n))).Shape(30 - n)
    ensures Good(row.Next(Window(Pow(n))), n + 1)
  {
    hide Xor, Mul, Pow, SelectedSum, Window, Eval, Eight.Next, Row.Next, Eight.ToPoly, Row.ToPoly;
    var next := row.Next(Window(Pow(n)));
    forall i: nat | i < n + 1 ensures Eval(next.ToPoly(), GExp(i)) == 0 {
      EvalNext(row, Pow(n), GExp(i));
      MulZero(Xor(GExp(i), Pow(n)));
      XorSelf(Pow(n));
      MulZero(Eval(row.ToPoly(), GExp(i)));
    }
  }

  lemma {:induction false} RowIsGood(n: nat)
    requires n <= 30
    ensures Good(RowAt(n), n)
  {
    hide Pow, Eight.Next, Row.Next, Window, Row.Shape, RowAt, Eval;
    ShapeOfRow(n);
    if n > 0 {
      RowIsGood(n - 1);
      StepOfRow(n - 1);
      Extend(RowAt(n - 1), n - 1);
    }
  }

  /** The program's table: the coefficients of the row without its padding. */
  function Lut(n: nat): Option<Poly> {
    if IsKey(n) then Some(RowAt(n).ToPoly()[31 - n..]) else None
  }

  /** The keys of the table: the error correction counts that occur. */
  predicate IsKey(n: nat) {
    n == 7 || n == 10 || n == 13 || n == 15 || n == 16 || n == 17 || n == 18 || n == 20 || n == 22 || n == 24 || n == 26 || n == 28 || n == 30
  }

  lemma {:induction false} ShapeMeaning(row: Row, k: nat)
    requires k < 32 && row.Shape(k)
    ensures forall i :: 0 <= i < 32 ==> (row.ToPoly()[i] == 0 <==> i < k)
  {
    EightShape(row.p, k);
    EightShape(row.q, k - 8);
    EightShape(row.s, k - 16);
    EightShape(row.t, k - 24);
  }

  lemma {:induction false} EightShape(e: Eight, k: int)
    requires e.Shape(k)
    ensures forall i :: 0 <= i < 8 ==> (e.ToPoly()[i] == 0 <==> i < k)
  {
    var q := e.ToPoly();
    assert q[0] == e.a && q[1] == e.b && q[2] == e.c && q[3] == e.d;
    assert q[4] == e.e && q[5] == e.f && q[6] == e.g && q[7] == e.h;
    hide Eight.ToPoly;
    forall i | 0 <= i < 8 ensures q[i] == 0 <==> i < k {
      assert i == 0 || i == 1 || i == 2 || i == 3 || i == 4 || i == 5 || i == 6 || i == 7;
    }
  }

  lemma {:induction false} GoodRowTrimmed(row: Row, n: nat)
    requires n < 31 && Good(row, n)
    ensures var p := row.ToPoly()[31 - n..]; |p| == n + 1 && 0 !in p && VanishesOn(p, n)
  {
    hide Xor, Mul, GExp, Eval, Eight.ToPoly, Row.ToPoly, Row.Shape;
    ShapeMeaning(row, 31 - n);
    var p := row.ToPoly()[31 - n..];
    assert row.ToPoly() == Zeros(31 - n) + p;
    forall i: nat | i < n ensures Eval(p, GExp(i)) == 0 {
      EvalPadded(31 - n, p, GExp(i));
    }
  }

  /** Every entry of the table is a generator polynomial for its key, with no zero coefficient. */
  lemma {:induction false} LutIsGood(n: nat)
    requires Lut(n).Some?
    ensures n <= 30 && |Lut(n).value| == n + 1 && 0 !in Lut(n).value && VanishesOn(Lut(n).value, n)
  {
    hide Row.ToPoly, Good, VanishesOn, RowAt;
    RowIsGood(n);
    GoodRowTrimmed(RowAt(n), n);
  }
}
