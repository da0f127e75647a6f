/**
 The size of a symbol and the room it has for codewords (qml/utilities/qrcode/main.py:177 and
 ISO/IEC 18004:2015, section 7.1).
 */
module Versions {
  function SizeOf(version: nat): nat {
    version * 4 + 17
  }

  /** The number of alignment patterns along one side. */
  function Alignments(version: nat): nat {
    if version < 2 then 0 else version / 7 + 2
  }

  /** Finder patterns with borders, timing, format information, version information, alignment patterns. */
  function FunctionModules(version: nat): nat {
    var k := Alignments(version);
    192 + 2 * (4 * version + 1) + 31 + (if version < 7 then 0 else 36)
    + if k < 2 then 0 else 25 * ((k - 1) * (k - 1)) + 40 * (k - 2)
  }

  /** The modules left over, and the codewords for which they have room. */
  function FreeModules(version: nat): int {
    SizeOf(version) * SizeOf(version) - FunctionModules(version)
  }

  function Capacity(version: nat): int {
    FreeModules(version) / 8
  }

  lemma {:induction false} CapacityIs(version: nat, codewords: int)
    requires 8 * codewords <= FreeModules(version) <= 8 * codewords + 7
    ensures Capacity(version) == codewords
  {
    hide FreeModules;
    EighthIs(FreeModules(version), codewords);
  }

  lemma {:induction false} EighthIs(a: int, n: int)
    requires 8 * n <= a <= 8 * n + 7
    ensures a / 8 == n
  {}

  /** Every version has room for more codewords than the one before. */
  lemma {:induction false} CapacityIncreases(v: nat, w: nat)
    requires 1 <= v < w <= 40
    ensures Capacity(v) < Capacity(w)
    decreases w
  {
    if v + 1 < w {
      CapacityIncreases(v, w - 1);
    }
    CapacityStep(w - 1);
  }

  lemma {:induction false} CapacityStep(v: nat)
    requires 1 <= v < 40
    ensures Capacity(v) < Capacity(v + 1)
  {
    FunctionsStep(v);
    SquareStep(SizeOf(v));
    hide FunctionModules;
    assert SizeOf(v + 1) == SizeOf(v) + 4;
    EighthsGrow(SizeOf(v) * SizeOf(v) - FunctionModules(v), SizeOf(v + 1) * SizeOf(v + 1) - FunctionModules(v + 1));
  }

  lemma {:induction false} SquareStep(n: nat)
    ensures (n + 4) * (n + 4) == n * n + 8 * n + 16
  {}

  lemma {:induction false} EighthsGrow(a: int, b: int)
    requires a + 8 <= b
    ensures a / 8 < b / 8
  {}

  lemma {:induction false} FunctionsStep(v: nat)
    requires 1 <= v < 40
    ensures FunctionModules(v + 1) <= FunctionModules(v) + 32 * v + 144
  {
    if Alignments(v) != Alignments(v + 1) {
      assert v == 1 || v == 6 || v == 13 || v == 20 || v == 27 || v == 34;
    }
  }
}
