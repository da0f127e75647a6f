/**
 Error correction codewords and the final codeword sequence (create_bytes,
 qml/utilities/qrcode/util.py:499-548).
 */
module ErrorCorrection {
  import opened GF256
  import opened Wrappers
  import opened Polynomials
  import opened Generators
  import opened GeneratorTable
  import opened Interleaving

  datatype RSBlock = RSBlock(totalCount: nat, dataCount: nat)
  {
    function EcCount(): int {
      totalCount - dataCount
    }
  }

  predicate AllZero(data: Poly) {
    forall i :: 0 <= i < |data| ==> data[i] == 0
  }

  // ---- one block -----------------------------------------------------------------------------

  /** The remainder, right aligned in a field of ecCount codewords. */
  method RightAlign(remainder: Poly, ecCount: nat) returns (ec: Poly)
    requires |remainder| <= ecCount
    ensures ec == Zeros(ecCount - |remainder|) + remainder
  {
    ec := [];
    var offset := |remainder| - ecCount;
    for i := 0 to ecCount
      invariant |ec| == i
      invariant ec == (Zeros(ecCount - |remainder|) + remainder)[..i]
    {
      var index := i + offset;
      ec := ec + [if index >= 0 then remainder[index] else 0];
    }
  }

  lemma {:induction false} BlockVanishes(data: Poly, remainder: Poly, generator: Poly, ec: Poly, x: bv8)
    requires data != [] && generator != []
    requires Mod(Trim(data) + Zeros(|ec|), generator) == Some(remainder)
    requires |remainder| <= |ec| && ec == Zeros(|ec| - |remainder|) + remainder
    requires Eval(generator, x) == 0
    ensures Eval(data + ec, x) == 0
  {
    hide Xor, Mul, Eval, Mod, Power;
    var n := |ec|;
    ModKeepsRoots(Trim(data) + Zeros(n), generator, x);
    EvalShifted(Trim(data), n, x);
    EvalTrim(data, x);
    EvalPadded(n - |remainder|, remainder, x);
    AppendedValue(data, ec, x);
    XorSelf(Eval(ec, x));
  }

  lemma {:induction false} AppendedValue(data: Poly, ec: Poly, x: bv8)
    ensures Eval(data + ec, x) == Xor(Mul(Eval(data, x), Power(x, |ec|)), Eval(ec, x))
  {
    EvalAppend(0, data, ec, x);
    EvalAffine(Eval(data, x), ec, x);
  }

  /** The generator of the table, or the product loop where the table has no entry. */
  method ChooseGenerator(ecCount: int) returns (r: Option<Poly>)
    ensures r.Some? ==> |r.value| == (if ecCount < 0 then 0 else ecCount) + 1
    ensures r.Some? ==> VanishesOn(r.value, |r.value| - 1)
    ensures ecCount >= 0 && Lut(ecCount).Some? ==> r.Some? && 0 !in r.value
  {
    if ecCount >= 0 && Lut(ecCount).Some? {
      LutIsGood(ecCount);
      return Lut(ecCount);
    }
    r := ProductLoop(if ecCount < 0 then 0 else ecCount);
  }

  /**
   The error correction codewords of one block.  None stands for the exception the program raises:
   the block is empty or all zero, or the generator cannot be divided by.
   */
  method BlockEc(data: Poly, ecCount: int) returns (r: Option<Poly>)
    ensures r.Some? ==> 0 <= ecCount == |r.value| && VanishesOn(data + r.value, ecCount)
    ensures AllZero(data) ==> r.None?
    ensures ecCount >= 0 && Lut(ecCount).Some? && !AllZero(data) ==> r.Some?
  {
    hide Xor, Mul, Eval, GExp, EvalFrom, Lut;
    var generator := ChooseGenerator(ecCount);
    var raw := MakePolynomial(data, if generator.Some? then |generator.value| - 1 else 0);
    if generator.None? || raw.None? {
      return None;
    }
    var remainder := Mod(raw.value, generator.value);
    TrimIsSuffix(data);
    ModRaises(raw.value, generator.value);
    if AllZero(data) {
      assert data == Zeros(|data|);
    }
    if ecCount >= 0 && Lut(ecCount).Some? && !AllZero(data) {
      KeysArePositive(ecCount);
    }
    if remainder.None? {
      return None;
    }
    var ec := RightAlign(remainder.value, ecCount);
    assert Mod(Trim(data) + Zeros(|ec|), generator.value) == remainder;
    hide Mod, Trim, Zeros;
    forall i: nat | i < ecCount ensures Eval(data + ec, GExp(i)) == 0 {
      BlockVanishes(data, remainder.value, generator.value, ec, GExp(i));
    }
    r := Some(ec);
  }

  lemma {:induction false} KeysArePositive(n: nat)
    requires Lut(n).Some?
    ensures n > 0
  {}

  // ---- all blocks ----------------------------------------------------------------------------

  function DataSizes(blocks: seq<RSBlock>): (r: seq<nat>)
    ensures |r| == |blocks|
  {
    seq(|blocks|, b requires 0 <= b < |blocks| => blocks[b].dataCount)
  }

  ghost predicate EcCountsNonNegative(blocks: seq<RSBlock>) {
    forall b :: 0 <= b < |blocks| ==> blocks[b].EcCount() >= 0
  }

  function EcSizes(blocks: seq<RSBlock>): (r: seq<nat>)
    ensures |r| == |blocks|
  {
    seq(|blocks|, b requires 0 <= b < |blocks| => if blocks[b].EcCount() < 0 then 0 else blocks[b].EcCount())
  }

  /** The data codewords of block b: consecutive stretches of the buffer. */
  function BlockData(buffer: Poly, blocks: seq<RSBlock>, b: nat): Poly
    requires b < |blocks| && Sum(DataSizes(blocks)) <= |buffer|
  {
    StretchInRange(DataSizes(blocks), b);
    var start := Sum(DataSizes(blocks)[..b]);
    buffer[start..start + blocks[b].dataCount]
  }

  lemma {:induction false} StretchInRange(sizes: seq<nat>, b: nat)
    requires b < |sizes|
    ensures Sum(sizes[..b + 1]) == Sum(sizes[..b]) + sizes[b]
    ensures Sum(sizes[..b + 1]) <= Sum(sizes)
    decreases |sizes| - b
  {
    assert sizes[..b + 1][..b] == sizes[..b];
    if b + 1 < |sizes| {
      StretchInRange(sizes, b + 1);
    } else {
      assert sizes[..b + 1] == sizes;
    }
  }

  /** A codeword sequence is well formed for a buffer: each block can be read back and each vanishes. */
  ghost predicate Encodes(codewords: Poly, buffer: Poly, blocks: seq<RSBlock>) {
    && EcCountsNonNegative(blocks)
    && var ds, es := DataSizes(blocks), EcSizes(blocks);
    && Sum(ds) <= |buffer|
    && |codewords| == Sum(ds) + Sum(es)
    && var data, ec := Deinterleave(codewords[..Sum(ds)], ds), Deinterleave(codewords[Sum(ds)..], es);
    && forall b :: 0 <= b < |blocks| ==>
         data[b] == BlockData(buffer, blocks, b) && VanishesOn(data[b] + ec[b], es[b])
  }

  /** Some block has data that the division cannot handle. */
  ghost predicate HasZeroBlock(buffer: Poly, blocks: seq<RSBlock>) {
    Sum(DataSizes(blocks)) <= |buffer| && exists b :: 0 <= b < |blocks| && AllZero(BlockData(buffer, blocks, b))
  }

  ghost predicate InTable(blocks: seq<RSBlock>) {
    forall b :: 0 <= b < |blocks| ==> blocks[b].EcCount() >= 0 && Lut(blocks[b].EcCount()).Some?
  }

  /** d and e are the codewords of a block whose data starts at the given place. */
  ghost predicate IsBlock(buffer: Poly, start: nat, block: RSBlock, d: Poly, e: Poly) {
    && start + block.dataCount <= |buffer| && d == buffer[start..start + block.dataCount]
    && !AllZero(d)
    && block.EcCount() == |e| && VanishesOn(d + e, |e|)
  }

  ghost predicate AreBlocks(buffer: Poly, blocks: seq<RSBlock>, data: seq<Poly>, ec: seq<Poly>) {
    && |data| == |ec| <= |blocks|
    && forall b :: 0 <= b < |data| ==> IsBlock(buffer, Sum(DataSizes(blocks)[..b]), blocks[b], data[b], ec[b])
  }

  lemma {:induction false} AppendBlock(buffer: Poly, blocks: seq<RSBlock>, data: seq<Poly>, ec: seq<Poly>, d: Poly, e: Poly)
    requires AreBlocks(buffer, blocks, data, ec) && |data| < |blocks|
    requires IsBlock(buffer, Sum(DataSizes(blocks)[..|data|]), blocks[|data|], d, e)
    ensures AreBlocks(buffer, blocks, data + [d], ec + [e])
  {
    hide IsBlock;
  }

  /** The codewords of every block, in block order, before interleaving. */
  method EncodeBlocks(buffer: Poly, blocks: seq<RSBlock>) returns (r: Option<(seq<Poly>, seq<Poly>)>)
    ensures r.Some? ==> Sum(DataSizes(blocks)) <= |buffer|
    ensures r.Some? ==> AreBlocks(buffer, blocks, r.value.0, r.value.1) && |r.value.0| == |blocks|
    ensures r.None? && InTable(blocks) ==> |buffer| < Sum(DataSizes(blocks)) || HasZeroBlock(buffer, blocks)
  {
    hide VanishesOn, Lut, AllZero, AreBlocks;
    assert AreBlocks(buffer, blocks, [], []) by { NoBlocks(buffer, blocks); }
    var data: seq<Poly>, ec: seq<Poly> := [], [];
    var offset := 0;
    ghost var sizes := DataSizes(blocks);
    for b := 0 to |blocks|
      invariant |data| == |ec| == b && offset == Sum(sizes[..b]) <= |buffer|
      invariant AreBlocks(buffer, blocks, data, ec)
    {
      StretchInRange(sizes, b);
      if offset + blocks[b].dataCount > |buffer| {
        return None;
      }
      var current := buffer[offset..offset + blocks[b].dataCount];
      var currentEc := BlockEc(current, blocks[b].EcCount());
      if currentEc.None? {
        if InTable(blocks) && |buffer| >= Sum(sizes) {
          assert current == BlockData(buffer, blocks, b);
        }
        return None;
      }
      AppendBlock(buffer, blocks, data, ec, current, currentEc.value);
      data, ec, offset := data + [current], ec + [currentEc.value], offset + blocks[b].dataCount;
    }
    assert sizes[..|blocks|] == sizes;
    r := Some((data, ec));
  }

  lemma {:induction false} NoBlocks(buffer: Poly, blocks: seq<RSBlock>)
    ensures AreBlocks(buffer, blocks, [], [])
  {}

  lemma {:induction false} BlocksMeaning(buffer: Poly, blocks: seq<RSBlock>, data: seq<Poly>, ec: seq<Poly>)
    requires AreBlocks(buffer, blocks, data, ec) && |data| == |blocks|
    requires Sum(DataSizes(blocks)) <= |buffer|
    ensures EcCountsNonNegative(blocks) && !HasZeroBlock(buffer, blocks)
    ensures Lengths(data) == DataSizes(blocks) && Lengths(ec) == EcSizes(blocks)
    ensures forall b :: 0 <= b < |blocks| ==>
      data[b] == BlockData(buffer, blocks, b) && VanishesOn(data[b] + ec[b], |ec[b]|)
  {
    hide VanishesOn, AllZero;
    forall b | 0 <= b < |blocks|
      ensures IsBlock(buffer, Sum(DataSizes(blocks)[..b]), blocks[b], data[b], ec[b])
      ensures data[b] == BlockData(buffer, blocks, b) && !AllZero(data[b])
    {
    }
  }

  /**
   create_bytes.  None stands for an exception.  With every error correction count in the table that
   happens exactly when the buffer is too short or a block's data codewords are all zero.
   */
  method CreateBytes(buffer: Poly, blocks: seq<RSBlock>) returns (r: Option<Poly>)
    ensures r.Some? ==> Encodes(r.value, buffer, blocks)
    ensures InTable(blocks) ==>
      (r.None? <==> |buffer| < Sum(DataSizes(blocks)) || HasZeroBlock(buffer, blocks))
  {
    hide VanishesOn, Lut;
    var encoded := EncodeBlocks(buffer, blocks);
    if encoded.None? {
      return None;
    }
    BlocksMeaning(buffer, blocks, encoded.value.0, encoded.value.1);
    var data := Interleave(encoded.value.0);
    var ec := Interleave(encoded.value.1);
    assert (data + ec)[..|data|] == data && (data + ec)[|data|..] == ec;
    r := Some(data + ec);
  }

  /** The sequence is as long as the blocks' total counts together. */
  lemma {:induction false} TotalLength(blocks: seq<RSBlock>)
    requires EcCountsNonNegative(blocks)
    ensures Sum(DataSizes(blocks)) + Sum(EcSizes(blocks)) == SumOfTotals(blocks)
  {
    if blocks != [] {
      var n := |blocks| - 1;
      assert DataSizes(blocks)[..n] == DataSizes(blocks[..n]);
      assert EcSizes(blocks)[..n] == EcSizes(blocks[..n]);
      TotalLength(blocks[..n]);
    }
  }

  function SumOfTotals(blocks: seq<RSBlock>): nat {
    if blocks == [] then 0 else SumOfTotals(blocks[..|blocks| - 1]) + blocks[|blocks| - 1].totalCount
  }
}
