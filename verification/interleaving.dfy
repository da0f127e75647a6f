/**
 Interleaving of blocks of unequal length: first codeword of every block, second codeword of every
 block, ... (the two nested loops at the end of create_bytes, qml/utilities/qrcode/util.py:539-548),
 and the positions from which a reader takes a block apart again.
 */
module Interleaving {

  function Lengths<T>(blocks: seq<seq<T>>): (r: seq<nat>)
    ensures |r| == |blocks|
  {
    seq(|blocks|, b requires 0 <= b < |blocks| => |blocks[b]|)
  }

  function Sum(sizes: seq<nat>): nat {
    if sizes == [] then 0 else Sum(sizes[..|sizes| - 1]) + sizes[|sizes| - 1]
  }

  /** How many of the sizes exceed i. */
  function Count(sizes: seq<nat>, i: nat): nat {
    if sizes == [] then 0
    else Count(sizes[..|sizes| - 1], i) + if sizes[|sizes| - 1] > i then 1 else 0
  }

  /** How many codewords stand before the i-th codeword of the first block that has one. */
  function Offset(sizes: seq<nat>, i: nat): nat {
    if i == 0 then 0 else Offset(sizes, i - 1) + Count(sizes, i - 1)
  }

  /** Where a reader finds codeword i of block b. */
  function Position(sizes: seq<nat>, b: nat, i: nat): nat
    requires b < |sizes|
  {
    Offset(sizes, i) + Count(sizes[..b], i)
  }

  /** The blocks as a reader takes them from the interleaved sequence. */
  function Deinterleave<T>(data: seq<T>, sizes: seq<nat>): (r: seq<seq<T>>)
    requires |data| == Sum(sizes)
    ensures |r| == |sizes| && forall b :: 0 <= b < |sizes| ==> |r[b]| == sizes[b]
  {
    PositionsInRange(sizes);
    seq(|sizes|, b requires 0 <= b < |sizes| =>
      seq(sizes[b], i requires 0 <= i < sizes[b] => data[Position(sizes, b, i)]))
  }

  // ---- counting ------------------------------------------------------------------------------

  function Min(a: nat, b: nat): nat {
    if a < b then a else b
  }

  function SumOfMins(sizes: seq<nat>, m: nat): nat {
    if sizes == [] then 0 else SumOfMins(sizes[..|sizes| - 1], m) + Min(sizes[|sizes| - 1], m)
  }

  lemma {:induction false} MinsGrow(sizes: seq<nat>, m: nat)
    ensures SumOfMins(sizes, m + 1) == SumOfMins(sizes, m) + Count(sizes, m)
  {
    if sizes != [] {
      MinsGrow(sizes[..|sizes| - 1], m);
    }
  }

  lemma {:induction false} MinsBounds(sizes: seq<nat>, m: nat)
    ensures SumOfMins(sizes, 0) == 0
    ensures SumOfMins(sizes, m) <= Sum(sizes)
    ensures (forall b :: 0 <= b < |sizes| ==> sizes[b] <= m) ==> SumOfMins(sizes, m) == Sum(sizes)
  {
    if sizes != [] {
      MinsBounds(sizes[..|sizes| - 1], m);
    }
  }

  lemma {:induction false} OffsetIsSumOfMins(sizes: seq<nat>, i: nat)
    ensures Offset(sizes, i) == SumOfMins(sizes, i)
  {
    if i == 0 {
      MinsBounds(sizes, 0);
    } else {
      OffsetIsSumOfMins(sizes, i - 1);
      MinsGrow(sizes, i - 1);
    }
  }

  lemma {:induction false} CountPrefix(sizes: seq<nat>, b: nat, i: nat)
    requires b < |sizes| && sizes[b] > i
    ensures Count(sizes[..b], i) < Count(sizes, i)
    decreases |sizes|
  {
    var n := |sizes| - 1;
    if b < n {
      assert sizes[..n][..b] == sizes[..b];
      CountPrefix(sizes[..n], b, i);
    }
  }

  lemma {:induction false} PositionsInRange(sizes: seq<nat>)
    ensures forall b, i :: 0 <= b < |sizes| && 0 <= i < sizes[b] ==> Position(sizes, b, i) < Sum(sizes)
  {
    forall b, i | 0 <= b < |sizes| && 0 <= i < sizes[b] ensures Position(sizes, b, i) < Sum(sizes) {
      CountPrefix(sizes, b, i);
      OffsetIsSumOfMins(sizes, i + 1);
      MinsBounds(sizes, i + 1);
    }
  }

  // ---- the loops -----------------------------------------------------------------------------

  /** What the reader's positions must hold after the first n rounds of the outer loop. */
  ghost predicate Placed<T>(data: seq<T>, blocks: seq<seq<T>>, n: nat) {
    && |data| == Offset(Lengths(blocks), n)
    && forall b, i :: 0 <= b < |blocks| && 0 <= i < n && i < |blocks[b]| ==>
         Position(Lengths(blocks), b, i) < |data| && data[Position(Lengths(blocks), b, i)] == blocks[b][i]
  }

  /** One round of the outer loop: codeword i of every block that has one. */
  method AppendRound<T>(data: seq<T>, blocks: seq<seq<T>>, i: nat) returns (r: seq<T>)
    requires Placed(data, blocks, i)
    ensures Placed(r, blocks, i + 1)
  {
    ghost var sizes := Lengths(blocks);
    r := data;
    for b := 0 to |blocks|
      invariant |r| == |data| + Count(sizes[..b], i) && r[..|data|] == data
      invariant forall k :: 0 <= k < b && i < |blocks[k]| ==>
                  Position(sizes, k, i) < |r| && r[Position(sizes, k, i)] == blocks[k][i]
    {
      assert sizes[..b + 1][..b] == sizes[..b];
      if i < |blocks[b]| {
        r := r + [blocks[b][i]];
      }
    }
    assert sizes[..|blocks|] == sizes;
    forall b, j | 0 <= b < |blocks| && 0 <= j < i + 1 && j < |blocks[b]|
      ensures Position(sizes, b, j) < |r| && r[Position(sizes, b, j)] == blocks[b][j]
    {
      if j < i {
        assert r[..|data|][Position(sizes, b, j)] == data[Position(sizes, b, j)];
      }
    }
  }

  method Interleave<T>(blocks: seq<seq<T>>) returns (data: seq<T>)
    ensures |data| == Sum(Lengths(blocks))
    ensures Deinterleave(data, Lengths(blocks)) == blocks
  {
    var longest: nat := 0;
    for b := 0 to |blocks|
      invariant forall k :: 0 <= k < b ==> |blocks[k]| <= longest
    {
      if |blocks[b]| > longest {
        longest := |blocks[b]|;
      }
    }
    data := [];
    for i := 0 to longest
      invariant Placed(data, blocks, i)
    {
      data := AppendRound(data, blocks, i);
    }
    OffsetIsSumOfMins(Lengths(blocks), longest);
    MinsBounds(Lengths(blocks), longest);
    Recovered(data, blocks, longest);
  }

  lemma {:induction false} Recovered<T>(data: seq<T>, blocks: seq<seq<T>>, n: nat)
    requires |data| == Sum(Lengths(blocks)) && Placed(data, blocks, n)
    requires forall b :: 0 <= b < |blocks| ==> |blocks[b]| <= n
    ensures Deinterleave(data, Lengths(blocks)) == blocks
  {
    var r := Deinterleave(data, Lengths(blocks));
    forall b | 0 <= b < |blocks| ensures r[b] == blocks[b] {
      forall i | 0 <= i < |blocks[b]| ensures r[b][i] == blocks[b][i] {
      }
    }
  }
}
