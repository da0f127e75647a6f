/**
 Splitting a text into segments (optimal_data_chunks, _optimal_split and optimal_mode,
 qml/utilities/qrcode/util.py:355-418).
 */
module Chunks {
  import opened Wrappers
  import opened Segments
  import opened CreateData

  datatype Charset = DigitChars | AlphaChars
  {
    predicate Has(c: byte) {
      match this
      case DigitChars => IsDigit(c)
      case AlphaChars => AlphaValue(c) >= 0
    }
  }

  predicate AllIn(data: seq<byte>, cs: Charset) {
    forall k :: 0 <= k < |data| ==> cs.Has(data[k])
  }

  /** n characters of the set in a row, from position i on. */
  predicate IsRun(data: seq<byte>, cs: Charset, i: nat, n: nat) {
    i + n <= |data| && forall k :: i <= k < i + n ==> cs.Has(data[k])
  }

  ghost predicate HasRun(data: seq<byte>, cs: Charset, n: nat) {
    exists i: nat :: IsRun(data, cs, i, n)
  }

  // ---- the regular expressions ---------------------------------------------------------------

  /** The end of the longest run that starts at i. */
  function RunEnd(data: seq<byte>, cs: Charset, i: nat): (e: nat)
    requires i <= |data|
    ensures i <= e <= |data| && IsRun(data, cs, i, e - i)
    ensures e < |data| ==> !cs.Has(data[e])
    decreases |data| - i
  {
    if i < |data| && cs.Has(data[i]) then RunEnd(data, cs, i + 1) else i
  }

  /** What a pattern matches first, with at least `minimum` repetitions or over the whole text. */
  datatype Pattern = Repeated(cs: Charset, minimum: nat) | Whole(cs: Charset)

  function FirstRun(data: seq<byte>, cs: Charset, minimum: nat, i: nat): Option<(nat, nat)>
    requires i <= |data|
    decreases |data| - i
  {
    if RunEnd(data, cs, i) - i >= minimum then Some((i, RunEnd(data, cs, i)))
    else if i == |data| then None
    else FirstRun(data, cs, minimum, i + 1)
  }

  /** re.search; '$' also matches before a final newline. */
  function Search(data: seq<byte>, p: Pattern): Option<(nat, nat)> {
    match p
    case Repeated(cs, minimum) => FirstRun(data, cs, minimum, 0)
    case Whole(cs) =>
      var e := RunEnd(data, cs, 0);
      if e > 0 && (e == |data| || (e == |data| - 1 && data[e] == 10)) then Some((0, e)) else None
  }

  lemma {:induction false} RunEndIsLongest(data: seq<byte>, cs: Charset, i: nat, n: nat)
    requires IsRun(data, cs, i, n)
    ensures RunEnd(data, cs, i) >= i + n
  {}

  lemma {:induction false} FirstRunIsFirst(data: seq<byte>, cs: Charset, minimum: nat, i: nat)
    requires i <= |data| && minimum > 0
    ensures match FirstRun(data, cs, minimum, i)
      case None => forall k :: i <= k ==> !IsRun(data, cs, k, minimum)
      case Some((s, e)) =>
        && i <= s && s + minimum <= e <= |data| && e == RunEnd(data, cs, s)
        && forall k :: i <= k < s ==> !IsRun(data, cs, k, minimum)
    decreases |data| - i
  {
    if IsRun(data, cs, i, minimum) {
      RunEndIsLongest(data, cs, i, minimum);
    }
    if RunEnd(data, cs, i) - i < minimum && i < |data| {
      FirstRunIsFirst(data, cs, minimum, i + 1);
    }
  }

  // ---- _optimal_split ------------------------------------------------------------------------

  datatype Part = Part(matched: bool, data: seq<byte>)

  function Joined(parts: seq<Part>): seq<byte> {
    if parts == [] then [] else Joined(parts[..|parts| - 1]) + parts[|parts| - 1].data
  }

  /** What the caller may rely on whatever the pattern. */
  ghost predicate Sound(parts: seq<Part>, cs: Charset) {
    forall k :: 0 <= k < |parts| ==> parts[k].data != [] && (parts[k].matched ==> AllIn(parts[k].data, cs))
  }

  /** The matched parts are exactly the maximal runs of at least `minimum` characters of the set. */
  ghost predicate Exact(parts: seq<Part>, cs: Charset, minimum: nat) {
    && (forall k :: 0 <= k < |parts| && parts[k].matched ==> |parts[k].data| >= minimum)
    && (forall k :: 0 <= k < |parts| && !parts[k].matched ==> !HasRun(parts[k].data, cs, minimum))
    && (forall k :: 0 < k < |parts| ==> Boundary(parts[k - 1], parts[k], cs))
  }

  /** Parts change where a run starts or ends. */
  predicate Boundary(a: Part, b: Part, cs: Charset) {
    && a.data != [] && b.data != []
    && (a.matched ==> !b.matched && !cs.Has(b.data[0]))
    && (b.matched ==> !a.matched && !cs.Has(a.data[|a.data| - 1]))
    && (a.matched || b.matched)
  }

  lemma {:induction false} AppendPart(parts: seq<Part>, part: Part)
    ensures Joined(parts + [part]) == Joined(parts) + part.data
  {
    assert (parts + [part])[..|parts|] == parts;
  }

  lemma {:induction false} ExactlyOneMore(parts: seq<Part>, part: Part, cs: Charset, minimum: nat)
    requires Exact(parts, cs, minimum)
    requires if part.matched then |part.data| >= minimum else !HasRun(part.data, cs, minimum)
    requires parts != [] ==> Boundary(parts[|parts| - 1], part, cs)
    ensures Exact(parts + [part], cs, minimum)
  {
    hide HasRun, Boundary;
    var all := parts + [part];
    forall k | 0 < k < |all| ensures Boundary(all[k - 1], all[k], cs) {
      if k < |parts| {
        assert Boundary(parts[k - 1], parts[k], cs);
      }
    }
  }

  lemma {:induction false} RunInside(data: seq<byte>, part: seq<byte>, i: nat, cs: Charset, k: nat, n: nat)
    requires i + |part| <= |data| && data[i..i + |part|] == part
    ensures IsRun(part, cs, k, n) ==> IsRun(data, cs, i + k, n)
  {
    forall j | 0 <= j < |part| ensures data[i + j] == part[j] {
    }
    forall j | i + k <= j < i + k + n && k + n <= |part| ensures data[j] == part[j - i] {
    }
  }

  /** The text before the first run. */
  lemma {:induction false} BeforeFirstRun(data: seq<byte>, cs: Charset, minimum: nat, s: nat)
    requires s <= |data| && minimum > 0
    requires forall k :: 0 <= k < s ==> !IsRun(data, cs, k, minimum)
    ensures !HasRun(data[..s], cs, minimum)
    ensures s > 0 && s < |data| && IsRun(data, cs, s, minimum) ==> !cs.Has(data[s - 1])
  {
    forall k: nat ensures !IsRun(data[..s], cs, k, minimum) {
      RunInside(data, data[..s], 0, cs, k, minimum);
    }
    if s > 0 {
      RunGrows(data, cs, s - 1, minimum);
    }
  }

  lemma {:induction false} RunGrows(data: seq<byte>, cs: Charset, i: nat, n: nat)
    requires i < |data|
    ensures cs.Has(data[i]) && IsRun(data, cs, i + 1, n) ==> IsRun(data, cs, i, n)
  {}

  lemma {:induction false} AddPart(parts: seq<Part>, part: Part, p: Pattern)
    requires Sound(parts, p.cs) && part.data != [] && (part.matched ==> AllIn(part.data, p.cs))
    requires p.Repeated? ==>
      && Exact(parts, p.cs, p.minimum)
      && (if part.matched then |part.data| >= p.minimum else !HasRun(part.data, p.cs, p.minimum))
      && (parts != [] ==> Boundary(parts[|parts| - 1], part, p.cs))
    ensures Sound(parts + [part], p.cs) && Joined(parts + [part]) == Joined(parts) + part.data
    ensures p.Repeated? ==> Exact(parts + [part], p.cs, p.minimum)
  {
    hide HasRun, Boundary, AllIn, Joined;
    AppendPart(parts, part);
    if p.Repeated? {
      ExactlyOneMore(parts, part, p.cs, p.minimum);
    }
  }

  /** The text without one final newline. */
  function Core(data: seq<byte>): seq<byte> {
    if data != [] && data[|data| - 1] == 10 then data[..|data| - 1] else data
  }

  predicate CoreIn(data: seq<byte>, cs: Charset) {
    Core(data) != [] && AllIn(Core(data), cs)
  }

  /** The split by a pattern for the whole text: a final newline is left over. */
  function WholeParts(data: seq<byte>, cs: Charset): seq<Part> {
    if data == [] then []
    else if !CoreIn(data, cs) then [Part(false, data)]
    else [Part(true, Core(data))] + if Core(data) == data then [] else [Part(false, [10])]
  }

  lemma {:induction false} NewlineIsInNoSet(cs: Charset)
    ensures !cs.Has(10)
  {}

  lemma {:induction false} SearchWhole(data: seq<byte>, cs: Charset)
    requires data != []
    ensures Search(data, Whole(cs)) == if CoreIn(data, cs) then Some((0, |Core(data)|)) else None
  {
    hide Charset.Has;
    NewlineIsInNoSet(cs);
    if CoreIn(data, cs) {
      RunEndIsLongest(data, cs, 0, |Core(data)|);
    }
  }

  /** Before the match nothing is split off; after it at most the newline is left. */
  ghost predicate WholeProgress(parts: seq<Part>, rest: seq<byte>, data: seq<byte>, cs: Charset) {
    || (parts == [] && rest == data)
    || (CoreIn(data, cs) && parts == [Part(true, Core(data))] && rest == data[|Core(data)|..])
  }

  /** What holds between two rounds of the loop: the rest starts behind a match. */
  ghost predicate Progress(parts: seq<Part>, rest: seq<byte>, data: seq<byte>, p: Pattern) {
    && Joined(parts) + rest == data && Sound(parts, p.cs)
    && (p.Repeated? ==>
          && p.minimum > 0 && Exact(parts, p.cs, p.minimum)
          && (parts != [] && rest != [] ==> parts[|parts| - 1].matched && !p.cs.Has(rest[0])))
    && (p.Whole? ==> WholeProgress(parts, rest, data, p.cs))
  }

  lemma {:induction false} WholeStep(parts: seq<Part>, rest: seq<byte>, data: seq<byte>, cs: Charset)
    requires WholeProgress(parts, rest, data, cs) && rest != []
    ensures match Search(rest, Whole(cs))
      case None => parts + [Part(false, rest)] == WholeParts(data, cs)
      case Some((s, e)) => s == 0 && e <= |rest| && WholeProgress(parts + [Part(true, rest[0..e])], rest[e..], data, cs)
  {
    hide Search, AllIn;
    SearchWhole(rest, cs);
    if parts == [] {
      if CoreIn(data, cs) {
        assert data[0..|Core(data)|] == Core(data);
      }
    } else {
      assert rest == [10] && Core(rest) == [];
    }
  }

  lemma {:induction false} WholeEnd(parts: seq<Part>, data: seq<byte>, cs: Charset)
    requires WholeProgress(parts, [], data, cs)
    ensures parts == WholeParts(data, cs)
  {}

  function WithMatch(parts: seq<Part>, rest: seq<byte>, s: nat, e: nat): seq<Part>
    requires s <= e <= |rest|
  {
    (if s != 0 then parts + [Part(false, rest[..s])] else parts) + [Part(true, rest[s..e])]
  }

  lemma {:induction false} MatchKeepsProgress(parts: seq<Part>, rest: seq<byte>, data: seq<byte>, p: Pattern, s: nat, e: nat)
    requires Progress(parts, rest, data, p) && rest != [] && Search(rest, p) == Some((s, e))
    ensures s < e <= |rest| && Progress(WithMatch(parts, rest, s, e), rest[e..], data, p)
  {
    hide HasRun, AllIn, Joined, Exact, Search, Charset.Has, WholeProgress;
    FoundRun(rest, p);
    Cut(Joined(parts), rest, s, e);
    if p.Whole? {
      WholeStep(parts, rest, data, p.cs);
    }
    if s != 0 {
      AddPart(parts, Part(false, rest[..s]), p);
      AddPart(parts + [Part(false, rest[..s])], Part(true, rest[s..e]), p);
    } else {
      AddPart(parts, Part(true, rest[..e]), p);
    }
  }

  method OptimalSplit(data: seq<byte>, p: Pattern) returns (parts: seq<Part>)
    requires p.Repeated? ==> p.minimum > 0
    ensures Joined(parts) == data && Sound(parts, p.cs)
    ensures p.Repeated? ==> Exact(parts, p.cs, p.minimum)
    ensures p.Whole? ==> parts == WholeParts(data, p.cs)
  {
    parts := [];
    var rest := data;
    assert Progress(parts, rest, data, p);
    hide Progress, WholeParts, Search, Joined, Exact, Sound;
    while rest != []
      invariant Progress(parts, rest, data, p)
    {
      var found := Search(rest, p);
      if found.None? {
        break;
      }
      var (start, end) := found.value;
      MatchKeepsProgress(parts, rest, data, p, start, end);
      if start != 0 {
        parts := parts + [Part(false, rest[..start])];
      }
      parts := parts + [Part(true, rest[start..end])];
      rest := rest[end..];
    }
    LastPart(parts, rest, data, p);
    if rest != [] {
      parts := parts + [Part(false, rest)];
    }
  }

  lemma {:induction false} LastPart(parts: seq<Part>, rest: seq<byte>, data: seq<byte>, p: Pattern)
    requires Progress(parts, rest, data, p) && (rest != [] ==> Search(rest, p).None?)
    ensures var all := if rest != [] then parts + [Part(false, rest)] else parts;
      && Joined(all) == data && Sound(all, p.cs) && (p.Repeated? ==> Exact(all, p.cs, p.minimum))
      && (p.Whole? ==> all == WholeParts(data, p.cs))
  {
    hide HasRun, AllIn, Joined, Exact, Search, Charset.Has, WholeProgress, WholeParts;
    if p.Whole? {
      if rest != [] {
        WholeStep(parts, rest, data, p.cs);
      } else {
        WholeEnd(parts, data, p.cs);
      }
    }
    if rest != [] {
      FoundRun(rest, p);
      AddPart(parts, Part(false, rest), p);
    } else {
      assert Joined(parts) + [] == Joined(parts);
    }
  }

  lemma {:induction false} Cut(before: seq<byte>, rest: seq<byte>, s: nat, e: nat)
    requires s <= e <= |rest|
    ensures before + rest[..s] + rest[s..e] + rest[e..] == before + rest
    ensures s == 0 ==> before + rest[..e] + rest[e..] == before + rest && rest[s..e] == rest[..e]
  {}

  /** What a successful or failed search says. */
  lemma {:induction false} FoundRun(data: seq<byte>, p: Pattern)
    requires data != [] && (p.Repeated? ==> p.minimum > 0)
    ensures match Search(data, p)
      case None => p.Repeated? ==> !HasRun(data, p.cs, p.minimum)
      case Some((s, e)) =>
        && s < e <= |data| && AllIn(data[s..e], p.cs)
        && (e < |data| ==> !p.cs.Has(data[e]))
        && (p.Whole? ==> s == 0)
        && (p.Repeated? ==> e - s >= p.minimum && !HasRun(data[..s], p.cs, p.minimum))
        && (p.Repeated? && s > 0 ==> !p.cs.Has(data[s - 1]))
  {
    if p.Repeated? {
      FirstRunIsFirst(data, p.cs, p.minimum, 0);
      match Search(data, p)
      case None =>
      case Some((s, e)) => BeforeFirstRun(data, p.cs, p.minimum, s);
    }
  }

  // ---- optimal_data_chunks -------------------------------------------------------------------

  function Text(list: seq<QRData>): seq<byte> {
    if list == [] then [] else Text(list[..|list| - 1]) + list[|list| - 1].data
  }

  /** No mode is used for a short stretch, and no long stretch is left to a wider mode. */
  ghost predicate IsOptimalChunk(s: QRData, minimum: nat) {
    match s.mode
    case Number => |s.data| >= minimum
    case AlphaNum => |s.data| >= minimum && !HasRun(s.data, DigitChars, minimum)
    case Byte => !HasRun(s.data, DigitChars, minimum) && !HasRun(s.data, AlphaChars, minimum)
  }

  ghost predicate Chunked(list: seq<QRData>, minimum: nat, long: bool) {
    && ValidList(list)
    && forall i :: 0 <= i < |list| ==> list[i].data != [] && (long ==> IsOptimalChunk(list[i], minimum))
  }

  lemma {:induction false} AppendChunk(list: seq<QRData>, s: QRData)
    ensures Text(list + [s]) == Text(list) + s.data
  {
    assert (list + [s])[..|list|] == list;
  }

  lemma {:induction false} PartOfJoined(parts: seq<Part>, k: nat) returns (i: nat)
    requires k < |parts|
    ensures i + |parts[k].data| <= |Joined(parts)| && Joined(parts)[i..i + |parts[k].data|] == parts[k].data
  {
    var n := |parts| - 1;
    if k == n {
      i := |Joined(parts[..n])|;
    } else {
      i := PartOfJoined(parts[..n], k);
      assert Joined(parts)[i..i + |parts[k].data|] == Joined(parts[..n])[i..i + |parts[k].data|];
    }
  }

  lemma {:induction false} NoRunInside(data: seq<byte>, part: seq<byte>, i: nat, cs: Charset, n: nat)
    requires i + |part| <= |data| && data[i..i + |part|] == part && !HasRun(data, cs, n)
    ensures !HasRun(part, cs, n)
  {
    hide IsRun;
    forall k: nat ensures !IsRun(part, cs, k, n) {
      RunInside(data, part, i, cs, k, n);
    }
  }

  function AlphaSegment(part: Part): QRData {
    QRData(if part.matched then AlphaNum else Byte, part.data)
  }

  function NumberOrAlpha(part: Part): seq<QRData> {
    if part.matched then [QRData(Number, part.data)] else ShortAlpha(part.data)
  }

  function AlphaSegments(parts: seq<Part>): seq<QRData> {
    if parts == [] then [] else AlphaSegments(parts[..|parts| - 1]) + [AlphaSegment(parts[|parts| - 1])]
  }

  /** A short text that is not a number. */
  function ShortAlpha(data: seq<byte>): seq<QRData> {
    AlphaSegments(WholeParts(data, AlphaChars))
  }

  function Flat(parts: seq<Part>): seq<QRData> {
    if parts == [] then [] else Flat(parts[..|parts| - 1]) + NumberOrAlpha(parts[|parts| - 1])
  }

  /**
   A short text becomes one segment in its own mode; but a final newline is left to a segment of bytes when
   what precedes it does not need one.
   */
  function ShortChunks(data: seq<byte>): seq<QRData> {
    if data == [] then []
    else if Core(data) == [] || OptimalMode(Core(data)).Byte? then [QRData(Byte, data)]
    else [QRData(OptimalMode(Core(data)), Core(data))] + if Core(data) == data then [] else [QRData(Byte, [10])]
  }

  lemma {:induction false} ShortAlphaIs(data: seq<byte>)
    ensures data != [] && !CoreIn(data, AlphaChars) ==> ShortAlpha(data) == [QRData(Byte, data)]
    ensures data != [] && CoreIn(data, AlphaChars) ==>
      ShortAlpha(data) == [QRData(AlphaNum, Core(data))] + if Core(data) == data then [] else [QRData(Byte, [10])]
  {
    hide CoreIn;
    var parts := WholeParts(data, AlphaChars);
    if data != [] {
      AlphaSegmentsStep(parts[..1], 0);
      assert parts[..1][..1] == parts[..1] && parts[..1][..0] == [];
      if |parts| == 2 {
        AlphaSegmentsStep(parts, 1);
        assert parts[..2] == parts;
      } else {
        assert parts[..1] == parts;
      }
    }
  }

  lemma {:induction false} AlphaSegmentsStep(parts: seq<Part>, k: nat)
    requires k < |parts|
    ensures AlphaSegments(parts[..k + 1]) == AlphaSegments(parts[..k]) + [AlphaSegment(parts[k])]
  {
    assert parts[..k + 1][..k] == parts[..k];
  }

  lemma {:induction false} FlatOfWhole(data: seq<byte>)
    ensures Flat(WholeParts(data, DigitChars)) == ShortChunks(data)
  {
    hide Charset.Has, ShortAlpha;
    var parts := WholeParts(data, DigitChars);
    assert Flat([]) == [];
    if data != [] {
      ShortAlphaIs(data);
      ShortAlphaIs([10]);
      FlatOne(parts[0]);
      if |parts| == 2 {
        assert parts[..1] == [parts[0]];
      } else {
        assert parts == [parts[0]];
      }
    }
  }

  lemma {:induction false} FlatOne(part: Part)
    ensures Flat([part]) == NumberOrAlpha(part)
  {
    assert [part][..0] == [];
  }

  /** The segments of a chunk that is not a number. */
  method AlphaChunks(chunk: seq<byte>, minimum: nat, long: bool) returns (list: seq<QRData>)
    requires minimum > 0 && (long ==> !HasRun(chunk, DigitChars, minimum))
    ensures Text(list) == chunk && Chunked(list, minimum, long)
    ensures !long ==> list == ShortAlpha(chunk)
  {
    var parts := OptimalSplit(chunk, if long then Repeated(AlphaChars, minimum) else Whole(AlphaChars));
    hide HasRun, Joined, Text, Chunked, Exact, Sound, WholeParts, AlphaSegments;
    list := [];
    assert AlphaSegments(parts[..0]) == [] by { NoChunks(parts, minimum, long); }
    for k := 0 to |parts|
      invariant list == AlphaSegments(parts[..k])
    {
      AlphaSegmentsStep(parts, k);
      list := list + [QRData(if parts[k].matched then AlphaNum else Byte, parts[k].data)];
    }
    assert parts[..|parts|] == parts;
    AlphaSegmentsAreChunks(chunk, parts, |parts|, minimum, long);
  }

  lemma {:induction false} AlphaSegmentsAreChunks(chunk: seq<byte>, parts: seq<Part>, k: nat, minimum: nat, long: bool)
    requires Joined(parts) == chunk && Sound(parts, AlphaChars) && k <= |parts|
    requires long ==> Exact(parts, AlphaChars, minimum) && !HasRun(chunk, DigitChars, minimum)
    ensures Text(AlphaSegments(parts[..k])) == Joined(parts[..k])
    ensures Chunked(AlphaSegments(parts[..k]), minimum, long)
  {
    hide HasRun, Joined, Text, Chunked, Exact, Sound, AlphaSegments, AlphaSegment;
    if k == 0 {
      NoChunks(parts, minimum, long);
    } else {
      AlphaSegmentsAreChunks(chunk, parts, k - 1, minimum, long);
      AlphaSegmentsStep(parts, k - 1);
      AlphaSegmentIsChunk(chunk, parts, k - 1, minimum, long);
      ChunkedAppend(AlphaSegments(parts[..k - 1]), [AlphaSegment(parts[k - 1])], minimum, long);
      assert parts[..k] == parts[..k - 1] + [parts[k - 1]];
      AppendPart(parts[..k - 1], parts[k - 1]);
    }
  }

  lemma {:induction false} NoChunks(parts: seq<Part>, minimum: nat, long: bool)
    ensures Text([]) == [] == Joined(parts[..0]) && Chunked([], minimum, long)
    ensures Flat(parts[..0]) == [] && AlphaSegments(parts[..0]) == []
  {}

  lemma {:induction false} AlphaSegmentIsChunk(chunk: seq<byte>, parts: seq<Part>, k: nat, minimum: nat, long: bool)
    requires Joined(parts) == chunk && Sound(parts, AlphaChars) && k < |parts|
    requires long ==> Exact(parts, AlphaChars, minimum) && !HasRun(chunk, DigitChars, minimum)
    ensures Chunked([AlphaSegment(parts[k])], minimum, long)
    ensures Text([AlphaSegment(parts[k])]) == parts[k].data
  {
    hide HasRun, Joined, Charset.Has, Exact;
    var s := AlphaSegment(parts[k]);
    AlphaCharsAreAlpha(parts[k]);
    AppendChunk([], s);
    assert [] + [s] == [s];
    if long {
      SubChunkIsOptimal(chunk, parts, k, minimum);
    }
  }

  lemma {:induction false} NumberIsChunk(part: Part, minimum: nat, long: bool)
    requires part.matched && part.data != [] && AllIn(part.data, DigitChars) && (long ==> |part.data| >= minimum)
    ensures Chunked([QRData(Number, part.data)], minimum, long)
    ensures Text([QRData(Number, part.data)]) == part.data
  {
    var s := QRData(Number, part.data);
    AppendChunk([], s);
    assert [] + [s] == [s];
  }

  lemma {:induction false} FlatStep(parts: seq<Part>, k: nat)
    requires k < |parts|
    ensures Flat(parts[..k + 1]) == Flat(parts[..k]) + NumberOrAlpha(parts[k])
  {
    assert parts[..k + 1][..k] == parts[..k];
  }

  lemma {:induction false} AlphaCharsAreAlpha(part: Part)
    requires part.matched ==> AllIn(part.data, AlphaChars)
    ensures QRData(if part.matched then AlphaNum else Byte, part.data).Valid()
  {}

  lemma {:induction false} SubChunkIsOptimal(chunk: seq<byte>, parts: seq<Part>, k: nat, minimum: nat)
    requires Joined(parts) == chunk && Exact(parts, AlphaChars, minimum) && k < |parts|
    requires !HasRun(chunk, DigitChars, minimum)
    ensures IsOptimalChunk(QRData(if parts[k].matched then AlphaNum else Byte, parts[k].data), minimum)
  {
    hide HasRun, Joined, Boundary;
    var i := PartOfJoined(parts, k);
    NoRunInside(chunk, parts[k].data, i, DigitChars, minimum);
  }

  lemma {:induction false} TextAppend(a: seq<QRData>, b: seq<QRData>)
    ensures Text(a + b) == Text(a) + Text(b)
  {
    if b == [] {
      assert a + b == a;
    } else {
      assert (a + b)[..|a + b| - 1] == a + b[..|b| - 1];
      TextAppend(a, b[..|b| - 1]);
    }
  }

  lemma {:induction false} ChunkedAppend(a: seq<QRData>, b: seq<QRData>, minimum: nat, long: bool)
    requires Chunked(a, minimum, long) && Chunked(b, minimum, long)
    ensures Chunked(a + b, minimum, long) && Text(a + b) == Text(a) + Text(b)
  {
    hide IsOptimalChunk, QRData.Valid, Text;
    TextAppend(a, b);
    forall i | 0 <= i < |a + b|
      ensures (a + b)[i].Valid() && (a + b)[i].data != [] && (long ==> IsOptimalChunk((a + b)[i], minimum))
    {
      assert (a + b)[i] == if i < |a| then a[i] else b[i - |a|];
    }
  }

  lemma {:induction false} ChunksOfPart(parts: seq<Part>, k: nat, list: seq<QRData>, more: seq<QRData>, minimum: nat, long: bool)
    requires k < |parts| && Text(list) == Joined(parts[..k]) && Text(more) == parts[k].data
    requires Chunked(list, minimum, long) && Chunked(more, minimum, long)
    requires !long ==> list == Flat(parts[..k]) && more == NumberOrAlpha(parts[k])
    ensures Text(list + more) == Joined(parts[..k + 1]) && Chunked(list + more, minimum, long)
    ensures !long ==> list + more == Flat(parts[..k + 1])
  {
    hide Chunked, Text, Joined, Flat, NumberOrAlpha;
    assert parts[..k + 1] == parts[..k] + [parts[k]];
    AppendPart(parts[..k], parts[k]);
    FlatStep(parts, k);
    ChunkedAppend(list, more, minimum, long);
  }

  /** optimal_data_chunks. */
  method OptimalDataChunks(data: seq<byte>, minimum: nat) returns (list: seq<QRData>)
    requires minimum > 0
    ensures Text(list) == data && Chunked(list, minimum, |data| > minimum)
    ensures |data| <= minimum ==> list == ShortChunks(data)
  {
    var long := |data| > minimum;
    var parts := OptimalSplit(data, if long then Repeated(DigitChars, minimum) else Whole(DigitChars));
    hide HasRun, Charset.Has, Joined, Text, Chunked, Flat, WholeParts, ShortAlpha, ShortChunks;
    list := [];
    NoChunks(parts, minimum, long);
    for k := 0 to |parts|
      invariant Text(list) == Joined(parts[..k]) && Chunked(list, minimum, long)
      invariant !long ==> list == Flat(parts[..k])
    {
      var more;
      if parts[k].matched {
        NumberIsChunk(parts[k], minimum, long);
        more := [QRData(Number, parts[k].data)];
      } else {
        more := AlphaChunks(parts[k].data, minimum, long);
      }
      ChunksOfPart(parts, k, list, more, minimum, long);
      list := list + more;
    }
    assert parts[..|parts|] == parts;
    FlatOfWhole(data);
  }

  /** optimal_mode: the narrowest mode for a text; the empty text counts as alphanumeric. */
  function OptimalMode(data: seq<byte>): (m: Mode)
    ensures QRData(m, data).Valid()
    ensures m.AlphaNum? && data != [] ==> !AllIn(data, DigitChars)
    ensures m.Byte? ==> !AllIn(data, AlphaChars)
  {
    if data != [] && AllIn(data, DigitChars) then Number
    else if AllIn(data, AlphaChars) then AlphaNum
    else Byte
  }
}
