/**
 * The tick aligner: fills the scoring matrices of a range, reads off the best local alignment,
 * and splits the range around it.
 */
module TickAligner {
  import opened Options
  import opened AlignmentPaths

  datatype Config = Config(minScore: real, minLength: int, minContext: int, gapOpenPenalty: real)

  datatype LocalAlignment = LocalAlignment(
    entries: seq<Entry>, range: Range, similarity: seq<seq<Score>>, margin: seq<seq<real>>,
    baseNull: set<int>, targetNull: set<int>)

  datatype Matrices = Matrices(
    matrix: array2<real>, direction: array2<Direction>, similarity: array2<Score>, margin: array2<real>)

  datatype AlignmentResult = AlignmentResult(
    alignments: seq<LocalAlignment>, baseCoverage: real, targetCoverage: real, gapCount: nat)

  // ---------------------------------------------------------------- specification

  function Rows<V>(m: array2<V>): (rows: seq<seq<V>>)
    reads m
    ensures |rows| == m.Length0 && forall i :: 0 <= i < |rows| ==> |rows[i]| == m.Length1
    ensures forall i, j :: 0 <= i < m.Length0 && 0 <= j < m.Length1 ==> rows[i][j] == m[i, j]
  {
    seq(m.Length0, i requires 0 <= i < m.Length0 reads m =>
      seq(m.Length1, j requires 0 <= j < m.Length1 reads m => m[i, j]))
  }

  ghost function GridOf(r: Range, m: Matrices): Grid
    reads m.matrix, m.direction
  {
    Grid(r, Rows(m.matrix), Rows(m.direction))
  }

  /** By how much the chosen action beats the best alternative, restarting at 0 included. */
  ghost predicate MarginRule(
      margin: real, h: real, dir: Direction, diagonal: real, above: real, left: real, s: Score, gap: real)
  {
    var second := h - margin;
    if dir == NONE then margin == 0.0
    else
      second >= 0.0 &&
      (dir != MATCH && s.Fin? ==> second >= diagonal + s.v) &&
      (dir != GAP_TARGET ==> second >= above - gap) &&
      (dir != GAP_BASE ==> second >= left - gap) &&
      (second == 0.0 || (dir != MATCH && s.Fin? && second == diagonal + s.v) ||
       (dir != GAP_TARGET && second == above - gap) || (dir != GAP_BASE && second == left - gap))
  }

  ghost predicate MarginAt<T>(p: Timelines<T>, g: Grid, b: int, t: int, margin: real)
    requires g.Shaped() && p.Covers(g.range) && g.range.Inner(b, t)
  {
    MarginRule(margin, g.H(b, t), g.Dir(b, t), g.H(b - 1, t - 1), g.H(b - 1, t), g.H(b, t - 1),
               p.Similarity(b - 1, t - 1), p.gap)
  }

  ghost predicate Shape<V>(rows: seq<seq<V>>, r: Range) {
    |rows| == r.baseEnd - r.baseStart && forall i :: 0 <= i < |rows| ==> |rows[i]| == r.targetEnd - r.targetStart
  }

  ghost predicate RecordedAt<T>(p: Timelines<T>, similarity: seq<seq<Score>>, margin: seq<seq<real>>, g: Grid, b: int, t: int)
    requires g.Shaped() && p.Covers(g.range) && Shape(similarity, g.range) && Shape(margin, g.range) && g.range.Inner(b, t)
  {
    var i, j := b - 1 - g.range.baseStart, t - 1 - g.range.targetStart;
    similarity[i][j] == p.Similarity(b - 1, t - 1) && MarginAt(p, g, b, t, margin[i][j])
  }

  /** The rows hold the similarities and the decision margins of a filled grid. */
  ghost predicate Recorded<T>(p: Timelines<T>, similarity: seq<seq<Score>>, margin: seq<seq<real>>, g: Grid) {
    Filled(p, g) && Shape(similarity, g.range) && Shape(margin, g.range) &&
    forall b, t {:trigger RecordedAt(p, similarity, margin, g, b, t)} ::
      g.range.Inner(b, t) ==> RecordedAt(p, similarity, margin, g, b, t)
  }

  /** A local alignment carries the similarities, margins and null ticks of its range. */
  ghost predicate Annotated<T>(p: Timelines<T>, la: LocalAlignment) {
    p.Covers(la.range) && (exists g: Grid :: g.range == la.range && Recorded(p, la.similarity, la.margin, g)) &&
    la.baseNull == (set i | la.range.baseStart <= i < la.range.baseEnd && p.base[i].None?) &&
    la.targetNull == (set j | la.range.targetStart <= j < la.range.targetEnd && p.target[j].None?)
  }

  /** `es` is what the traceback of some filled matrix over the range reads off at its maximum. */
  ghost predicate ReadOff<T>(p: Timelines<T>, r: Range, es: seq<Entry>) {
    exists g, b, t :: Filled(p, g) && g.range == r && FirstMaximum(g, b, t) && es == Trace(p, g, b, t)
  }

  /** The timelines determine what is read off a range. */
  lemma ReadOffOnce<T>(p: Timelines<T>, r: Range, es: seq<Entry>, es': seq<Entry>)
    requires ReadOff(p, r, es) && ReadOff(p, r, es')
    ensures es == es'
  {
    var g, b, t :| Filled(p, g) && g.range == r && FirstMaximum(g, b, t) && es == Trace(p, g, b, t);
    var g', b', t' :| Filled(p, g') && g'.range == r && FirstMaximum(g', b', t') && es' == Trace(p, g', b', t');
    FirstMaximumOnce(p, g, b, t, g', b', t');
    TracedOnce(p, g, g', b, t);
  }

  /** What an extracted alignment promises about the range it was extracted from. */
  ghost predicate Extracted<T>(p: Timelines<T>, c: Config, r: Range, es: seq<Entry>) {
    Framed(es) && r.Corner(es[0].baseIndex, es[0].targetIndex) &&
    r.Corner(es[|es| - 1].baseIndex + 1, es[|es| - 1].targetIndex + 1) &&
    Feasible(p, es) && Scored(p, es) && BestWalk(p, r, es) &&
    Total(p, es) >= c.minScore && |es| >= c.minLength && ReadOff(p, r, es)
  }

  /** Nothing more can be extracted: too little context, too low a score, or too short an alignment. */
  ghost predicate Exhausted<T>(p: Timelines<T>, c: Config, r: Range) {
    r.baseEnd - r.baseStart < c.minContext || r.targetEnd - r.targetStart < c.minContext ||
    NoWalkReaches(p, r, c.minScore) || exists es :: ReadOff(p, r, es) && |es| < c.minLength
  }

  /** The traceback from the first maximum is an extracted alignment, its length apart. */
  lemma MaximumIsExtracted<T>(p: Timelines<T>, c: Config, g: Grid, b: int, t: int)
    requires Filled(p, g) && FirstMaximum(g, b, t) && p.gap > 0.0 && g.H(b, t) >= c.minScore > 0.0
    ensures var es := Trace(p, g, b, t); ReadOff(p, g.range, es) && (|es| >= c.minLength ==> Extracted(p, c, g.range, es))
  {
    assert ReadOff(p, g.range, Trace(p, g, b, t));
    hide ReadOff, CellFilled;
    ExtractedIsBest(p, g, b, t);
  }

  ghost function StartOf(es: seq<Entry>): (int, int)
    requires Framed(es)
  {
    (es[0].baseIndex, es[0].targetIndex)
  }

  ghost function EndOf(es: seq<Entry>): (int, int)
    requires Framed(es)
  {
    (es[|es| - 1].baseIndex + 1, es[|es| - 1].targetIndex + 1)
  }

  ghost predicate AllFramed(las: seq<LocalAlignment>) {
    forall k :: 0 <= k < |las| ==> Framed(las[k].entries)
  }

  /** The rectangle before the k-th alignment and after the one preceding it. */
  ghost function GapBefore(r: Range, las: seq<LocalAlignment>, k: nat): Range
    requires k <= |las| && AllFramed(las)
  {
    var lo := if k == 0 then (r.baseStart, r.targetStart) else EndOf(las[k - 1].entries);
    var hi := if k == |las| then (r.baseEnd, r.targetEnd) else StartOf(las[k].entries);
    Range(lo.0, hi.0, lo.1, hi.1)
  }

  /** A best alignment of a sub-range. */
  ghost predicate IsPart<T>(p: Timelines<T>, c: Config, r: Range, la: LocalAlignment) {
    la.range.Within(r) && Extracted(p, c, la.range, la.entries) && Annotated(p, la)
  }

  /**
   * The alignments decompose the range: each is a best alignment of a sub-range, they follow
   * each other without overlap in both timelines, and every rectangle left over is exhausted.
   */
  ghost predicate Decomposes<T>(p: Timelines<T>, c: Config, r: Range, las: seq<LocalAlignment>) {
    AllFramed(las) && AllParts(p, c, r, las) && forall k :: 0 <= k <= |las| ==> GapOk(p, c, r, las, k)
  }

  ghost predicate AllParts<T>(p: Timelines<T>, c: Config, r: Range, las: seq<LocalAlignment>) {
    forall k :: 0 <= k < |las| ==> IsPart(p, c, r, las[k])
  }

  ghost predicate GapOk<T>(p: Timelines<T>, c: Config, r: Range, las: seq<LocalAlignment>, k: nat)
    requires k <= |las| && AllFramed(las)
  {
    GapBefore(r, las, k).Within(r) && Exhausted(p, c, GapBefore(r, las, k))
  }

  lemma DecomposesNone<T>(p: Timelines<T>, c: Config, r: Range)
    requires r.Within(r) && Exhausted(p, c, r)
    ensures Decomposes(p, c, r, [])
  {
    assert GapBefore(r, [], 0) == r;
  }

  /** The rectangles beside an extracted alignment lie in the range, each shorter than it in the base timeline. */
  lemma BesideExtracted<T>(p: Timelines<T>, c: Config, r: Range, es: seq<Entry>)
    requires Extracted(p, c, r, es)
    ensures var s, e := StartOf(es), EndOf(es);
      r.baseStart <= s.0 < e.0 <= r.baseEnd && r.targetStart <= s.1 < e.1 <= r.targetEnd
  {
    WalkAdvances(es, StartOf(es).0, StartOf(es).1, EndOf(es).0, EndOf(es).1);
    if |es| > 1 {
      WalkAdvances(es[..|es| - 1], StartOf(es).0, StartOf(es).1, EndOf(es).0 - 1, EndOf(es).1 - 1);
    }
  }

  /** The rectangles left over around and between two runs of alignments and the one joining them. */
  lemma GapOfSplit(r: Range, before: seq<LocalAlignment>, la: LocalAlignment, after: seq<LocalAlignment>, k: nat)
    requires AllFramed(before) && Framed(la.entries) && AllFramed(after) && k <= |before| + 1 + |after|
    ensures AllFramed(before + [la] + after)
    ensures var s, e := StartOf(la.entries), EndOf(la.entries);
      GapBefore(r, before + [la] + after, k) ==
      if k <= |before| then GapBefore(Range(r.baseStart, s.0, r.targetStart, s.1), before, k)
      else GapBefore(Range(e.0, r.baseEnd, e.1, r.targetEnd), after, k - |before| - 1)
  {
    var las, n := before + [la] + after, |before|;
    assert forall i :: 0 <= i < |las| ==> las[i] == if i < n then before[i] else if i == n then la else after[i - n - 1];
  }

  lemma PartsOfLarger<T>(p: Timelines<T>, c: Config, r: Range, las: seq<LocalAlignment>, outer: Range)
    requires AllParts(p, c, r, las) && r.Within(outer)
    ensures AllParts(p, c, outer, las)
  {
    hide Extracted, Annotated;
  }

  lemma GapsOfSplit<T>(
      p: Timelines<T>, c: Config, r: Range, before: seq<LocalAlignment>, la: LocalAlignment, after: seq<LocalAlignment>, k: nat)
    requires Framed(la.entries) && k <= |before| + 1 + |after|
    requires var s := StartOf(la.entries); var low := Range(r.baseStart, s.0, r.targetStart, s.1);
      low.Within(r) && Decomposes(p, c, low, before)
    requires var e := EndOf(la.entries); var high := Range(e.0, r.baseEnd, e.1, r.targetEnd);
      high.Within(r) && Decomposes(p, c, high, after)
    ensures AllFramed(before + [la] + after) && GapOk(p, c, r, before + [la] + after, k)
  {
    hide Exhausted, Framed, AllParts;
    GapOfSplit(r, before, la, after, k);
    var s, e := StartOf(la.entries), EndOf(la.entries);
    if k <= |before| {
      assert GapOk(p, c, Range(r.baseStart, s.0, r.targetStart, s.1), before, k);
    } else {
      assert GapOk(p, c, Range(e.0, r.baseEnd, e.1, r.targetEnd), after, k - |before| - 1);
    }
  }

  /** A best alignment of a range joins decompositions of the two rectangles beside it. */
  lemma DecomposesSplit<T>(
      p: Timelines<T>, c: Config, r: Range, before: seq<LocalAlignment>, la: LocalAlignment, after: seq<LocalAlignment>)
    requires la.range == r && Extracted(p, c, r, la.entries) && Annotated(p, la)
    requires var s := StartOf(la.entries); Decomposes(p, c, Range(r.baseStart, s.0, r.targetStart, s.1), before)
    requires var e := EndOf(la.entries); Decomposes(p, c, Range(e.0, r.baseEnd, e.1, r.targetEnd), after)
    requires r.baseStart <= r.baseEnd && r.targetStart <= r.targetEnd
    ensures Decomposes(p, c, r, before + [la] + after)
  {
    var s, e := StartOf(la.entries), EndOf(la.entries);
    BesideExtracted(p, c, r, la.entries);
    assert AllParts(p, c, r, [la]);
    hide Extracted, Annotated, Exhausted, Framed, IsPart, GapOk, GapBefore;
    PartsOfLarger(p, c, Range(r.baseStart, s.0, r.targetStart, s.1), before, r);
    PartsOfLarger(p, c, Range(e.0, r.baseEnd, e.1, r.targetEnd), after, r);
    forall k | 0 <= k <= |before| + 1 + |after|
      ensures AllFramed(before + [la] + after) && GapOk(p, c, r, before + [la] + after, k)
    {
      GapsOfSplit(p, c, r, before, la, after, k);
    }
    assert AllFramed(before + [la] + after);
  }

  // ---------------------------------------------------------------- the order of extraction

  ghost predicate LargeEnough(c: Config, r: Range) {
    r.baseEnd - r.baseStart >= c.minContext && r.targetEnd - r.targetStart >= c.minContext
  }

  ghost function RangeBefore(r: Range, es: seq<Entry>): Range
    requires Framed(es)
  {
    Range(r.baseStart, StartOf(es).0, r.targetStart, StartOf(es).1)
  }

  ghost function RangeAfter(r: Range, es: seq<Entry>): Range
    requires Framed(es)
  {
    Range(EndOf(es).0, r.baseEnd, EndOf(es).1, r.targetEnd)
  }

  /** The k-th alignment was extracted first, from the whole range, and the others beside it in the same way. */
  ghost predicate FirstExtracted<T>(p: Timelines<T>, c: Config, r: Range, las: seq<LocalAlignment>, k: nat)
    requires k < |las|
    decreases |las|, 0
  {
    LargeEnough(c, r) && las[k].range == r && Extracted(p, c, r, las[k].entries) &&
    Greedy(p, c, RangeBefore(r, las[k].entries), las[..k]) && Greedy(p, c, RangeAfter(r, las[k].entries), las[k + 1..])
  }

  /** The best alignment of the range comes first, then those of what is left before and after it. */
  ghost predicate Greedy<T>(p: Timelines<T>, c: Config, r: Range, las: seq<LocalAlignment>)
    decreases |las|, 1
  {
    if las == [] then Exhausted(p, c, r) else exists k: nat :: k < |las| && FirstExtracted(p, c, r, las, k)
  }

  lemma GreedyJoined<T>(
      p: Timelines<T>, c: Config, r: Range, before: seq<LocalAlignment>, la: LocalAlignment, after: seq<LocalAlignment>)
    requires LargeEnough(c, r) && la.range == r && Extracted(p, c, r, la.entries)
    requires Greedy(p, c, RangeBefore(r, la.entries), before) && Greedy(p, c, RangeAfter(r, la.entries), after)
    ensures Greedy(p, c, r, before + [la] + after)
  {
    hide Extracted;
    var las, k := before + [la] + after, |before|;
    assert las[..k] == before && las[k] == la && las[k + 1..] == after;
    assert FirstExtracted(p, c, r, las, k);
  }

  /** A range with an extracted alignment is not exhausted. */
  lemma ExtractedNotExhausted<T>(p: Timelines<T>, c: Config, r: Range, es: seq<Entry>)
    requires LargeEnough(c, r) && Extracted(p, c, r, es)
    ensures !Exhausted(p, c, r)
  {
    assert WalkIn(r, es, StartOf(es).0, StartOf(es).1, EndOf(es).0, EndOf(es).1);
    hide BestWalk, Walk, ReadOff;
    if es' :| ReadOff(p, r, es') && |es'| < c.minLength {
      ReadOffOnce(p, r, es, es');
    }
  }

  ghost predicate SamePlaces(las: seq<LocalAlignment>, las': seq<LocalAlignment>) {
    |las| == |las'| && forall k :: 0 <= k < |las| ==> las[k].range == las'[k].range && las[k].entries == las'[k].entries
  }

  /** The timelines, the similarity and the configuration determine every alignment. */
  lemma {:induction false} GreedyOnce<T>(
      p: Timelines<T>, c: Config, r: Range, las: seq<LocalAlignment>, las': seq<LocalAlignment>)
    requires Greedy(p, c, r, las) && Greedy(p, c, r, las')
    ensures SamePlaces(las, las')
    decreases |las|
  {
    hide Extracted, Exhausted;
    if las == [] && las' != [] {
      var k: nat :| k < |las'| && FirstExtracted(p, c, r, las', k);
      ExtractedNotExhausted(p, c, r, las'[k].entries);
    } else if las != [] && las' == [] {
      var k: nat :| k < |las| && FirstExtracted(p, c, r, las, k);
      ExtractedNotExhausted(p, c, r, las[k].entries);
    } else if las != [] {
      var k: nat :| k < |las| && FirstExtracted(p, c, r, las, k);
      var k': nat :| k' < |las'| && FirstExtracted(p, c, r, las', k');
      ExtractedOnce(p, c, r, las[k].entries, las'[k'].entries);
      GreedyOnce(p, c, RangeBefore(r, las[k].entries), las[..k], las'[..k']);
      GreedyOnce(p, c, RangeAfter(r, las[k].entries), las[k + 1..], las'[k' + 1..]);
      SameAround(las, las', k, k');
    }
  }

  lemma ExtractedOnce<T>(p: Timelines<T>, c: Config, r: Range, es: seq<Entry>, es': seq<Entry>)
    requires Extracted(p, c, r, es) && Extracted(p, c, r, es')
    ensures Framed(es) && es == es'
  {
    ReadOffOnce(p, r, es, es');
  }

  lemma SameAround(las: seq<LocalAlignment>, las': seq<LocalAlignment>, k: nat, k': nat)
    requires k < |las| && k' < |las'| && las[k].range == las'[k'].range && las[k].entries == las'[k'].entries
    requires SamePlaces(las[..k], las'[..k']) && SamePlaces(las[k + 1..], las'[k' + 1..])
    ensures SamePlaces(las, las')
  {
    forall i | 0 <= i < |las|
      ensures las[i].range == las'[i].range && las[i].entries == las'[i].entries
    {
      if i < k {
        assert las[i] == las[..k][i] && las'[i] == las'[..k'][i];
      } else if i > k {
        assert las[i] == las[k + 1..][i - k - 1] && las'[i] == las'[k' + 1..][i - k - 1];
      }
    }
  }

  // ---------------------------------------------------------------- what the entries mean for the ticks

  /** A MERGE carries the similarity of its two ticks, which is 0 if one of them is absent, and never -Infinity. */
  ghost predicate MergesMean<T>(
      base: seq<Option<T>>, target: seq<Option<T>>, scoreFn: (T, T) -> Score, es: seq<Entry>)
  {
    forall n :: 0 <= n < |es| && es[n].Merge? ==>
      var i, j := es[n].baseIndex, es[n].targetIndex;
      0 <= i < |base| && 0 <= j < |target| && es[n].score.Fin? &&
      es[n].score == if base[i].None? || target[j].None? then Fin(0.0) else scoreFn(base[i].value, target[j].value)
  }

  /**
   * Where a base and a target tick are passed over one after the other, both are there, and merging them
   * would cost at least as much as the two gaps.
   */
  ghost predicate GapsMean<T>(
      base: seq<Option<T>>, target: seq<Option<T>>, scoreFn: (T, T) -> Score, gap: real, es: seq<Entry>)
  {
    forall n {:trigger es[n]} ::
      0 <= n < |es| - 1 && ((es[n].Keep? && es[n + 1].Insert?) || (es[n].Insert? && es[n + 1].Keep?)) ==>
      var i, j := if es[n].Keep? then es[n].baseIndex else es[n + 1].baseIndex,
                  if es[n].Keep? then es[n + 1].targetIndex else es[n].targetIndex;
      0 <= i < |base| && 0 <= j < |target| && base[i].Some? && target[j].Some? &&
      var s := scoreFn(base[i].value, target[j].value);
      s.NegInf? || s.v <= -2.0 * gap
  }

  lemma EntriesMean<T>(p: Timelines<T>, c: Config, r: Range, es: seq<Entry>)
    requires p.Covers(r) && p.gap > 0.0 && Extracted(p, c, r, es)
    ensures MergesMean(p.base, p.target, p.scoreFn, es) && GapsMean(p.base, p.target, p.scoreFn, p.gap, es)
  {
    hide ReadOff, Walk, BestWalk;
    forall n | 0 <= n < |es| && es[n].Merge?
      ensures p.Pairs(es[n]) && es[n].score == p.Similarity(es[n].baseIndex, es[n].targetIndex) && es[n].score.Fin?
    {
      assert p.Allowed(es[n]);
    }
    var s, e := StartOf(es), EndOf(es);
    forall n {:trigger es[n]} | 0 <= n < |es| - 1 && GapPair(es[n], es[n + 1])
      ensures var (i, j) := PairOf(es[n], es[n + 1]);
        0 <= i < |p.base| && 0 <= j < |p.target| && (p.Similarity(i, j).NegInf? || p.Similarity(i, j).v <= -2.0 * p.gap)
    {
      GapsAreNeeded(p, r, es, n, s.0, s.1, e.0, e.1);
    }
  }

  /** The same for every alignment of a decomposition. */
  lemma AlignmentsMean<T>(p: Timelines<T>, c: Config, r: Range, las: seq<LocalAlignment>)
    requires p.Covers(r) && p.gap > 0.0 && Decomposes(p, c, r, las)
    ensures forall k :: 0 <= k < |las| ==>
      MergesMean(p.base, p.target, p.scoreFn, las[k].entries) && GapsMean(p.base, p.target, p.scoreFn, p.gap, las[k].entries)
  {
    hide Extracted, MergesMean, GapsMean, Annotated, Exhausted;
    forall k | 0 <= k < |las|
      ensures MergesMean(p.base, p.target, p.scoreFn, las[k].entries)
      ensures GapsMean(p.base, p.target, p.scoreFn, p.gap, las[k].entries)
    {
      assert IsPart(p, c, r, las[k]);
      EntriesMean(p, c, las[k].range, las[k].entries);
    }
  }

  // ---------------------------------------------------------------- coverage

  function PlacedBase(las: seq<LocalAlignment>): seq<int> {
    if las == [] then [] else PlacedBase(las[..|las| - 1]) + BaseIndices(las[|las| - 1].entries)
  }

  function PlacedTarget(las: seq<LocalAlignment>): seq<int> {
    if las == [] then [] else PlacedTarget(las[..|las| - 1]) + TargetIndices(las[|las| - 1].entries)
  }

  ghost predicate Ascending(xs: seq<int>, lo: int, hi: int) {
    (forall k :: 0 <= k < |xs| ==> lo <= xs[k] < hi) && (forall i, j :: 0 <= i < j < |xs| ==> xs[i] < xs[j])
  }

  lemma {:induction false} AscendingIsShort(xs: seq<int>, lo: int, hi: int)
    requires Ascending(xs, lo, hi) && lo <= hi
    ensures |xs| <= hi - lo
    decreases |xs|
  {
    if xs != [] {
      var init := xs[..|xs| - 1];
      AscendingIsShort(init, lo, xs[|xs| - 1]);
    }
  }

  lemma AscendingExtended(xs: seq<int>, lo: int, a: int, b: int, c: int)
    requires Ascending(xs, lo, a) && lo <= a <= b <= c
    ensures Ascending(xs + Consecutive(b, c), lo, c)
  {
  }

  /** Every tick is placed at most once, in order, over all alignments of a decomposition. */
  lemma {:induction false} PlacedOnce<T>(p: Timelines<T>, c: Config, r: Range, las: seq<LocalAlignment>, n: nat)
    requires Decomposes(p, c, r, las) && n <= |las|
    ensures var g := GapBefore(r, las, n);
      Ascending(PlacedBase(las[..n]), r.baseStart, g.baseStart) &&
      Ascending(PlacedTarget(las[..n]), r.targetStart, g.targetStart)
  {
    hide Extracted, Annotated, Exhausted;
    if n > 0 {
      PlacedOnce(p, c, r, las, n - 1);
      var es, g := las[n - 1].entries, GapBefore(r, las, n - 1);
      assert GapOk(p, c, r, las, n - 1);
      assert g.baseEnd == StartOf(es).0 && g.targetEnd == StartOf(es).1;
      WalkIndices(es, StartOf(es).0, StartOf(es).1, EndOf(es).0, EndOf(es).1);
      AscendingExtended(PlacedBase(las[..n - 1]), r.baseStart, g.baseStart, g.baseEnd, EndOf(es).0);
      AscendingExtended(PlacedTarget(las[..n - 1]), r.targetStart, g.targetStart, g.targetEnd, EndOf(es).1);
      assert las[..n][..n - 1] == las[..n - 1];
    }
  }

  /** Each timeline has at least as many ticks as are placed in it. */
  lemma PlacedCounts<T>(p: Timelines<T>, c: Config, r: Range, las: seq<LocalAlignment>)
    requires Decomposes(p, c, r, las)
    ensures |PlacedBase(las)| <= r.baseEnd - r.baseStart && |PlacedTarget(las)| <= r.targetEnd - r.targetStart
  {
    PlacedOnce(p, c, r, las, |las|);
    assert las[..|las|] == las;
    var g := GapBefore(r, las, |las|);
    assert GapOk(p, c, r, las, |las|);
    AscendingIsShort(PlacedBase(las), r.baseStart, g.baseStart);
    AscendingIsShort(PlacedTarget(las), r.targetStart, g.targetStart);
  }

  function GapEntries(es: seq<Entry>): nat {
    if es == [] then 0 else GapEntries(es[..|es| - 1]) + if es[|es| - 1].Merge? then 0 else 1
  }

  function GapTotal(las: seq<LocalAlignment>): nat {
    if las == [] then 0 else GapTotal(las[..|las| - 1]) + GapEntries(las[|las| - 1].entries)
  }

  // ---------------------------------------------------------------- the aligner

  /** Score, direction and decision margin of one cell from its neighbours. */
  method ScoreCell(diagonal: real, above: real, left: real, s: Score, gap: real)
    returns (h: real, dir: Direction, margin: real)
    ensures CellRule(h, dir, diagonal, above, left, s, gap)
    ensures MarginRule(margin, h, dir, diagonal, above, left, s, gap)
  {
    var scores := [Fin(0.0), if s.Fin? then Fin(diagonal + s.v) else NegInf, Fin(above - gap), Fin(left - gap)];
    h := 0.0;
    for k := 0 to 4
      invariant h >= 0.0
      invariant forall i :: 0 <= i < k ==> Le(scores[i], Fin(h))
      invariant h == 0.0 || exists i :: 0 <= i < k && scores[i] == Fin(h)
    {
      if scores[k].Fin? && scores[k].v > h {
        h := scores[k].v;
      }
    }
    assert Le(scores[1], Fin(h)) && Le(scores[2], Fin(h)) && Le(scores[3], Fin(h));
    var winner;
    if Fin(h) == scores[1] {
      dir, winner := MATCH, 1;
    } else if Fin(h) == scores[2] {
      dir, winner := GAP_TARGET, 2;
    } else if Fin(h) == scores[3] {
      dir, winner := GAP_BASE, 3;
    } else {
      dir, winner := NONE, 0;
    }
    margin := 0.0;
    if winner != 0 {
      var secondBest := NegInf;
      for k := 0 to 4
        invariant forall i :: 0 <= i < k && i != winner ==> Le(scores[i], secondBest)
        invariant secondBest.Fin? ==> exists i :: 0 <= i < k && i != winner && scores[i] == secondBest
      {
        if k != winner && !Le(scores[k], secondBest) {
          secondBest := scores[k];
        }
      }
      assert Le(scores[0], secondBest);
      assert winner != 1 ==> Le(scores[1], secondBest);
      assert winner != 2 ==> Le(scores[2], secondBest);
      assert winner != 3 ==> Le(scores[3], secondBest);
      margin := h - secondBest.v;
    }
  }

  /** The score of cell (i, j), counted from the start of the timelines; 0 outside the matrix. */
  function Cell(m: array2<real>, r: Range, i: int, j: int): real
    reads m
  {
    if 0 <= i - r.baseStart < m.Length0 && 0 <= j - r.targetStart < m.Length1
    then m[i - r.baseStart, j - r.targetStart] else 0.0
  }

  predicate Sized(r: Range, m: Matrices) {
    m.matrix.Length0 == m.direction.Length0 == m.similarity.Length0 == m.margin.Length0 == r.baseEnd - r.baseStart &&
    m.matrix.Length1 == m.direction.Length1 == m.similarity.Length1 == m.margin.Length1 == r.targetEnd - r.targetStart
  }

  /** Cell (i, j) is filled, given its three neighbours. */
  ghost predicate CellDone<T>(p: Timelines<T>, r: Range, m: Matrices, i: int, j: int)
    requires p.Covers(r) && Sized(r, m) && r.baseStart <= i < r.baseEnd && r.targetStart <= j < r.targetEnd
    reads m.matrix, m.direction, m.similarity, m.margin
  {
    var s, h := p.Similarity(i, j), Cell(m.matrix, r, i, j);
    var dir := m.direction[i - r.baseStart, j - r.targetStart];
    var d, u, l := Cell(m.matrix, r, i - 1, j - 1), Cell(m.matrix, r, i - 1, j), Cell(m.matrix, r, i, j - 1);
    m.similarity[i - r.baseStart, j - r.targetStart] == s && CellRule(h, dir, d, u, l, s, p.gap) &&
    MarginRule(m.margin[i - r.baseStart, j - r.targetStart], h, dir, d, u, l, s, p.gap)
  }

  ghost predicate Precedes(r: Range, i: int, j: int, i1: int, j1: int) {
    r.baseStart <= i < r.baseEnd && r.targetStart <= j < r.targetEnd && (i < i1 || (i == i1 && j < j1))
  }

  /** Every cell before (i1, j1) in row-major order is filled. */
  ghost predicate DoneBefore<T>(p: Timelines<T>, r: Range, m: Matrices, i1: int, j1: int)
    requires p.Covers(r) && Sized(r, m)
    reads m.matrix, m.direction, m.similarity, m.margin
  {
    forall i, j :: Precedes(r, i, j, i1, j1) ==> CellDone(p, r, m, i, j)
  }

  /** The grid of the matrices has their scores and directions. */
  lemma GridCell(r: Range, m: Matrices, b: int, t: int)
    requires Sized(r, m)
    ensures GridOf(r, m).Shaped() && GridOf(r, m).H(b, t) == Cell(m.matrix, r, b - 1, t - 1)
    ensures r.Inner(b, t) ==> GridOf(r, m).Dir(b, t) == m.direction[b - 1 - r.baseStart, t - 1 - r.targetStart]
  {
  }

  lemma CellIsFilled<T>(p: Timelines<T>, r: Range, m: Matrices, b: int, t: int)
    requires p.Covers(r) && Sized(r, m) && r.Inner(b, t) && CellDone(p, r, m, b - 1, t - 1)
    ensures GridOf(r, m).Shaped() && CellFilled(p, GridOf(r, m), b, t)
  {
    hide CellRule, MarginRule, Rows, Cell;
    GridCell(r, m, b, t);
    GridCell(r, m, b - 1, t - 1);
    GridCell(r, m, b - 1, t);
    GridCell(r, m, b, t - 1);
  }

  lemma CellIsRecorded<T>(p: Timelines<T>, r: Range, m: Matrices, b: int, t: int)
    requires p.Covers(r) && Sized(r, m) && r.Inner(b, t) && CellDone(p, r, m, b - 1, t - 1) && GridOf(r, m).Shaped()
    requires Shape(Rows(m.similarity), r) && Shape(Rows(m.margin), r)
    ensures RecordedAt(p, Rows(m.similarity), Rows(m.margin), GridOf(r, m), b, t)
  {
    hide CellRule, MarginRule, Rows, Cell;
    GridCell(r, m, b, t);
    GridCell(r, m, b - 1, t - 1);
    GridCell(r, m, b - 1, t);
    GridCell(r, m, b, t - 1);
  }

  /** Matrices all of whose cells are filled are those of a filled grid. */
  lemma DoneIsFilled<T>(p: Timelines<T>, r: Range, m: Matrices)
    requires p.Covers(r) && Sized(r, m)
    requires DoneBefore(p, r, m, r.baseEnd, r.targetStart)
    ensures Recorded(p, Rows(m.similarity), Rows(m.margin), GridOf(r, m))
  {
    GridCell(r, m, r.baseStart, r.targetStart);
    hide CellFilled, RecordedAt, CellDone, Rows;
    forall b, t | r.Inner(b, t)
      ensures CellFilled(p, GridOf(r, m), b, t)
      ensures RecordedAt(p, Rows(m.similarity), Rows(m.margin), GridOf(r, m), b, t)
    {
      assert Precedes(r, b - 1, t - 1, r.baseEnd, r.targetStart);
      CellIsFilled(p, r, m, b, t);
      CellIsRecorded(p, r, m, b, t);
    }
  }

  /** Writing cell (i, j) leaves the cells before it filled, as they do not depend on it. */
  method SetCell<T>(p: Timelines<T>, r: Range, m: Matrices, i: int, j: int, s: Score, h: real, dir: Direction, marg: real)
    requires p.Covers(r) && Sized(r, m) && m.matrix != m.margin
    requires r.baseStart <= i < r.baseEnd && r.targetStart <= j < r.targetEnd && s == p.Similarity(i, j)
    requires DoneBefore(p, r, m, i, j)
    requires var d, u, l := Cell(m.matrix, r, i - 1, j - 1), Cell(m.matrix, r, i - 1, j), Cell(m.matrix, r, i, j - 1);
      CellRule(h, dir, d, u, l, s, p.gap) && MarginRule(marg, h, dir, d, u, l, s, p.gap)
    modifies m.matrix, m.direction, m.similarity, m.margin
    ensures DoneBefore(p, r, m, i, j + 1)
  {
    var x, y := i - r.baseStart, j - r.targetStart;
    m.similarity[x, y] := s;
    m.matrix[x, y] := h;
    m.direction[x, y] := dir;
    m.margin[x, y] := marg;
    forall i', j' | Precedes(r, i', j', i, j + 1)
      ensures CellDone(p, r, m, i', j')
    {
      if (i', j') != (i, j) {
        assert old(CellDone(p, r, m, i', j'));
      }
    }
  }

  /** `f` is the share of `placed` ticks in a timeline of `length`, and lies in [0, 1]. */
  ghost predicate IsFraction(f: real, placed: nat, length: nat) {
    placed <= length && 0.0 <= f <= 1.0 && if length == 0 then f == 0.0 else f * length as real == placed as real
  }

  function Fraction(placed: nat, length: nat): (f: real)
    requires placed <= length
    ensures IsFraction(f, placed, length)
  {
    if length > 0 then placed as real / length as real else 0.0
  }

  /** Absolute indices of the null ticks of a range. */
  method NullTicks<T>(ticks: seq<Option<T>>, start: int, end: int) returns (nulls: set<int>)
    requires 0 <= start <= end <= |ticks|
    ensures nulls == set i | start <= i < end && ticks[i].None?
  {
    nulls := {};
    for i := start to end
      invariant nulls == set k | start <= k < i && ticks[k].None?
    {
      if ticks[i].None? {
        nulls := nulls + {i};
      }
    }
  }

  method CountActions(es: seq<Entry>) returns (merges: nat, keeps: nat, inserts: nat)
    ensures merges + keeps == |BaseIndices(es)| && merges + inserts == |TargetIndices(es)|
    ensures keeps + inserts == GapEntries(es)
  {
    merges, keeps, inserts := 0, 0, 0;
    for k := 0 to |es|
      invariant merges + keeps == |BaseIndices(es[..k])| && merges + inserts == |TargetIndices(es[..k])|
      invariant keeps + inserts == GapEntries(es[..k])
    {
      assert es[..k + 1][..k] == es[..k] && es[..k + 1][k] == es[k];
      match es[k]
      case Merge(_, _, _) => merges := merges + 1;
      case Keep(_) => keeps := keeps + 1;
      case Insert(_) => inserts := inserts + 1;
    }
    assert es[..|es|] == es;
  }

  method CountAll(las: seq<LocalAlignment>) returns (mergeCount: nat, keepCount: nat, insertCount: nat)
    ensures mergeCount + keepCount == |PlacedBase(las)| && mergeCount + insertCount == |PlacedTarget(las)|
    ensures keepCount + insertCount == GapTotal(las)
  {
    mergeCount, keepCount, insertCount := 0, 0, 0;
    for k := 0 to |las|
      invariant mergeCount + keepCount == |PlacedBase(las[..k])| && mergeCount + insertCount == |PlacedTarget(las[..k])|
      invariant keepCount + insertCount == GapTotal(las[..k])
    {
      var merges, keeps, inserts := CountActions(las[k].entries);
      mergeCount, keepCount, insertCount := mergeCount + merges, keepCount + keeps, insertCount + inserts;
      assert las[..k + 1][..k] == las[..k];
    }
    assert las[..|las|] == las;
  }

  class TickAligner<!T> {
    const config: Config
    const base: seq<Option<T>>
    const target: seq<Option<T>>
    const scoreFn: (T, T) -> Score
    var alignments: seq<LocalAlignment>

    constructor (base: seq<Option<T>>, target: seq<Option<T>>, scoreFn: (T, T) -> Score, config: Config)
      ensures this.base == base && this.target == target && this.scoreFn == scoreFn && this.config == config
      ensures alignments == []
    {
      this.base, this.target, this.scoreFn, this.config := base, target, scoreFn, config;
      alignments := [];
    }

    function Input(): Timelines<T> {
      Timelines(base, target, scoreFn, config.gapOpenPenalty)
    }

    /** Fills the four matrices over a range, cell by cell. */
    method FillMatrices(range: Range) returns (m: Matrices, ghost g: Grid)
      requires Input().Covers(range)
      ensures Sized(range, m) && Recorded(Input(), Rows(m.similarity), Rows(m.margin), g) && g.range == range
      ensures Holds(Input(), range, m, g)
    {
      var rows, cols := range.baseEnd - range.baseStart, range.targetEnd - range.targetStart;
      var matrix := new real[rows, cols]((i, j) => 0.0);
      var direction := new Direction[rows, cols]((i, j) => NONE);
      var similarity := new Score[rows, cols]((i, j) => Fin(0.0));
      var margin := new real[rows, cols]((i, j) => 0.0);
      m := Matrices(matrix, direction, similarity, margin);
      for i := range.baseStart to range.baseEnd
        invariant DoneBefore(Input(), range, m, i, range.targetStart)
      {
        for j := range.targetStart to range.targetEnd
          invariant DoneBefore(Input(), range, m, i, j)
        {
          var s := Input().Similarity(i, j);
          var h, dir, marg := ScoreCell(Cell(matrix, range, i - 1, j - 1), Cell(matrix, range, i - 1, j),
                                        Cell(matrix, range, i, j - 1), s, config.gapOpenPenalty);
          SetCell(Input(), range, m, i, j, s, h, dir, marg);
        }
        assert forall i', j' ::
          Precedes(range, i', j', i + 1, range.targetStart) ==> Precedes(range, i', j', i, range.targetEnd);
      }
      g := GridOf(range, m);
      DoneIsFilled(Input(), range, m);
      MatricesOfGrid(Input(), range, m);
    }

    predicate Valid()
    {
      config.gapOpenPenalty > 0.0 && config.minScore > 0.0
    }

    /** Finds the highest-scoring cell, first in row-major order, and traces back from it. */
    method BacktrackBest(range: Range, m: Matrices, ghost g: Grid) returns (result: Option<seq<Entry>>)
      requires Valid() && Input().Covers(range) && Sized(range, m) && Filled(Input(), g) && Holds(Input(), range, m, g)
      ensures result.None? ==> NoWalkReaches(Input(), range, config.minScore)
      ensures result.Some? ==>
        ReadOff(Input(), range, result.value) &&
        (|result.value| >= config.minLength ==> Extracted(Input(), config, range, result.value))
    {
      var maxScore, maxI, maxJ := FindMaximum(m.matrix);
      if maxScore < config.minScore {
        LowScan(Input(), config, range, m, g, maxScore, maxI, maxJ);
        return None;
      }
      HighScan(Input(), config, range, m, g, maxScore, maxI, maxJ);
      var entries := Traceback(range, m, maxI, maxJ, g);
      return Some(entries);
    }

    /** Extracts the best local alignment of a range, if it is good and long enough. */
    method AlignLocal(range: Range) returns (result: Option<LocalAlignment>)
      requires Valid() && Input().Covers(range)
      ensures result.None? ==> Exhausted(Input(), config, range)
      ensures result.Some? ==>
        var la := result.value;
        la.range == range && Extracted(Input(), config, range, la.entries) && Annotated(Input(), la)
    {
      var m, g := FillMatrices(range);
      var entries := BacktrackBest(range, m, g);
      if entries.None? || |entries.value| < config.minLength {
        return None;
      }
      var baseNull := NullTicks(base, range.baseStart, range.baseEnd);
      var targetNull := NullTicks(target, range.targetStart, range.targetEnd);
      return Some(LocalAlignment(entries.value, range, Rows(m.similarity), Rows(m.margin), baseNull, targetNull));
    }

    /** Aligns a range: extracts its best alignment and recurses into the rectangles beside it. */
    method AlignOver(range: Range) returns (aligned: bool, ghost found: seq<LocalAlignment>)
      requires Valid() && Input().Covers(range)
      modifies this`alignments
      ensures alignments == old(alignments) + found && (aligned <==> found != [])
      ensures Decomposes(Input(), config, range, found) && Greedy(Input(), config, range, found)
      decreases range.baseEnd - range.baseStart, 1
    {
      found := [];
      if range.baseEnd - range.baseStart < config.minContext || range.targetEnd - range.targetStart < config.minContext {
        DecomposesNone(Input(), config, range);
        return false, [];
      }
      var localAlignment := AlignLocal(range);
      if localAlignment.None? {
        DecomposesNone(Input(), config, range);
        return false, [];
      }
      found := SplitAround(range, localAlignment.value);
      return true, found;
    }

    /** Places an extracted alignment between those of the rectangles before and after it. */
    method SplitAround(range: Range, la: LocalAlignment) returns (ghost found: seq<LocalAlignment>)
      requires Valid() && Input().Covers(range) && LargeEnough(config, range)
      requires la.range == range && Extracted(Input(), config, range, la.entries) && Annotated(Input(), la)
      modifies this`alignments
      ensures alignments == old(alignments) + found && found != []
      ensures Decomposes(Input(), config, range, found) && Greedy(Input(), config, range, found)
      decreases range.baseEnd - range.baseStart, 0
    {
      hide Decomposes, Annotated, ReadOff, BestWalk, Greedy;
      var first, last := la.entries[0], la.entries[|la.entries| - 1];
      BesideExtracted(Input(), config, range, la.entries);
      var _, before := AlignOver(Range(range.baseStart, first.baseIndex, range.targetStart, first.targetIndex));
      alignments := alignments + [la];
      var _, after := AlignOver(Range(last.baseIndex + 1, range.baseEnd, last.targetIndex + 1, range.targetEnd));
      DecomposesSplit(Input(), config, range, before, la, after);
      GreedyJoined(Input(), config, range, before, la, after);
      found := before + [la] + after;
    }

    /** Aligns the whole timelines. */
    method Align() returns (result: AlignmentResult)
      requires Valid()
      modifies this`alignments
      ensures result.alignments == alignments
      ensures Decomposes(Input(), config, Input().Full(), alignments) && Greedy(Input(), config, Input().Full(), alignments)
      ensures IsFraction(result.baseCoverage, |PlacedBase(alignments)|, |base|)
      ensures IsFraction(result.targetCoverage, |PlacedTarget(alignments)|, |target|)
      ensures result.gapCount == GapTotal(alignments)
      ensures forall k :: 0 <= k < |alignments| ==>
        MergesMean(base, target, scoreFn, alignments[k].entries) &&
        GapsMean(base, target, scoreFn, config.gapOpenPenalty, alignments[k].entries)
    {
      hide Decomposes, Greedy, IsFraction, MergesMean, GapsMean;
      alignments := [];
      var _, found := AlignOver(Input().Full());
      assert alignments == found;
      var mergeCount, keepCount, insertCount := CountAll(alignments);
      PlacedCounts(Input(), config, Input().Full(), alignments);
      AlignmentsMean(Input(), config, Input().Full(), alignments);
      var baseCoverage := Fraction(mergeCount + keepCount, |base|);
      var targetCoverage := Fraction(mergeCount + insertCount, |target|);
      result := AlignmentResult(alignments, baseCoverage, targetCoverage, keepCount + insertCount);
    }

    /** Follows the directions back from a cell, collecting the actions in reverse. */
    method Traceback(range: Range, m: Matrices, maxI: int, maxJ: int, ghost g: Grid) returns (entries: seq<Entry>)
      requires Input().Covers(range) && Sized(range, m) && g.Shaped() && Holds(Input(), range, m, g)
      requires 0 <= maxI < m.matrix.Length0 && 0 <= maxJ < m.matrix.Length1
      ensures entries == Trace(Input(), g, range.baseStart + maxI + 1, range.targetStart + maxJ + 1)
    {
      hide Trace;
      ghost var p := Input();
      ghost var all := Trace(p, g, range.baseStart + maxI + 1, range.targetStart + maxJ + 1);
      entries := [];
      var i, j := maxI, maxJ;
      while i >= 0 && j >= 0
        invariant -1 <= i < m.matrix.Length0 && -1 <= j < m.matrix.Length1
        invariant all == Trace(p, g, range.baseStart + i + 1, range.targetStart + j + 1) + Reverse(entries)
        decreases i + j + 2
      {
        ghost var b, t := range.baseStart + i + 1, range.targetStart + j + 1;
        var dir := m.direction[i, j];
        TraceStep(p, g, b, t);
        assert dir == g.Dir(b, t);
        if dir == NONE {
          break;
        }
        var entry;
        ghost var b', t' := b, t;
        match dir {
          case MATCH =>
            entry := Merge(i + range.baseStart, j + range.targetStart, m.similarity[i, j]);
            i, j, b', t' := i - 1, j - 1, b - 1, t - 1;
          case GAP_TARGET =>
            entry := Keep(i + range.baseStart);
            i, b' := i - 1, b - 1;
          case GAP_BASE =>
            entry := Insert(j + range.targetStart);
            j, t' := j - 1, t - 1;
        }
        ReverseSnoc(Trace(p, g, b', t'), entry, entries);
        entries := entries + [entry];
      }
      TraceStep(p, g, range.baseStart + i + 1, range.targetStart + j + 1);
      entries := Reverse(entries);
    }
  }

  /** One step of the traceback. */
  lemma TraceStep<T>(p: Timelines<T>, g: Grid, b: int, t: int)
    requires g.Shaped() && p.Covers(g.range) && g.range.Corner(b, t)
    ensures match g.Dir(b, t)
      case NONE => Trace(p, g, b, t) == []
      case MATCH =>
        g.range.Inner(b, t) &&
        Trace(p, g, b, t) == Trace(p, g, b - 1, t - 1) + [Merge(b - 1, t - 1, p.Similarity(b - 1, t - 1))]
      case GAP_TARGET => g.range.Inner(b, t) && Trace(p, g, b, t) == Trace(p, g, b - 1, t) + [Keep(b - 1)]
      case GAP_BASE => g.range.Inner(b, t) && Trace(p, g, b, t) == Trace(p, g, b, t - 1) + [Insert(t - 1)]
  {
  }

  /** The matrices hold the scores and directions of a grid, and the similarities. */
  ghost predicate Holds<T>(p: Timelines<T>, r: Range, m: Matrices, g: Grid)
    requires p.Covers(r) && Sized(r, m) && g.Shaped()
    reads m.matrix, m.direction, m.similarity
  {
    g.range == r &&
    forall b, t :: r.Inner(b, t) ==>
      var i, j := b - 1 - r.baseStart, t - 1 - r.targetStart;
      m.matrix[i, j] == g.H(b, t) && m.direction[i, j] == g.Dir(b, t) && m.similarity[i, j] == p.Similarity(b - 1, t - 1)
  }

  lemma MatricesOfGrid<T>(p: Timelines<T>, r: Range, m: Matrices)
    requires p.Covers(r) && Sized(r, m) && Recorded(p, Rows(m.similarity), Rows(m.margin), GridOf(r, m))
    ensures GridOf(r, m).Shaped() && Holds(p, r, m, GridOf(r, m))
  {
    hide CellFilled, MarginAt, Rows, Cell;
    forall b, t | r.Inner(b, t)
      ensures var i, j := b - 1 - r.baseStart, t - 1 - r.targetStart;
        m.matrix[i, j] == GridOf(r, m).H(b, t) && m.direction[i, j] == GridOf(r, m).Dir(b, t) &&
        m.similarity[i, j] == p.Similarity(b - 1, t - 1)
    {
      assert RecordedAt(p, Rows(m.similarity), Rows(m.margin), GridOf(r, m), b, t);
      GridMatrices(r, m, b, t);
    }
  }

  lemma GridMatrices(r: Range, m: Matrices, b: int, t: int)
    requires Sized(r, m) && GridOf(r, m).Shaped() && r.Inner(b, t)
    ensures var i, j := b - 1 - r.baseStart, t - 1 - r.targetStart;
      m.matrix[i, j] == GridOf(r, m).H(b, t) && m.direction[i, j] == GridOf(r, m).Dir(b, t)
  {
  }

  /** The scan finds the first maximum of the grid, or that no cell is positive. */
  lemma MaximumOfGrid(r: Range, m: Matrices, g: Grid, maxScore: real, maxI: int, maxJ: int)
    requires g.Shaped() && g.range == r && Sized(r, m)
    requires forall b, t :: r.Inner(b, t) ==> g.H(b, t) == m.matrix[b - 1 - r.baseStart, t - 1 - r.targetStart]
    requires IsMaximumOf(m.matrix, m.matrix.Length0, 0, maxScore, maxI, maxJ)
    ensures forall b, t :: r.Inner(b, t) ==> g.H(b, t) <= maxScore
    ensures maxScore > 0.0 ==>
      var b, t := r.baseStart + maxI + 1, r.targetStart + maxJ + 1;
      FirstMaximum(g, b, t) && g.H(b, t) == maxScore
  {
    forall b, t | r.Inner(b, t)
      ensures g.H(b, t) <= maxScore
      ensures maxScore > 0.0 && (b < r.baseStart + maxI + 1 || (b == r.baseStart + maxI + 1 && t < r.targetStart + maxJ + 1)) ==>
        g.H(b, t) < maxScore
    {
      assert Scanned(m.matrix, b - r.baseStart - 1, t - r.targetStart - 1, m.matrix.Length0, 0);
    }
  }

  /** A scanned maximum below the minimum score: no walk of the range is good enough. */
  lemma LowScan<T>(
      p: Timelines<T>, c: Config, r: Range, m: Matrices, g: Grid, maxScore: real, maxI: int, maxJ: int)
    requires p.Covers(r) && Sized(r, m) && Filled(p, g) && Holds(p, r, m, g) && p.gap > 0.0 && c.minScore > 0.0
    requires IsMaximumOf(m.matrix, m.matrix.Length0, 0, maxScore, maxI, maxJ) && maxScore < c.minScore
    ensures NoWalkReaches(p, r, c.minScore)
  {
    hide CellFilled;
    MaximumOfGrid(r, m, g, maxScore, maxI, maxJ);
    LowMatrix(p, g, c.minScore);
  }

  /** A scanned maximum of at least the minimum score: the traceback from it is a best alignment. */
  lemma HighScan<T>(
      p: Timelines<T>, c: Config, r: Range, m: Matrices, g: Grid, maxScore: real, maxI: int, maxJ: int)
    requires p.Covers(r) && Sized(r, m) && Filled(p, g) && Holds(p, r, m, g) && p.gap > 0.0
    requires IsMaximumOf(m.matrix, m.matrix.Length0, 0, maxScore, maxI, maxJ) && maxScore >= c.minScore > 0.0
    ensures 0 <= maxI < m.matrix.Length0 && 0 <= maxJ < m.matrix.Length1
    ensures var es := Trace(p, g, r.baseStart + maxI + 1, r.targetStart + maxJ + 1);
      ReadOff(p, r, es) && (|es| >= c.minLength ==> Extracted(p, c, r, es))
  {
    hide Extracted, ReadOff, CellFilled;
    MaximumOfGrid(r, m, g, maxScore, maxI, maxJ);
    MaximumIsExtracted(p, c, g, r.baseStart + maxI + 1, r.targetStart + maxJ + 1);
  }

  /** Finds the global maximum of the matrix, scanning it row by row. */
  method FindMaximum(m: array2<real>) returns (maxScore: real, maxI: int, maxJ: int)
    ensures IsMaximumOf(m, m.Length0, 0, maxScore, maxI, maxJ)
  {
    maxScore, maxI, maxJ := 0.0, 0, 0;
    for i := 0 to m.Length0
      invariant IsMaximumOf(m, i, 0, maxScore, maxI, maxJ)
    {
      for j := 0 to m.Length1
        invariant IsMaximumOf(m, i, j, maxScore, maxI, maxJ)
      {
        if m[i, j] > maxScore {
          maxScore, maxI, maxJ := m[i, j], i, j;
        }
      }
      assert forall x, y :: Scanned(m, x, y, i + 1, 0) ==> Scanned(m, x, y, i, m.Length1);
    }
  }

  ghost predicate Scanned(m: array2<real>, x: int, y: int, i: int, j: int) {
    0 <= x < m.Length0 && 0 <= y < m.Length1 && (x < i || (x == i && y < j))
  }

  function Reverse(es: seq<Entry>): seq<Entry> {
    seq(|es|, k requires 0 <= k < |es| => es[|es| - 1 - k])
  }

  lemma ReverseSnoc(prefix: seq<Entry>, e: Entry, es: seq<Entry>)
    ensures prefix + Reverse(es + [e]) == prefix + [e] + Reverse(es)
  {
  }

  /** The running maximum after scanning every cell before (i, j) in row-major order. */
  ghost predicate IsMaximumOf(m: array2<real>, i: int, j: int, maxScore: real, maxI: int, maxJ: int)
    reads m
  {
    maxScore >= 0.0 &&
    (forall x, y :: Scanned(m, x, y, i, j) ==>
      m[x, y] <= maxScore && (maxScore > 0.0 && (x < maxI || (x == maxI && y < maxJ)) ==> m[x, y] < maxScore)) &&
    (maxScore > 0.0 ==> Scanned(m, maxI, maxJ, i, j) && m[maxI, maxJ] == maxScore)
  }
}
