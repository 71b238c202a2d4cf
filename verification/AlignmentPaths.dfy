/**
 * Alignment walks over a base and a target timeline, and the best score a walk can reach.
 *
 * Walks are defined without reference to the scoring recurrence: a walk goes from one corner
 * of the tick grid to another, each entry consuming a base tick, a target tick, or both.
 * A `Grid` is the content of the filled score and direction matrices, each cell following from
 * its three neighbours; the lemmas relate the two.
 */
module AlignmentPaths {
  import opened Options

  /** A similarity: finite, or the -Infinity of an incompatible pair. */
  datatype Score = NegInf | Fin(v: real)

  predicate Le(a: Score, b: Score) {
    a.NegInf? || (b.Fin? && a.v <= b.v)
  }

  datatype Entry =
    | Merge(baseIndex: int, targetIndex: int, score: Score)
    | Insert(targetIndex: int)
    | Keep(baseIndex: int)

  datatype Direction = NONE | MATCH | GAP_TARGET | GAP_BASE

  /** Half-open range of base and target ticks. */
  datatype Range = Range(baseStart: int, baseEnd: int, targetStart: int, targetEnd: int) {
    predicate Within(outer: Range) {
      outer.baseStart <= baseStart <= baseEnd <= outer.baseEnd &&
      outer.targetStart <= targetStart <= targetEnd <= outer.targetEnd
    }

    predicate Corner(b: int, t: int) {
      baseStart <= b <= baseEnd && targetStart <= t <= targetEnd
    }

    predicate Inner(b: int, t: int) {
      baseStart < b <= baseEnd && targetStart < t <= targetEnd
    }
  }

  /** The two timelines (absent ticks are `None`), the similarity function and the gap penalty. */
  datatype Timelines<!T> = Timelines(
    base: seq<Option<T>>, target: seq<Option<T>>, scoreFn: (T, T) -> Score, gap: real)
  {
    predicate Covers(r: Range) {
      0 <= r.baseStart <= r.baseEnd <= |base| && 0 <= r.targetStart <= r.targetEnd <= |target|
    }

    function Full(): Range {
      Range(0, |base|, 0, |target|)
    }

    function Similarity(i: int, j: int): Score
      requires 0 <= i < |base| && 0 <= j < |target|
    {
      if base[i].None? || target[j].None? then Fin(0.0) else scoreFn(base[i].value, target[j].value)
    }

    predicate Pairs(e: Entry) {
      e.Merge? && 0 <= e.baseIndex < |base| && 0 <= e.targetIndex < |target|
    }

    /** A gap, or a MERGE of compatible ticks. */
    predicate Allowed(e: Entry) {
      e.Merge? ==> Pairs(e) && Similarity(e.baseIndex, e.targetIndex).Fin?
    }

    /** What an allowed entry contributes to the score of a walk. */
    function Gain(e: Entry): real {
      if !e.Merge? then -gap
      else if Allowed(e) then Similarity(e.baseIndex, e.targetIndex).v
      else 0.0
    }
  }

  // ---------------------------------------------------------------- walks

  /** `es` leads from corner (b0, t0) to corner (b1, t1), consuming ticks in order. */
  ghost predicate Walk(es: seq<Entry>, b0: int, t0: int, b1: int, t1: int) {
    if es == [] then b0 == b1 && t0 == t1
    else
      var init := es[..|es| - 1];
      match es[|es| - 1]
      case Merge(i, j, _) => i == b1 - 1 && j == t1 - 1 && Walk(init, b0, t0, b1 - 1, t1 - 1)
      case Insert(j) => j == t1 - 1 && Walk(init, b0, t0, b1, t1 - 1)
      case Keep(i) => i == b1 - 1 && Walk(init, b0, t0, b1 - 1, t1)
  }

  /** A walk whose corners all lie in the range. */
  ghost predicate WalkIn(r: Range, es: seq<Entry>, b0: int, t0: int, b1: int, t1: int) {
    r.Corner(b0, t0) && r.Corner(b1, t1) && Walk(es, b0, t0, b1, t1)
  }

  /** Every MERGE pairs compatible ticks. */
  ghost predicate Feasible<T>(p: Timelines<T>, es: seq<Entry>) {
    forall k :: 0 <= k < |es| ==> p.Allowed(es[k])
  }

  /** Every MERGE records the similarity of its pair. */
  ghost predicate Scored<T>(p: Timelines<T>, es: seq<Entry>) {
    forall k :: 0 <= k < |es| && p.Pairs(es[k]) ==> es[k].score == p.Similarity(es[k].baseIndex, es[k].targetIndex)
  }

  ghost function Total<T>(p: Timelines<T>, es: seq<Entry>): real {
    if es == [] then 0.0 else Total(p, es[..|es| - 1]) + p.Gain(es[|es| - 1])
  }

  /** Sum of merged similarities minus gap penalties; -Infinity if some pair is incompatible. */
  ghost function Value<T>(p: Timelines<T>, es: seq<Entry>): Score {
    if Feasible(p, es) then Fin(Total(p, es)) else NegInf
  }

  lemma {:induction false} WalkAdvances(es: seq<Entry>, b0: int, t0: int, b1: int, t1: int)
    requires Walk(es, b0, t0, b1, t1)
    ensures b0 <= b1 && t0 <= t1
    ensures es != [] ==> b0 < b1 || t0 < t1
    decreases |es|
  {
    if es != [] {
      var init := es[..|es| - 1];
      match es[|es| - 1]
      case Merge(_, _, _) => WalkAdvances(init, b0, t0, b1 - 1, t1 - 1);
      case Insert(_) => WalkAdvances(init, b0, t0, b1, t1 - 1);
      case Keep(_) => WalkAdvances(init, b0, t0, b1 - 1, t1);
    }
  }

  function BaseIndices(es: seq<Entry>): seq<int> {
    if es == [] then []
    else
      BaseIndices(es[..|es| - 1]) +
      match es[|es| - 1]
      case Merge(i, _, _) => [i]
      case Insert(_) => []
      case Keep(i) => [i]
  }

  function TargetIndices(es: seq<Entry>): seq<int> {
    if es == [] then []
    else
      TargetIndices(es[..|es| - 1]) +
      match es[|es| - 1]
      case Merge(_, j, _) => [j]
      case Insert(j) => [j]
      case Keep(_) => []
  }

  function Consecutive(lo: int, hi: int): seq<int>
    requires lo <= hi
  {
    seq(hi - lo, k => lo + k)
  }

  /** The ticks a walk consumes are exactly the consecutive ones between its two corners. */
  lemma {:induction false} WalkIndices(es: seq<Entry>, b0: int, t0: int, b1: int, t1: int)
    requires Walk(es, b0, t0, b1, t1)
    ensures b0 <= b1 && t0 <= t1
    ensures BaseIndices(es) == Consecutive(b0, b1)
    ensures TargetIndices(es) == Consecutive(t0, t1)
    decreases |es|
  {
    if es != [] {
      var init := es[..|es| - 1];
      match es[|es| - 1]
      case Merge(_, _, _) => WalkIndices(init, b0, t0, b1 - 1, t1 - 1);
      case Insert(_) => WalkIndices(init, b0, t0, b1, t1 - 1);
      case Keep(_) => WalkIndices(init, b0, t0, b1 - 1, t1);
    }
  }

  // ---------------------------------------------------------------- the recurrence

  /** Content of the score and direction matrices filled over a range. */
  datatype Grid = Grid(range: Range, score: seq<seq<real>>, direction: seq<seq<Direction>>) {
    ghost predicate Shaped() {
      |score| == |direction| == range.baseEnd - range.baseStart &&
      (forall i :: 0 <= i < |score| ==> |score[i]| == range.targetEnd - range.targetStart) &&
      (forall i :: 0 <= i < |direction| ==> |direction[i]| == range.targetEnd - range.targetStart)
    }

    /** Score of the cell whose lower-right corner is (b, t); 0 outside the matrix. */
    ghost function H(b: int, t: int): real
      requires Shaped()
    {
      if range.Inner(b, t) then score[b - 1 - range.baseStart][t - 1 - range.targetStart] else 0.0
    }

    ghost function Dir(b: int, t: int): Direction
      requires Shaped()
    {
      if range.Inner(b, t) then direction[b - 1 - range.baseStart][t - 1 - range.targetStart] else NONE
    }
  }

  /**
   * A cell's score is the largest of 0 and what its three neighbours offer; its direction is
   * the first of diagonal, above and left that offers exactly that score.
   */
  ghost predicate CellRule(h: real, dir: Direction, diagonal: real, above: real, left: real, s: Score, gap: real) {
    h >= 0.0 && h >= above - gap && h >= left - gap && (s.Fin? ==> h >= diagonal + s.v) &&
    match dir
    case MATCH => s.Fin? && h == diagonal + s.v
    case GAP_TARGET => !(s.Fin? && h == diagonal + s.v) && h == above - gap
    case GAP_BASE => !(s.Fin? && h == diagonal + s.v) && h != above - gap && h == left - gap
    case NONE => h == 0.0 && !(s.Fin? && h == diagonal + s.v) && h != above - gap && h != left - gap
  }

  ghost predicate CellFilled<T>(p: Timelines<T>, g: Grid, b: int, t: int)
    requires g.Shaped() && p.Covers(g.range) && g.range.Inner(b, t)
  {
    CellRule(g.H(b, t), g.Dir(b, t), g.H(b - 1, t - 1), g.H(b - 1, t), g.H(b, t - 1),
             p.Similarity(b - 1, t - 1), p.gap)
  }

  ghost predicate Filled<T>(p: Timelines<T>, g: Grid) {
    g.Shaped() && p.Covers(g.range) &&
    forall b, t {:trigger CellFilled(p, g, b, t)} :: g.range.Inner(b, t) ==> CellFilled(p, g, b, t)
  }

  lemma CellRuleDetermines(
      h: real, dir: Direction, h': real, dir': Direction, diagonal: real, above: real, left: real, s: Score, gap: real)
    requires CellRule(h, dir, diagonal, above, left, s, gap) && CellRule(h', dir', diagonal, above, left, s, gap)
    ensures h == h' && dir == dir'
  {
  }

  /** The timelines determine the scores and directions of a range. */
  lemma {:induction false} FilledOnce<T>(p: Timelines<T>, g: Grid, g': Grid, b: int, t: int)
    requires Filled(p, g) && Filled(p, g') && g.range == g'.range
    ensures g.H(b, t) == g'.H(b, t) && g.Dir(b, t) == g'.Dir(b, t)
    decreases if g.range.Inner(b, t) then b + t - g.range.baseStart - g.range.targetStart else 0
  {
    hide CellRule;
    if g.range.Inner(b, t) {
      assert CellFilled(p, g, b, t) && CellFilled(p, g', b, t);
      FilledOnce(p, g, g', b - 1, t - 1);
      FilledOnce(p, g, g', b - 1, t);
      FilledOnce(p, g, g', b, t - 1);
      CellRuleDetermines(g.H(b, t), g.Dir(b, t), g'.H(b, t), g'.Dir(b, t), g.H(b - 1, t - 1), g.H(b - 1, t), g.H(b, t - 1),
                         p.Similarity(b - 1, t - 1), p.gap);
    }
  }

  /** No feasible walk in the range that ends at a corner scores more than the cell there. */
  lemma {:induction false} GridBoundsWalks<T>(
      p: Timelines<T>, g: Grid, es: seq<Entry>, b0: int, t0: int, b1: int, t1: int)
    requires Filled(p, g) && p.gap > 0.0 && WalkIn(g.range, es, b0, t0, b1, t1) && Feasible(p, es)
    ensures Total(p, es) <= g.H(b1, t1)
    decreases |es|
  {
    assert g.range.Inner(b1, t1) ==> CellFilled(p, g, b1, t1);
    if es != [] {
      var init := es[..|es| - 1];
      assert p.Allowed(es[|es| - 1]);
      match es[|es| - 1]
      case Merge(_, _, _) =>
        WalkAdvances(init, b0, t0, b1 - 1, t1 - 1);
        GridBoundsWalks(p, g, init, b0, t0, b1 - 1, t1 - 1);
      case Insert(_) =>
        WalkAdvances(init, b0, t0, b1, t1 - 1);
        GridBoundsWalks(p, g, init, b0, t0, b1, t1 - 1);
      case Keep(_) =>
        WalkAdvances(init, b0, t0, b1 - 1, t1);
        GridBoundsWalks(p, g, init, b0, t0, b1 - 1, t1);
    }
  }

  // ---------------------------------------------------------------- the traceback

  /** The entries read off by following directions back from corner (b, t). */
  ghost function Trace<T>(p: Timelines<T>, g: Grid, b: int, t: int): seq<Entry>
    requires g.Shaped() && p.Covers(g.range) && g.range.Corner(b, t)
    decreases b, t
  {
    match g.Dir(b, t)
    case NONE => []
    case MATCH => Trace(p, g, b - 1, t - 1) + [Merge(b - 1, t - 1, p.Similarity(b - 1, t - 1))]
    case GAP_TARGET => Trace(p, g, b - 1, t) + [Keep(b - 1)]
    case GAP_BASE => Trace(p, g, b, t - 1) + [Insert(t - 1)]
  }

  lemma {:induction false} TracedOnce<T>(p: Timelines<T>, g: Grid, g': Grid, b: int, t: int)
    requires Filled(p, g) && Filled(p, g') && g.range == g'.range && g.range.Corner(b, t)
    ensures Trace(p, g, b, t) == Trace(p, g', b, t)
    decreases b, t
  {
    hide CellFilled;
    FilledOnce(p, g, g', b, t);
    match g.Dir(b, t)
    case NONE =>
    case MATCH => TracedOnce(p, g, g', b - 1, t - 1);
    case GAP_TARGET => TracedOnce(p, g, g', b - 1, t);
    case GAP_BASE => TracedOnce(p, g, g', b, t - 1);
  }

  /** `es` is a feasible walk to (b, t) with exactly the total `h`, begun by a MERGE. */
  ghost predicate Attains<T>(p: Timelines<T>, r: Range, es: seq<Entry>, o: (int, int), b: int, t: int, h: real) {
    WalkIn(r, es, o.0, o.1, b, t) && Feasible(p, es) && Scored(p, es) && Total(p, es) == h &&
    (h > 0.0 ==> es != []) && (es != [] ==> es[0].Merge?)
  }

  /** Extending an attaining walk by one entry. */
  lemma AttainsSnoc<T>(
      p: Timelines<T>, r: Range, es: seq<Entry>, o: (int, int), b: int, t: int, h: real, e: Entry, b1: int, t1: int)
    requires Attains(p, r, es, o, b, t, h) && r.Corner(b1, t1) && p.Allowed(e)
    requires h + p.Gain(e) >= 0.0 && p.gap > 0.0
    requires match e
      case Merge(i, j, s) => i == b && j == t && b1 == b + 1 && t1 == t + 1 && s == p.Similarity(i, j)
      case Insert(j) => j == t && b1 == b && t1 == t + 1
      case Keep(i) => i == b && b1 == b + 1 && t1 == t
    ensures Attains(p, r, es + [e], o, b1, t1, h + p.Gain(e))
  {
    assert (es + [e])[..|es|] == es;
  }

  lemma TraceStarts<T>(p: Timelines<T>, g: Grid, b: int, t: int)
    requires Filled(p, g) && g.range.Corner(b, t) && g.Dir(b, t) == NONE
    ensures Attains(p, g.range, Trace(p, g, b, t), (b, t), b, t, g.H(b, t))
  {
    assert g.range.Inner(b, t) ==> CellFilled(p, g, b, t);
  }

  lemma MatchExtends<T>(p: Timelines<T>, g: Grid, b: int, t: int, o: (int, int))
    requires Filled(p, g) && g.range.Corner(b, t) && g.Dir(b, t) == MATCH && p.gap > 0.0
    requires Attains(p, g.range, Trace(p, g, b - 1, t - 1), o, b - 1, t - 1, g.H(b - 1, t - 1))
    ensures Attains(p, g.range, Trace(p, g, b, t), o, b, t, g.H(b, t))
  {
    hide Attains;
    assert CellFilled(p, g, b, t);
    AttainsSnoc(p, g.range, Trace(p, g, b - 1, t - 1), o, b - 1, t - 1, g.H(b - 1, t - 1),
                Merge(b - 1, t - 1, p.Similarity(b - 1, t - 1)), b, t);
  }

  lemma KeepExtends<T>(p: Timelines<T>, g: Grid, b: int, t: int, o: (int, int))
    requires Filled(p, g) && g.range.Corner(b, t) && g.Dir(b, t) == GAP_TARGET && p.gap > 0.0
    requires Attains(p, g.range, Trace(p, g, b - 1, t), o, b - 1, t, g.H(b - 1, t))
    ensures Attains(p, g.range, Trace(p, g, b, t), o, b, t, g.H(b, t))
  {
    hide Attains;
    assert CellFilled(p, g, b, t);
    AttainsSnoc(p, g.range, Trace(p, g, b - 1, t), o, b - 1, t, g.H(b - 1, t), Keep(b - 1), b, t);
  }

  lemma InsertExtends<T>(p: Timelines<T>, g: Grid, b: int, t: int, o: (int, int))
    requires Filled(p, g) && g.range.Corner(b, t) && g.Dir(b, t) == GAP_BASE && p.gap > 0.0
    requires Attains(p, g.range, Trace(p, g, b, t - 1), o, b, t - 1, g.H(b, t - 1))
    ensures Attains(p, g.range, Trace(p, g, b, t), o, b, t, g.H(b, t))
  {
    hide Attains;
    assert CellFilled(p, g, b, t);
    AttainsSnoc(p, g.range, Trace(p, g, b, t - 1), o, b, t - 1, g.H(b, t - 1), Insert(t - 1), b, t);
  }

  /** The traceback is a feasible walk whose total is exactly the matrix entry. */
  lemma {:induction false} TraceAttains<T>(p: Timelines<T>, g: Grid, b: int, t: int) returns (o: (int, int))
    requires Filled(p, g) && g.range.Corner(b, t) && p.gap > 0.0
    ensures Attains(p, g.range, Trace(p, g, b, t), o, b, t, g.H(b, t))
    decreases b, t
  {
    hide Attains, CellFilled, Trace;
    match g.Dir(b, t)
    case NONE =>
      o := (b, t);
      TraceStarts(p, g, b, t);
    case MATCH =>
      o := TraceAttains(p, g, b - 1, t - 1);
      MatchExtends(p, g, b, t, o);
    case GAP_TARGET =>
      o := TraceAttains(p, g, b - 1, t);
      KeepExtends(p, g, b, t, o);
    case GAP_BASE =>
      o := TraceAttains(p, g, b, t - 1);
      InsertExtends(p, g, b, t, o);
  }

  // ---------------------------------------------------------------- extraction

  /** (b, t) holds the matrix maximum, and holds it first in row-major order. */
  ghost predicate FirstMaximum(g: Grid, b: int, t: int)
    requires g.Shaped()
  {
    g.range.Inner(b, t) &&
    forall b', t' :: g.range.Inner(b', t') ==>
      g.H(b', t') <= g.H(b, t) &&
      (b' < b || (b' == b && t' < t) ==> g.H(b', t') < g.H(b, t))
  }

  lemma FirstMaximumOnce<T>(p: Timelines<T>, g: Grid, b: int, t: int, g': Grid, b': int, t': int)
    requires Filled(p, g) && Filled(p, g') && g.range == g'.range && FirstMaximum(g, b, t) && FirstMaximum(g', b', t')
    ensures b == b' && t == t'
  {
    FilledOnce(p, g, g', b, t);
    FilledOnce(p, g, g', b', t');
    hide Filled;
  }

  /** No walk inside the range reaches `bound`. */
  ghost predicate NoWalkReaches<T>(p: Timelines<T>, r: Range, bound: real) {
    forall es, b0, t0, b1, t1 :: WalkIn(r, es, b0, t0, b1, t1) ==> !Le(Fin(bound), Value(p, es))
  }

  /** No walk inside the range scores more than `es`. */
  ghost predicate BestWalk<T>(p: Timelines<T>, r: Range, es: seq<Entry>) {
    forall es', b0, t0, b1, t1 :: WalkIn(r, es', b0, t0, b1, t1) ==> Le(Value(p, es'), Value(p, es))
  }

  /** A matrix all of whose cells are below a positive bound leaves no walk reaching it. */
  lemma LowMatrix<T>(p: Timelines<T>, g: Grid, bound: real)
    requires Filled(p, g) && p.gap > 0.0 && bound > 0.0
    requires forall b, t :: g.range.Inner(b, t) ==> g.H(b, t) < bound
    ensures NoWalkReaches(p, g.range, bound)
  {
    forall es, b0, t0, b1, t1 | WalkIn(g.range, es, b0, t0, b1, t1)
      ensures !Le(Fin(bound), Value(p, es))
    {
      if Feasible(p, es) {
        GridBoundsWalks(p, g, es, b0, t0, b1, t1);
        assert g.H(b1, t1) < bound;
      }
    }
  }

  /** A walk framed by MERGE entries, leading from the first one's ticks to past the last one's. */
  ghost predicate Framed(es: seq<Entry>) {
    es != [] && es[0].Merge? && es[|es| - 1].Merge? &&
    Walk(es, es[0].baseIndex, es[0].targetIndex, es[|es| - 1].baseIndex + 1, es[|es| - 1].targetIndex + 1)
  }

  lemma {:induction false} WalkFirst(es: seq<Entry>, b0: int, t0: int, b1: int, t1: int)
    requires Walk(es, b0, t0, b1, t1) && es != [] && es[0].Merge?
    ensures es[0].baseIndex == b0 && es[0].targetIndex == t0
    decreases |es|
  {
    var init := es[..|es| - 1];
    if |es| > 1 {
      assert init[0] == es[0];
      match es[|es| - 1]
      case Merge(_, _, _) => WalkFirst(init, b0, t0, b1 - 1, t1 - 1);
      case Insert(_) => WalkFirst(init, b0, t0, b1, t1 - 1);
      case Keep(_) => WalkFirst(init, b0, t0, b1 - 1, t1);
    }
  }

  /** A gap at the maximum would have come from a higher-scoring neighbour. */
  lemma MaximumIsMatch<T>(p: Timelines<T>, g: Grid, b: int, t: int)
    requires Filled(p, g) && p.gap > 0.0 && FirstMaximum(g, b, t) && g.H(b, t) > 0.0
    ensures g.Dir(b, t) == MATCH
  {
    assert CellFilled(p, g, b, t);
    assert g.H(b - 1, t) <= g.H(b, t) && g.H(b, t - 1) <= g.H(b, t);
  }

  /**
   * What is read off at a positive matrix maximum: a walk in the range framed by MERGE
   * entries, made of compatible pairs, which no walk of the range beats.
   */
  lemma ExtractedIsBest<T>(p: Timelines<T>, g: Grid, b: int, t: int)
    requires Filled(p, g) && p.gap > 0.0 && FirstMaximum(g, b, t) && g.H(b, t) > 0.0
    ensures var es := Trace(p, g, b, t);
      Framed(es) && BestWalk(p, g.range, es) && Scored(p, es) && Value(p, es) == Fin(g.H(b, t)) &&
      g.range.Corner(es[0].baseIndex, es[0].targetIndex) &&
      es[|es| - 1].baseIndex == b - 1 && es[|es| - 1].targetIndex == t - 1
  {
    var es := Trace(p, g, b, t);
    var o := TraceAttains(p, g, b, t);
    WalkFirst(es, o.0, o.1, b, t);
    MaximumIsMatch(p, g, b, t);
    forall es', b0, t0, b1, t1 | WalkIn(g.range, es', b0, t0, b1, t1)
      ensures Le(Value(p, es'), Value(p, es))
    {
      if Feasible(p, es') {
        GridBoundsWalks(p, g, es', b0, t0, b1, t1);
        assert g.H(b1, t1) <= g.H(b, t);
      }
    }
  }

  // ---------------------------------------------------------------- gaps that a MERGE could close

  /** A base and a target tick are passed over one after the other. */
  predicate GapPair(e: Entry, f: Entry) {
    (e.Keep? && f.Insert?) || (e.Insert? && f.Keep?)
  }

  /** The base and the target tick of such a pair. */
  function PairOf(e: Entry, f: Entry): (int, int)
    requires GapPair(e, f)
  {
    if e.Keep? then (e.baseIndex, f.targetIndex) else (f.baseIndex, e.targetIndex)
  }

  /** The walk that merges the ticks of the k-th and the next entry instead. */
  function Closed(es: seq<Entry>, k: nat, score: Score): seq<Entry>
    requires k + 1 < |es| && GapPair(es[k], es[k + 1])
  {
    var (i, j) := PairOf(es[k], es[k + 1]);
    es[..k] + [Merge(i, j, score)] + es[k + 2..]
  }

  lemma {:induction false} ClosedWalk(es: seq<Entry>, k: nat, score: Score, b0: int, t0: int, b1: int, t1: int)
    requires Walk(es, b0, t0, b1, t1) && k + 1 < |es| && GapPair(es[k], es[k + 1])
    ensures Walk(Closed(es, k, score), b0, t0, b1, t1)
    decreases |es|
  {
    var n := |es| - 1;
    var init, closed := es[..n], Closed(es, k, score);
    if k + 1 == n {
      assert init[..k] == es[..k] && closed == es[..k] + [closed[k]];
    } else {
      assert init[k] == es[k] && init[k + 1] == es[k + 1];
      assert closed == Closed(init, k, score) + [es[n]];
      match es[n]
      case Merge(_, _, _) => ClosedWalk(init, k, score, b0, t0, b1 - 1, t1 - 1);
      case Insert(_) => ClosedWalk(init, k, score, b0, t0, b1, t1 - 1);
      case Keep(_) => ClosedWalk(init, k, score, b0, t0, b1 - 1, t1);
    }
  }

  lemma {:induction false} ClosedTotal<T>(p: Timelines<T>, es: seq<Entry>, k: nat, score: Score)
    requires k + 1 < |es| && GapPair(es[k], es[k + 1])
    ensures Total(p, Closed(es, k, score)) == Total(p, es) + 2.0 * p.gap + p.Gain(Closed(es, k, score)[k])
    decreases |es|
  {
    var n := |es| - 1;
    var init, closed := es[..n], Closed(es, k, score);
    if k + 1 == n {
      assert init[..k] == es[..k] && closed[..k] == es[..k] && closed == es[..k] + [closed[k]];
    } else {
      assert init[k] == es[k] && init[k + 1] == es[k + 1];
      assert closed == Closed(init, k, score) + [es[n]];
      assert closed[..|closed| - 1] == Closed(init, k, score) && closed[|closed| - 1] == es[n];
      ClosedTotal(p, init, k, score);
    }
  }

  /** The walk of a best one never passes over two ticks whose MERGE would gain more than the two gaps. */
  lemma GapsAreNeeded<T>(p: Timelines<T>, r: Range, es: seq<Entry>, k: nat, b0: int, t0: int, b1: int, t1: int)
    requires p.Covers(r) && WalkIn(r, es, b0, t0, b1, t1) && Feasible(p, es) && BestWalk(p, r, es)
    requires k + 1 < |es| && GapPair(es[k], es[k + 1])
    ensures var (i, j) := PairOf(es[k], es[k + 1]);
      0 <= i < |p.base| && 0 <= j < |p.target| && (p.Similarity(i, j).NegInf? || p.Similarity(i, j).v <= -2.0 * p.gap)
  {
    var (i, j) := PairOf(es[k], es[k + 1]);
    PlacesInRange(es, k, b0, t0, b1, t1);
    var s := p.Similarity(i, j);
    if s.Fin? {
      var closed := Closed(es, k, s);
      ClosedWalk(es, k, s, b0, t0, b1, t1);
      ClosedTotal(p, es, k, s);
      assert forall n :: 0 <= n < |closed| ==>
        closed[n] == if n < k then es[n] else if n == k then Merge(i, j, s) else es[n + 1];
      assert Feasible(p, closed);
      assert WalkIn(r, closed, b0, t0, b1, t1) && Le(Value(p, closed), Value(p, es));
    }
  }

  /** The ticks of an entry lie between the corners of the walk. */
  lemma {:induction false} EntryInRange(es: seq<Entry>, k: nat, b0: int, t0: int, b1: int, t1: int)
    requires Walk(es, b0, t0, b1, t1) && k < |es|
    ensures !es[k].Insert? ==> b0 <= es[k].baseIndex < b1
    ensures !es[k].Keep? ==> t0 <= es[k].targetIndex < t1
    decreases |es|
  {
    var init := es[..|es| - 1];
    var (b, t) := match es[|es| - 1]
      case Merge(_, _, _) => (b1 - 1, t1 - 1)
      case Insert(_) => (b1, t1 - 1)
      case Keep(_) => (b1 - 1, t1);
    WalkAdvances(init, b0, t0, b, t);
    if k < |init| {
      EntryInRange(init, k, b0, t0, b, t);
    }
  }

  lemma PlacesInRange(es: seq<Entry>, k: nat, b0: int, t0: int, b1: int, t1: int)
    requires Walk(es, b0, t0, b1, t1) && k + 1 < |es| && GapPair(es[k], es[k + 1])
    ensures var (i, j) := PairOf(es[k], es[k + 1]); b0 <= i < b1 && t0 <= j < t1
  {
    EntryInRange(es, k, b0, t0, b1, t1);
    EntryInRange(es, k + 1, b0, t0, b1, t1);
  }
}
