/** The hourly limit on stream captures. */
module CaptureLimiter {
  const CAPTURE_WINDOW_MS := 60 * 60 * 1000

  datatype Window = Window(start: int, count: nat)

  const INITIAL := Window(0, 0)

  /** The window in which an attempt falls. */
  function Rolled(w: Window, now: int): Window {
    if now - w.start >= CAPTURE_WINDOW_MS then Window(now, 0) else w
  }

  /** Window and outcome after a reservation attempt. */
  function Reserve(w: Window, cap: nat, now: int): (Window, bool) {
    var rolled := Rolled(w, now);
    if rolled.count >= cap then (rolled, false) else (Window(rolled.start, rolled.count + 1), true)
  }

  class CaptureLimiter {
    const cap: nat
    var captureWindowStart: int
    var captureWindowCount: nat

    function State(): Window
      reads this
    {
      Window(captureWindowStart, captureWindowCount)
    }

    constructor (cap: nat)
      ensures this.cap == cap && State() == INITIAL
    {
      this.cap, captureWindowStart, captureWindowCount := cap, 0, 0;
    }

    /** Reserves a capture slot in the current rate window, if one is free. */
    method TryReserveCapture(now: int) returns (granted: bool)
      modifies this
      ensures (State(), granted) == Reserve(old(State()), cap, now)
    {
      if now - captureWindowStart >= CAPTURE_WINDOW_MS {
        captureWindowStart := now;
        captureWindowCount := 0;
      }
      if captureWindowCount >= cap {
        return false;
      }
      captureWindowCount := captureWindowCount + 1;
      return true;
    }
  }

  // ---------------------------------------------------------------- runs

  /** The window after attempts at the given times. */
  function After(cap: nat, times: seq<int>): Window {
    if times == [] then INITIAL else Reserve(After(cap, times[..|times| - 1]), cap, times[|times| - 1]).0
  }

  /** Whether the k-th attempt of a run was granted. */
  predicate Granted(cap: nat, times: seq<int>, k: nat)
    requires k < |times|
  {
    Reserve(After(cap, times[..k]), cap, times[k]).1
  }

  /** Number of captures granted at times in [from, to). */
  function Grants(cap: nat, times: seq<int>, from: int, to: int): nat {
    if times == [] then 0
    else
      var n := |times| - 1;
      Grants(cap, times[..n], from, to) + if from <= times[n] < to && Granted(cap, times, n) then 1 else 0
  }

  ghost predicate Nondecreasing(times: seq<int>) {
    forall i, j :: 0 <= i < j < |times| ==> times[i] <= times[j]
  }

  /**
   * Either every grant in [from, from + window) is of the current window, or the current window
   * started at or after `from` and at most one earlier window added its `cap`.
   */
  lemma {:induction false} GrantsByWindow(cap: nat, times: seq<int>, from: int)
    requires Nondecreasing(times)
    ensures var w, g := After(cap, times), Grants(cap, times, from, from + CAPTURE_WINDOW_MS);
      w.count <= cap && (g > 0 ==> times[|times| - 1] >= from) &&
      (g <= w.count ||
       (from <= w.start <= times[|times| - 1] &&
        g <= if w.start < from + CAPTURE_WINDOW_MS then cap + w.count else 2 * cap))
    decreases |times|
  {
    if times != [] {
      var n := |times| - 1;
      GrantsByWindow(cap, times[..n], from);
      assert n > 0 ==> times[n - 1] <= times[n];
    }
  }

  /** No half-open interval one window long sees more than twice the cap. */
  lemma AtMostTwiceTheCap(cap: nat, times: seq<int>, from: int)
    requires Nondecreasing(times)
    ensures Grants(cap, times, from, from + CAPTURE_WINDOW_MS) <= 2 * cap
  {
    GrantsByWindow(cap, times, from);
  }

  function Repeat(t: int, n: nat): seq<int> {
    seq(n, _ => t)
  }

  /** The bound is reached: `cap` captures just before a window ends and `cap` just after. */
  lemma TwiceTheCapIsReached(cap: nat)
    ensures var times := Repeat(CAPTURE_WINDOW_MS - 1, cap) + Repeat(CAPTURE_WINDOW_MS, cap);
      Nondecreasing(times) &&
      Grants(cap, times, CAPTURE_WINDOW_MS - 1, 2 * CAPTURE_WINDOW_MS - 1) == 2 * cap
  {
    FullWindows(cap, cap, cap);
  }

  lemma {:induction false} FullWindows(cap: nat, m: nat, n: nat)
    requires m <= cap && n <= cap && (n > 0 ==> m == cap)
    ensures var times := Repeat(CAPTURE_WINDOW_MS - 1, m) + Repeat(CAPTURE_WINDOW_MS, n);
      After(cap, times) == (if n == 0 then Window(0, m) else Window(CAPTURE_WINDOW_MS, n)) &&
      Grants(cap, times, CAPTURE_WINDOW_MS - 1, 2 * CAPTURE_WINDOW_MS - 1) == m + n
    decreases m + n
  {
    hide Repeat;
    OneLess(m, n);
    if n > 0 {
      FullWindows(cap, m, n - 1);
    } else if m > 0 {
      FullWindows(cap, m - 1, 0);
    }
  }

  lemma OneLess(m: nat, n: nat)
    ensures var a, b := CAPTURE_WINDOW_MS - 1, CAPTURE_WINDOW_MS; var times := Repeat(a, m) + Repeat(b, n);
      |times| == m + n && (m == n == 0 ==> times == []) &&
      (n > 0 ==> times[|times| - 1] == b && times[..|times| - 1] == Repeat(a, m) + Repeat(b, n - 1)) &&
      (n == 0 && m > 0 ==> times[|times| - 1] == a && times[..|times| - 1] == Repeat(a, m - 1) + Repeat(b, 0))
  {
    var a, b := CAPTURE_WINDOW_MS - 1, CAPTURE_WINDOW_MS;
    var times := Repeat(a, m) + Repeat(b, n);
    if n > 0 {
      assert times[..|times| - 1] == Repeat(a, m) + Repeat(b, n - 1);
    } else if m > 0 {
      assert times[..|times| - 1] == Repeat(a, m - 1) + Repeat(b, 0);
    }
  }

  lemma {:induction false} NoneGranted(cap: nat, times: seq<int>, from: int, to: int)
    requires forall i :: 0 <= i < |times| ==> times[i] < from
    ensures Grants(cap, times, from, to) == 0
    decreases |times|
  {
    if times != [] {
      NoneGranted(cap, times[..|times| - 1], from, to);
    }
  }

  lemma {:induction false} WiderSeesMore(cap: nat, times: seq<int>, from': int, from: int, to: int)
    requires from' <= from
    ensures Grants(cap, times, from, to) <= Grants(cap, times, from', to)
    decreases |times|
  {
    if times != [] {
      WiderSeesMore(cap, times[..|times| - 1], from', from, to);
    }
  }

  /** The window counts the grants since it started, and the clock has not left it yet. */
  lemma {:induction false} WindowCountsGrants(cap: nat, times: seq<int>, to: int)
    requires Nondecreasing(times) && forall i :: 0 <= i < |times| ==> 0 <= times[i] < to
    ensures var w := After(cap, times);
      w.count == Grants(cap, times, w.start, to) && 0 <= w.start &&
      forall i :: 0 <= i < |times| ==> times[i] < w.start + CAPTURE_WINDOW_MS && w.start <= times[|times| - 1]
    decreases |times|
  {
    if times != [] {
      var init, now := times[..|times| - 1], times[|times| - 1];
      WindowCountsGrants(cap, init, to);
      if now - After(cap, init).start >= CAPTURE_WINDOW_MS {
        NoneGranted(cap, init, now, to);
      } else {
        assert init == [] ==> After(cap, init).start == 0;
      }
    }
  }

  lemma RefusedBy(cap: nat, times: seq<int>, now: int)
    ensures var w := After(cap, times);
      !Granted(cap, times + [now], |times|) <==> (if now - w.start >= CAPTURE_WINDOW_MS then cap == 0 else w.count >= cap)
  {
    assert (times + [now])[..|times|] == times;
  }

  /**
   * An attempt is refused exactly if the current window has not ended and saw `cap` grants (or nothing
   * is ever granted); in any case `cap` captures were granted within the last hour.
   */
  lemma RefusedAfterCapGrants(cap: nat, times: seq<int>, now: int)
    requires Nondecreasing(times + [now]) && forall i :: 0 <= i < |times| ==> times[i] >= 0
    ensures var start := After(cap, times).start;
      !Granted(cap, times + [now], |times|) <==>
      cap == 0 || (now < start + CAPTURE_WINDOW_MS && Grants(cap, times, start, now + 1) == cap)
    ensures !Granted(cap, times + [now], |times|) ==> Grants(cap, times, now - CAPTURE_WINDOW_MS + 1, now + 1) >= cap
  {
    hide Grants, Granted, After, Reserve;
    var w := After(cap, times);
    RefusedBy(cap, times, now);
    forall i | 0 <= i < |times|
      ensures 0 <= times[i] < now + 1
    {
      assert (times + [now])[i] <= (times + [now])[|times|];
    }
    forall i, j | 0 <= i < j < |times|
      ensures times[i] <= times[j]
    {
      assert (times + [now])[i] <= (times + [now])[j];
    }
    WindowCountsGrants(cap, times, now + 1);
    GrantsByWindow(cap, times, 0);
    if now < w.start + CAPTURE_WINDOW_MS {
      WiderSeesMore(cap, times, now - CAPTURE_WINDOW_MS + 1, w.start, now + 1);
    }
  }

  // ---------------------------------------------------------------- when an hour stays within the cap

  /** The grants within one hour from a time on. */
  function Hour(cap: nat, times: seq<int>, from: int): nat {
    Grants(cap, times, from, from + 3_600_000)
  }

  /**
   * Another grant would leave the hour that ends with it within the cap: what the current window has
   * granted, and what the hour saw before that window, come to less than the cap.
   */
  predicate FitsHour(cap: nat, before: seq<int>, now: int) {
    var w := Rolled(After(cap, before), now);
    Grants(cap, before, now - CAPTURE_WINDOW_MS + 1, w.start) + w.count < cap
  }

  lemma {:induction false} GrantsSplit(cap: nat, times: seq<int>, from: int, mid: int, to: int)
    requires from <= mid <= to
    ensures Grants(cap, times, from, to) == Grants(cap, times, from, mid) + Grants(cap, times, mid, to)
    decreases |times|
  {
    hide Granted;
    if times != [] {
      GrantsSplit(cap, times[..|times| - 1], from, mid, to);
    }
  }

  /** Times from the last attempt on see nothing more. */
  lemma {:induction false} LaterSeesNoMore(cap: nat, times: seq<int>, from: int, to: int, to': int)
    requires forall i :: 0 <= i < |times| ==> times[i] < to && times[i] < to'
    ensures Grants(cap, times, from, to) == Grants(cap, times, from, to')
    decreases |times|
  {
    hide Granted;
    if times != [] {
      LaterSeesNoMore(cap, times[..|times| - 1], from, to, to');
    }
  }

  lemma GrantedBefore(cap: nat, times: seq<int>, n: nat, k: nat)
    requires k < n <= |times|
    ensures Granted(cap, times[..n], k) <==> Granted(cap, times, k)
  {
    assert times[..n][..k] == times[..k];
  }

  lemma {:induction false} PrefixSeesLess(cap: nat, times: seq<int>, n: nat, from: int, to: int)
    requires n <= |times|
    ensures Grants(cap, times[..n], from, to) <= Grants(cap, times, from, to)
    decreases |times|
  {
    hide Granted;
    if n == |times| {
      assert times[..n] == times;
    } else {
      PrefixSeesLess(cap, times[..|times| - 1], n, from, to);
      assert times[..|times| - 1][..n] == times[..n];
    }
  }

  /** The guard counts the grants of the hour that ends at the attempt. */
  lemma FitsHourIff(cap: nat, before: seq<int>, now: int)
    requires Nondecreasing(before) && (forall i :: 0 <= i < |before| ==> 0 <= before[i] <= now) && 0 <= now
    ensures FitsHour(cap, before, now) <==> Grants(cap, before, now - CAPTURE_WINDOW_MS + 1, now + 1) < cap
  {
    hide Grants, Granted;
    var w := After(cap, before);
    WindowCountsGrants(cap, before, now + 1);
    assert before == [] ==> w.start == 0;
    if now - w.start >= CAPTURE_WINDOW_MS {
      NoneGranted(cap, before, now, now + 1);
      GrantsSplit(cap, before, now - CAPTURE_WINDOW_MS + 1, now, now + 1);
    } else {
      GrantsSplit(cap, before, now - CAPTURE_WINDOW_MS + 1, w.start, now + 1);
    }
  }

  ghost predicate AllFit(cap: nat, times: seq<int>) {
    forall k :: 0 <= k < |times| && Granted(cap, times, k) ==> FitsHour(cap, times[..k], times[k])
  }

  ghost predicate HoursWithinCap(cap: nat, times: seq<int>) {
    forall from :: Hour(cap, times, from) <= cap
  }

  lemma {:induction false} FittingKeepsCap(cap: nat, times: seq<int>)
    requires Nondecreasing(times) && (forall i :: 0 <= i < |times| ==> 0 <= times[i]) && AllFit(cap, times)
    ensures HoursWithinCap(cap, times)
    decreases |times|
  {
    hide Granted, FitsHour;
    if times != [] {
      var n := |times| - 1;
      var init, now := times[..n], times[n];
      forall k | 0 <= k < n && Granted(cap, init, k)
        ensures FitsHour(cap, init[..k], init[k])
      {
        GrantedBefore(cap, times, n, k);
        assert init[..k] == times[..k];
      }
      FittingKeepsCap(cap, init);
      forall from
        ensures Hour(cap, times, from) <= cap
      {
        assert Hour(cap, init, from) <= cap;
        if from <= now < from + CAPTURE_WINDOW_MS && Granted(cap, times, n) {
          FitsHourIff(cap, init, now);
          WiderSeesMore(cap, init, now - CAPTURE_WINDOW_MS + 1, from, from + CAPTURE_WINDOW_MS);
          LaterSeesNoMore(cap, init, now - CAPTURE_WINDOW_MS + 1, from + CAPTURE_WINDOW_MS, now + 1);
        }
      }
    }
  }

  lemma CapForcesFit(cap: nat, times: seq<int>, k: nat)
    requires Nondecreasing(times) && (forall i :: 0 <= i < |times| ==> 0 <= times[i]) && HoursWithinCap(cap, times)
    requires k < |times| && Granted(cap, times, k)
    ensures FitsHour(cap, times[..k], times[k])
  {
    hide FitsHour;
    var upTo, before, now := times[..k + 1], times[..k], times[k];
    var from := now - CAPTURE_WINDOW_MS + 1;
    assert upTo[..k] == before;
    GrantedBefore(cap, times, k + 1, k);
    hide Granted;
    assert Grants(cap, upTo, from, now + 1) == Grants(cap, before, from, now + 1) + 1;
    PrefixSeesLess(cap, times, k + 1, from, now + 1);
    assert Hour(cap, times, from) <= cap;
    FitsHourIff(cap, before, now);
  }

  /** Every hour sees at most `cap` captures if and only if every capture granted fitted into the hour that ends with it. */
  lemma HourWithinCapIff(cap: nat, times: seq<int>)
    requires Nondecreasing(times) && forall i :: 0 <= i < |times| ==> 0 <= times[i]
    ensures (forall from :: Hour(cap, times, from) <= cap) <==>
      (forall k :: 0 <= k < |times| && Granted(cap, times, k) ==> FitsHour(cap, times[..k], times[k]))
  {
    hide Granted, FitsHour, Hour;
    if AllFit(cap, times) {
      FittingKeepsCap(cap, times);
    }
    if HoursWithinCap(cap, times) {
      forall k | 0 <= k < |times| && Granted(cap, times, k)
        ensures FitsHour(cap, times[..k], times[k])
      {
        CapForcesFit(cap, times, k);
      }
    }
  }
}
