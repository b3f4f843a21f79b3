/**
 * The countdown arithmetic of `updateTimebar`. The source computes
 * `alpha = (now - start) / (end - start)` on millisecond timestamps and
 * compares it against 0, 1, 0.5 and 0.75; here every comparison is done
 * on the integers by cross-multiplying, and lemmas tie each one to the
 * ratio on the reals. `end == start` makes `alpha` NaN or infinite in the
 * source, which fails every comparison: no render, as `InWindow` says.
 */
module Timebar {
  import opened QuizTypes

  /** `0 < elapsed / total < 1`, the guard of the render branch. */
  predicate InWindow(elapsed: int, total: int)
  {
    if total > 0 then 0 < elapsed < total
    else if total < 0 then total < elapsed < 0
    else false
  }

  /** `elapsed / total > p / q` for a non-zero `total` and a positive `q`. */
  predicate RatioAbove(elapsed: int, total: int, p: int, q: int)
    requires total != 0 && q > 0
  {
    if total > 0 then q * elapsed > p * total else q * elapsed < p * total
  }

  lemma RealQuotientSign(x: real, y: real)
    requires y != 0.0
    ensures x / y > 0.0 <==> (x > 0.0 && y > 0.0) || (x < 0.0 && y < 0.0)
  {
    var a := x / y;
    assert a * y == x;
    if y > 0.0 {
      if a > 0.0 { assert a * y > 0.0; }
      if a <= 0.0 { assert a * y <= 0.0; }
    } else {
      if a > 0.0 { assert a * y < 0.0; }
      if a <= 0.0 { assert a * y >= 0.0; }
    }
  }

  /** Compares two quotients with a positive common reference: `x / y > u / v`. */
  lemma RealQuotientAbove(x: real, y: real, u: real, v: real)
    requires y != 0.0 && v > 0.0
    ensures x / y > u / v <==> (if y > 0.0 then v * x > u * y else v * x < u * y)
  {
    var a, b := x / y, u / v;
    assert a * y == x && b * v == u;
    assert v * x - u * y == (a - b) * (v * y);
    RealQuotientSign(v * x - u * y, v * y);
    assert a - b == (v * x - u * y) / (v * y);
  }

  /** The integer guard agrees with the ratio the source computes. */
  lemma InWindowIsRatioWindow(elapsed: int, total: int)
    ensures InWindow(elapsed, total) <==>
      total != 0 && 0.0 < (elapsed as real) / (total as real) < 1.0
  {
    if total != 0 {
      var e, t := elapsed as real, total as real;
      RealQuotientSign(e, t);
      RealQuotientAbove(e, t, 1.0, 1.0);
    }
  }

  /** The integer threshold test agrees with `alpha > p / q` on the reals. */
  lemma RatioAboveIsRatio(elapsed: int, total: int, p: int, q: int)
    requires total != 0 && q > 0
    ensures RatioAbove(elapsed, total, p, q) <==>
      (elapsed as real) / (total as real) > (p as real) / (q as real)
  {
    RealQuotientAbove(elapsed as real, total as real, p as real, q as real);
  }

  /** `Math.ceil(a / b)` for a positive divisor. */
  function CeilDiv(a: int, b: int): (r: int)
    requires b > 0
    ensures (r - 1) * b < a <= r * b
  {
    var q := (-a) / b;
    assert -a == q * b + (-a) % b;
    -q
  }

  /** The whole seconds `Math.ceil((end - now) / 1000)` shown on the timer. */
  function RemainingSeconds(end: int, now: int): int
  {
    CeilDiv(end - now, 1000)
  }

  /**
   * Inside a forward window the countdown shows at least one second and
   * never more than the question's whole length in seconds.
   */
  lemma RemainingSecondsBounds(start: int, end: int, now: int)
    requires start < end && InWindow(now - start, end - start)
    ensures 1 <= RemainingSeconds(end, now) <= CeilDiv(end - start, 1000)
  {
  }

  /** The three urgency levels that the branches on 0.75 and 0.5 select. */
  datatype Tier = Calm | Warning | Critical
  {
    function Rank(): nat
    {
      match this
      case Calm => 0
      case Warning => 1
      case Critical => 2
    }
  }

  /** `alpha > 0.75` first, then `alpha > 0.5`, else the calm branch. */
  function TierOf(elapsed: int, total: int): Tier
    requires total != 0
  {
    if RatioAbove(elapsed, total, 3, 4) then Critical
    else if RatioAbove(elapsed, total, 1, 2) then Warning
    else Calm
  }

  /** On a forward window the urgency never decreases as time passes. */
  lemma TierMonotone(e1: int, e2: int, total: int)
    requires total > 0 && e1 <= e2
    ensures TierOf(e1, total).Rank() <= TierOf(e2, total).Rank()
  {
  }

  /**
   * The timer element's classes after one render: the critical branch
   * swaps `is-critical-2` for `is-critical-1`, the warning branch only
   * adds `is-critical-2`, the calm branch removes both.
   */
  function ClassesAfter(classes: set<Mark>, tier: Tier): set<Mark>
  {
    match tier
    case Critical => classes - {Critical2} + {Critical1}
    case Warning => classes + {Critical2}
    case Calm => classes - {Critical1, Critical2}
  }

  /** The effect of one `updateTimebar` call on the timer's classes. */
  function Tick(classes: set<Mark>, start: int, end: int, now: int): (r: set<Mark>)
    ensures r - {Critical1, Critical2} == classes - {Critical1, Critical2}
    ensures !InWindow(now - start, end - start) ==> r == classes
  {
    if InWindow(now - start, end - start) then
      ClassesAfter(classes, TierOf(now - start, end - start))
    else
      classes
  }

  /** The timer shows exactly the class of `tier`, and no other urgency class. */
  predicate Shows(classes: set<Mark>, tier: Tier)
  {
    (Critical1 in classes <==> tier == Critical) &&
    (Critical2 in classes <==> tier == Warning)
  }

  /** Successive renders, one per `now` in `nows`. */
  function Ticks(classes: set<Mark>, start: int, end: int, nows: seq<int>): set<Mark>
    decreases |nows|
  {
    if nows == [] then classes
    else Ticks(Tick(classes, start, end, nows[0]), start, end, nows[1..])
  }

  lemma StepShows(classes: set<Mark>, before: Tier, after: Tier)
    requires Shows(classes, before) && before.Rank() <= after.Rank()
    ensures Shows(ClassesAfter(classes, after), after)
  {
  }

  /**
   * On a clock that never runs backwards, renders inside a forward window
   * leave the timer showing exactly the urgency class of the last render,
   * provided it showed no more urgency than the first render's tier to
   * begin with. Without the monotone clock this fails: the warning branch
   * keeps an earlier `is-critical-1`.
   */
  lemma {:induction false} MonotoneTicksShowTier(
    classes: set<Mark>, before: Tier, start: int, end: int, nows: seq<int>)
    requires start < end && nows != []
    requires forall i :: 0 <= i < |nows| ==> InWindow(nows[i] - start, end - start)
    requires forall i, j :: 0 <= i < j < |nows| ==> nows[i] <= nows[j]
    requires Shows(classes, before)
    requires before.Rank() <= TierOf(nows[0] - start, end - start).Rank()
    ensures Shows(Ticks(classes, start, end, nows), TierOf(nows[|nows| - 1] - start, end - start))
    decreases |nows|
  {
    var total := end - start;
    var t0 := TierOf(nows[0] - start, total);
    StepShows(classes, before, t0);
    var next := Tick(classes, start, end, nows[0]);
    if |nows| > 1 {
      TierMonotone(nows[0] - start, nows[1] - start, total);
      MonotoneTicksShowTier(next, t0, start, end, nows[1..]);
    }
  }

  /**
   * The quirk behind that precondition: a warning render after a critical
   * one leaves both urgency classes on the timer.
   */
  lemma WarningKeepsCritical1(classes: set<Mark>)
    requires Shows(classes, Critical)
    ensures {Critical1, Critical2} <= ClassesAfter(classes, Warning)
  {
  }
}
