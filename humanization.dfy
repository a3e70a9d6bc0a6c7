// HumanizationEngine.cpp: delays with fatigue, Bezier waypoints, jitter, the
// learned-pattern corpus and the naturalness score shared with VideoLearner.

module Humanization {
  import opened CNumerics
  import opened Geometry

  /** HumanizationEngine::MovementPattern. */
  datatype MovementPattern = MovementPattern(mouseMovements: seq<Point>, timings: seq<int>, naturalnessScore: real)

  /** Patterns scoring at most this are not learned. */
  const LEARN_THRESHOLD: real := 0.7

  /** The corpus keeps at most this many patterns. */
  const MAX_LEARNED: nat := 100

  /** HumanTiming defaults: base reaction 150 ms, variance 50 ms. The fatigue
      multiplier is kept in hundredths: 100 is 1.0, 150 is 1.5. */
  const DEFAULT_BASE_REACTION: int := 150
  const DEFAULT_REACTION_VARIANCE: int := 50
  const FATIGUE_MIN: int := 100
  const FATIGUE_MAX: int := 150

  // ----- naturalness (CalculateNaturalness) -----

  /** The second difference ("acceleration") of three consecutive positions. */
  function Accel(a: Point, b: Point, c: Point): Point
  {
    Minus(Minus(c, b), Minus(b, a))
  }

  /** S: the sum of the lengths of all second differences of the trail. */
  function Smoothness(m: seq<Point>, sqrt: real -> real): (r: real)
    requires IsSqrt(sqrt)
    ensures r >= 0.0
    ensures |m| < 3 ==> r == 0.0
  {
    if |m| < 3 then 0.0
    else Smoothness(m[..|m| - 1], sqrt) + Norm(Accel(m[|m| - 3], m[|m| - 2], m[|m| - 1]), sqrt)
  }

  function IntSum(t: seq<int>): int
  {
    if t == [] then 0 else IntSum(t[..|t| - 1]) + t[|t| - 1]
  }

  /** The sum of squared deviations of the timings from `mean`. */
  function SquaredDeviations(t: seq<int>, mean: real): (r: real)
    ensures r >= 0.0
  {
    if t == [] then 0.0
    else
      var d := t[|t| - 1] as real - mean;
      SquaredDeviations(t[..|t| - 1], mean) + d * d
  }

  /** The population standard deviation of the timings; 0 for at most one
      timing. */
  function TimingStdDev(t: seq<int>, sqrt: real -> real): (r: real)
    requires IsSqrt(sqrt)
    ensures r >= 0.0
  {
    if |t| > 1 then
      var mean := IntSum(t) as real / |t| as real;
      sqrt(SquaredDeviations(t, mean) / |t| as real)
    else 0.0
  }

  function RealMin(a: real, b: real): real { if a <= b then a else b }

  /** CalculateNaturalness: 0.7 / (1 + S/100) + 0.3 * min(1, sigma/50), and 0
      for fewer than two movements. Every trail of two or more movements
      scores in (0, 1]. */
  function Naturalness(p: MovementPattern, sqrt: real -> real): (r: real)
    requires IsSqrt(sqrt)
    ensures |p.mouseMovements| < 2 ==> r == 0.0
    ensures |p.mouseMovements| >= 2 ==> 0.0 < r <= 1.0
  {
    if |p.mouseMovements| < 2 then 0.0
    else
      var s := Smoothness(p.mouseMovements, sqrt);
      var sigma := TimingStdDev(p.timings, sqrt);
      InverseBounds(1.0 + s / 100.0);
      (1.0 / (1.0 + s / 100.0)) * 0.7 + RealMin(1.0, sigma / 50.0) * 0.3
  }

  /** CalculateNaturalness as the source computes it: the smoothness pass
      and the timing passes, then the combination. */
  method CalculateNaturalness(pattern: MovementPattern, sqrt: real -> real) returns (score: real)
    requires IsSqrt(sqrt)
    ensures score == Naturalness(pattern, sqrt)
  {
    if |pattern.mouseMovements| < 2 {
      return 0.0;
    }
    var smoothness := SumAccelerations(pattern.mouseMovements, sqrt);
    var timingVariance := TimingDeviation(pattern.timings, sqrt);
    score := (1.0 / (1.0 + smoothness / 100.0)) * 0.7 + RealMin(1.0, timingVariance / 50.0) * 0.3;
  }

  /** The smoothness loop: the second-difference lengths summed front to back. */
  method SumAccelerations(m: seq<Point>, sqrt: real -> real) returns (smoothness: real)
    requires IsSqrt(sqrt)
    ensures smoothness == Smoothness(m, sqrt)
  {
    smoothness := 0.0;
    if |m| < 3 {
      return;
    }
    var i := 2;
    while i < |m|
      invariant 2 <= i <= |m|
      invariant smoothness == Smoothness(m[..i], sqrt)
    {
      var v1 := Minus(m[i - 1], m[i - 2]);
      var v2 := Minus(m[i], m[i - 1]);
      smoothness := smoothness + Norm(Minus(v2, v1), sqrt);
      ghost var next := m[..i + 1];
      assert next[..i] == m[..i];
      assert next[i - 2] == m[i - 2] && next[i - 1] == m[i - 1] && next[i] == m[i];
      i := i + 1;
    }
    assert m[..i] == m;
  }

  /** The timing loops: the mean of the timings, then the root of the mean
      squared deviation; 0 for at most one timing. */
  method TimingDeviation(t: seq<int>, sqrt: real -> real) returns (sigma: real)
    requires IsSqrt(sqrt)
    ensures sigma == TimingStdDev(t, sqrt)
  {
    sigma := 0.0;
    if |t| <= 1 {
      return;
    }
    var total := SumTimings(t);
    var meanTiming := total as real / |t| as real;
    var squares := SumSquaredDeviations(t, meanTiming);
    sigma := sqrt(squares / |t| as real);
  }

  /** The first timing loop: the timings summed front to back. */
  method SumTimings(t: seq<int>) returns (total: int)
    ensures total == IntSum(t)
  {
    total := 0;
    var j := 0;
    while j < |t|
      invariant 0 <= j <= |t|
      invariant total == IntSum(t[..j])
    {
      total := total + t[j];
      assert t[..j + 1][..j] == t[..j];
      j := j + 1;
    }
    assert t[..j] == t;
  }

  /** The second timing loop: the squared deviations from `mean` summed
      front to back. */
  method SumSquaredDeviations(t: seq<int>, mean: real) returns (squares: real)
    ensures squares == SquaredDeviations(t, mean)
  {
    squares := 0.0;
    var k := 0;
    while k < |t|
      invariant 0 <= k <= |t|
      invariant squares == SquaredDeviations(t[..k], mean)
    {
      var d := t[k] as real - mean;
      squares := squares + d * d;
      assert t[..k + 1][..k] == t[..k];
      k := k + 1;
    }
    assert t[..k] == t;
  }

  lemma InverseBounds(x: real)
    requires x >= 1.0
    ensures 0.0 < 1.0 / x <= 1.0
  {
  }

  lemma InverseAntitone(x: real, y: real)
    requires 1.0 <= x <= y
    ensures 1.0 / y <= 1.0 / x
  {
    assert 1.0 / y == (1.0 / x) * (x / y);
    assert x / y <= 1.0;
  }

  /** A smoother trail with the same timings never scores lower. */
  lemma {:induction false} SmootherScoresHigher(p: MovementPattern, q: MovementPattern, sqrt: real -> real)
    requires IsSqrt(sqrt)
    requires |p.mouseMovements| >= 2 && |q.mouseMovements| >= 2 && p.timings == q.timings
    requires Smoothness(p.mouseMovements, sqrt) <= Smoothness(q.mouseMovements, sqrt)
    ensures Naturalness(p, sqrt) >= Naturalness(q, sqrt)
  {
    var sp := Smoothness(p.mouseMovements, sqrt);
    var sq := Smoothness(q.mouseMovements, sqrt);
    InverseAntitone(1.0 + sp / 100.0, 1.0 + sq / 100.0);
  }

  /** Positions start + i * v: every second difference is zero. */
  predicate ConstantVelocity(m: seq<Point>, start: Point, v: Point)
  {
    forall i :: 0 <= i < |m| ==> m[i] == Point(start.x + i as real * v.x, start.y + i as real * v.y)
  }

  lemma AccelOfConstantVelocity(m: seq<Point>, start: Point, v: Point, i: nat)
    requires ConstantVelocity(m, start, v) && 2 <= i < |m|
    ensures Accel(m[i - 2], m[i - 1], m[i]) == Point(0.0, 0.0)
  {
    var k := i as real;
    assert m[i] == Point(start.x + k * v.x, start.y + k * v.y);
    assert m[i - 1] == Point(start.x + (k - 1.0) * v.x, start.y + (k - 1.0) * v.y);
    assert m[i - 2] == Point(start.x + (k - 2.0) * v.x, start.y + (k - 2.0) * v.y);
  }

  lemma {:induction false} ConstantVelocityIsSmooth(m: seq<Point>, start: Point, v: Point, sqrt: real -> real)
    requires IsSqrt(sqrt) && ConstantVelocity(m, start, v)
    ensures Smoothness(m, sqrt) == 0.0
  {
    if |m| >= 3 {
      var n := |m|;
      assert ConstantVelocity(m[..n - 1], start, v);
      ConstantVelocityIsSmooth(m[..n - 1], start, v, sqrt);
      AccelOfConstantVelocity(m, start, v, n - 1);
      NormOfOrigin(sqrt);
    }
  }

  lemma {:induction false} ConstantTimingsSum(t: seq<int>, c: int)
    requires forall i :: 0 <= i < |t| ==> t[i] == c
    ensures IntSum(t) == |t| * c
    ensures SquaredDeviations(t, c as real) == 0.0
  {
    if t != [] {
      ConstantTimingsSum(t[..|t| - 1], c);
    }
  }

  /** A steady trail at constant velocity with perfectly regular timings
      scores exactly 0.7, which the corpus threshold (strictly above 0.7)
      rejects. */
  lemma SteadyTrailScoresThreshold(p: MovementPattern, start: Point, v: Point, c: int, sqrt: real -> real)
    requires IsSqrt(sqrt)
    requires |p.mouseMovements| >= 2 && ConstantVelocity(p.mouseMovements, start, v)
    requires forall i :: 0 <= i < |p.timings| ==> p.timings[i] == c
    ensures Naturalness(p, sqrt) == LEARN_THRESHOLD
  {
    ConstantVelocityIsSmooth(p.mouseMovements, start, v, sqrt);
    ConstantTimingsSum(p.timings, c);
    if |p.timings| > 1 {
      var n := |p.timings|;
      assert IntSum(p.timings) as real / n as real == c as real;
      SquareZero(sqrt(0.0));
    }
  }

  // ----- the learned-pattern corpus (LearnFromPattern) -----

  /** Ordered by descending naturalness score. */
  predicate SortedByScore(s: seq<MovementPattern>)
  {
    forall i, j :: 0 <= i < j < |s| ==> s[i].naturalnessScore >= s[j].naturalnessScore
  }

  /** `p` placed before the first pattern it scores at least as high as. */
  function Insert(p: MovementPattern, s: seq<MovementPattern>): (r: seq<MovementPattern>)
    ensures multiset(r) == multiset(s) + multiset{p} && |r| == |s| + 1
    ensures r[0] == p || (s != [] && r[0] == s[0])
  {
    if s == [] || p.naturalnessScore >= s[0].naturalnessScore then
      [p] + s
    else
      assert s == [s[0]] + s[1..];
      [s[0]] + Insert(p, s[1..])
  }

  /** Inserting into a descending sequence keeps it descending. */
  lemma {:induction false} InsertSorted(p: MovementPattern, s: seq<MovementPattern>)
    requires SortedByScore(s)
    ensures SortedByScore(Insert(p, s))
  {
    if s != [] && p.naturalnessScore < s[0].naturalnessScore {
      var t := Insert(p, s[1..]);
      InsertSorted(p, s[1..]);
      assert t[0].naturalnessScore <= s[0].naturalnessScore;
      var r := [s[0]] + t;
      forall i, j | 0 <= i < j < |r| ensures r[i].naturalnessScore >= r[j].naturalnessScore {
        if i > 0 {
          assert r[i] == t[i - 1] && r[j] == t[j - 1];
        } else if j > 1 {
          assert r[j] == t[j - 1];
          assert t[0].naturalnessScore >= t[j - 1].naturalnessScore;
        }
      }
    }
  }

  /** One ordering std::sort may produce with the comparator "higher score
      first": a permutation sorted by descending score. */
  function SortByScore(s: seq<MovementPattern>): (r: seq<MovementPattern>)
    ensures SortedByScore(r) && multiset(r) == multiset(s) && |r| == |s|
  {
    if s == [] then []
    else
      assert s == [s[0]] + s[1..];
      var t := SortByScore(s[1..]);
      InsertSorted(s[0], t);
      Insert(s[0], t)
  }

  /** Every learned pattern scored above the threshold. */
  predicate AllGood(s: seq<MovementPattern>)
  {
    forall i :: 0 <= i < |s| ==> s[i].naturalnessScore > LEARN_THRESHOLD
  }

  lemma MultisetGood(s: seq<MovementPattern>, t: seq<MovementPattern>)
    requires AllGood(s) && multiset(t) <= multiset(s)
    ensures AllGood(t)
  {
    forall i | 0 <= i < |t| ensures t[i].naturalnessScore > LEARN_THRESHOLD {
      assert t[i] in multiset(t);
      assert t[i] in multiset(s);
      var j :| 0 <= j < |s| && s[j] == t[i];
    }
  }

  /** Dropping the last pattern of a descending sequence leaves it
      descending and drops a pattern scoring no higher than any kept one. */
  lemma DropLast(sorted: seq<MovementPattern>)
    requires SortedByScore(sorted) && sorted != []
    ensures var kept := sorted[..|sorted| - 1];
            && SortedByScore(kept)
            && multiset(kept) + multiset{sorted[|sorted| - 1]} == multiset(sorted)
            && forall i :: 0 <= i < |kept| ==> kept[i].naturalnessScore >= sorted[|sorted| - 1].naturalnessScore
  {
    assert sorted == sorted[..|sorted| - 1] + [sorted[|sorted| - 1]];
  }

  /** Sorting 101 good patterns and keeping the first 100 drops one pattern
      scoring no higher than any kept one. */
  lemma TopDropsLowest(all: seq<MovementPattern>)
    requires |all| == MAX_LEARNED + 1 && AllGood(all)
    ensures var kept := SortByScore(all)[..MAX_LEARNED];
            && AllGood(kept) && SortedByScore(kept)
            && exists dropped ::
                 && multiset(kept) + multiset{dropped} == multiset(all)
                 && forall i :: 0 <= i < |kept| ==> kept[i].naturalnessScore >= dropped.naturalnessScore
  {
    var sorted := SortByScore(all);
    var kept := sorted[..MAX_LEARNED];
    var dropped := sorted[MAX_LEARNED];
    DropLast(sorted);
    assert multiset(kept) + multiset{dropped} == multiset(all);
    MultisetGood(all, kept);
  }

  // ----- fatigue and delays (GetHumanizedDelay) -----

  /** Whole minutes of a millisecond interval, as duration_cast<minutes> does. */
  function WholeMinutes(ms: int): (m: int)
    ensures ms >= 0 ==> 0 <= m && m * 60000 <= ms < (m + 1) * 60000
    ensures ms < 0 ==> m <= 0 && (m - 1) * 60000 < ms <= m * 60000
  {
    CDiv(ms, 60000)
  }

  /** The fatigue step: +0.1 up to 1.5 after more than 30 idle minutes,
      otherwise -0.05 down to 1.0. */
  function NextFatigue(f: int, minutes: int): (r: int)
    requires FATIGUE_MIN <= f <= FATIGUE_MAX
    ensures FATIGUE_MIN <= r <= FATIGUE_MAX
    ensures minutes > 30 ==> f <= r && (r == f + 10 || r == FATIGUE_MAX)
    ensures minutes <= 30 ==> r <= f && (r == f - 5 || r == FATIGUE_MIN)
  {
    if minutes > 30 then Min(FATIGUE_MAX, f + 10) else Max(FATIGUE_MIN, f - 5)
  }

  /** The multiplier after a run of delay requests separated by the given
      idle minutes. */
  function FatigueAfter(f: int, gaps: seq<int>): (r: int)
    requires FATIGUE_MIN <= f <= FATIGUE_MAX
    ensures FATIGUE_MIN <= r <= FATIGUE_MAX
    decreases |gaps|
  {
    if gaps == [] then f else FatigueAfter(NextFatigue(f, gaps[0]), gaps[1..])
  }

  /** Five long breaks in a row take any multiplier to the 1.5 ceiling, and
      further long breaks keep it there. */
  lemma {:induction false} LongBreaksSaturate(f: int, gaps: seq<int>)
    requires FATIGUE_MIN <= f <= FATIGUE_MAX
    requires |gaps| >= 5 && forall i :: 0 <= i < |gaps| ==> gaps[i] > 30
    ensures FatigueAfter(f, gaps) == FATIGUE_MAX
  {
    LongBreaksRaise(f, gaps);
  }

  lemma {:induction false} LongBreaksRaise(f: int, gaps: seq<int>)
    requires FATIGUE_MIN <= f <= FATIGUE_MAX
    requires forall i :: 0 <= i < |gaps| ==> gaps[i] > 30
    ensures FatigueAfter(f, gaps) == Min(FATIGUE_MAX, f + 10 * |gaps|)
    decreases |gaps|
  {
    if gaps != [] {
      LongBreaksRaise(NextFatigue(f, gaps[0]), gaps[1..]);
    }
  }

  /** Ten short gaps in a row bring any multiplier back to 1.0. */
  lemma {:induction false} ShortGapsRecover(f: int, gaps: seq<int>)
    requires FATIGUE_MIN <= f <= FATIGUE_MAX
    requires forall i :: 0 <= i < |gaps| ==> gaps[i] <= 30
    ensures FatigueAfter(f, gaps) == Max(FATIGUE_MIN, f - 5 * |gaps|)
    ensures |gaps| >= 10 ==> FatigueAfter(f, gaps) == FATIGUE_MIN
    decreases |gaps|
  {
    if gaps != [] {
      ShortGapsRecover(NextFatigue(f, gaps[0]), gaps[1..]);
    }
  }

  /** The per-action base delay in milliseconds. */
  function BaseDelay(actionType: string, rotationSpeed: int, baseReactionTime: int): (r: int)
    requires actionType == "mining" ==> rotationSpeed != 0
    ensures actionType == "movement" ==> r == 50
    ensures actionType == "tool_switch" ==> r == 300
    ensures actionType == "player_interaction" ==> r == 500
    ensures actionType !in {"mining", "movement", "tool_switch", "player_interaction"} ==> r == baseReactionTime
    ensures actionType == "mining" && rotationSpeed > 0 ==>
      r as real <= 10000.0 / rotationSpeed as real < r as real + 1.0
  {
    if actionType == "mining" then TruncReal(100.0 / (rotationSpeed as real / 100.0))
    else if actionType == "movement" then 50
    else if actionType == "tool_switch" then 300
    else if actionType == "player_interaction" then 500
    else baseReactionTime
  }

  /** The delay before the random variance: base * fatigue * (1 + level/200),
      truncated. */
  function ScaledDelay(base: int, fatigue: int, humanizationLevel: int): int
  {
    TruncReal(base as real * (fatigue as real / 100.0) * (1.0 + (humanizationLevel as real / 100.0) * 0.5))
  }

  /** With a non-negative base, a level in [0, 100] and the multiplier in its
      range, the scaled delay lies between the base and 2.25 times the base. */
  lemma ScaledDelayBounds(base: int, fatigue: int, humanizationLevel: int)
    requires base >= 0 && 0 <= humanizationLevel <= 100
    requires FATIGUE_MIN <= fatigue <= FATIGUE_MAX
    ensures base <= ScaledDelay(base, fatigue, humanizationLevel) <= (9 * base) / 4
  {
    var f := fatigue as real / 100.0;
    var h := 1.0 + (humanizationLevel as real / 100.0) * 0.5;
    var m := FactorProduct(f, h);
    var x := ScaledBase(base as real, m);
    assert base as real * f * h == x;
    var r := ScaledDelay(base, fatigue, humanizationLevel);
    assert r == TruncReal(x);
    TruncRealBounds(x);
    assert r as real <= x;
    assert base <= r;
    assert 4 * r <= 9 * base;
  }

  /** Two multipliers in [1, 1.5] have a product in [1, 2.25]. */
  lemma FactorProduct(f: real, h: real) returns (m: real)
    requires 1.0 <= f <= 1.5 && 1.0 <= h <= 1.5
    ensures m == f * h && 1.0 <= m <= 2.25
  {
    m := f * h;
    NonNegativeProduct(f - 1.0, h);
    NonNegativeProduct(1.5 - f, h);
  }

  /** A non-negative base scaled by a multiplier in [1, 2.25]. */
  lemma ScaledBase(b: real, m: real) returns (x: real)
    requires b >= 0.0 && 1.0 <= m <= 2.25
    ensures x == b * m && b <= x <= 2.25 * b
  {
    x := b * m;
    NonNegativeProduct(b, m - 1.0);
    NonNegativeProduct(b, 2.25 - m);
  }

  // ----- Bezier waypoint (GenerateHumanMouseMovement) -----

  /** The four curveDist draws: offsets of the two control points. */
  datatype CurveDraws = CurveDraws(c1x: real, c1y: real, c2x: real, c2y: real)

  /** Each draw lies in [-0.3 * humanFactor, 0.3 * humanFactor]. */
  predicate DrawsInRange(d: CurveDraws, humanFactor: real)
  {
    RealAbs(d.c1x) <= 0.3 * humanFactor && RealAbs(d.c1y) <= 0.3 * humanFactor
    && RealAbs(d.c2x) <= 0.3 * humanFactor && RealAbs(d.c2y) <= 0.3 * humanFactor
  }

  function BezierCoord(t: real, a: real, b: real, c: real, d: real): real
  {
    var u := 1.0 - t;
    u * u * u * a + 3.0 * u * u * t * b + 3.0 * u * t * t * c + t * t * t * d
  }

  /** The point 0.8096 of the way from start to target: where the curve
      would be without any random offset. */
  function Straight(start: Point, target: Point): Point
  {
    Point(start.x + 0.8096 * (target.x - start.x), start.y + 0.8096 * (target.y - start.y))
  }

  /** The cubic Bezier curve through start, two control points and target. */
  function Bezier(t: real, p0: Point, p1: Point, p2: Point, p3: Point): Point
  {
    Point(BezierCoord(t, p0.x, p1.x, p2.x, p3.x), BezierCoord(t, p0.y, p1.y, p2.y, p3.y))
  }

  /** One coordinate of the curve offset: 3 * 0.2^2 * 0.8 * 0.2 = 0.0192 of
      the first control draw and 3 * 0.2 * 0.8^2 * 0.15 = 0.0576 of the second,
      both scaled by the distance. */
  function OffsetCoord(a: real, b: real, distance: real): real
  {
    distance * (0.0192 * a + 0.0576 * b)
  }

  /** The offsets the draws add to the straight-line point. */
  function CurveOffset(d: CurveDraws, distance: real): Point
  {
    Point(OffsetCoord(d.c1x, d.c2x, distance), OffsetCoord(d.c1y, d.c2y, distance))
  }

  /** `distance` is cv::norm(target - start): non-negative, squaring to the
      squared length. */
  predicate IsLength(distance: real, delta: Point)
  {
    distance >= 0.0 && distance * distance == NormSq(delta)
  }

  /** The Bezier point at t = 0.8 through the two randomly displaced control
      points. */
  function Waypoint(start: Point, target: Point, d: CurveDraws, distance: real): Point
  {
    var delta := Minus(target, start);
    var control1 := Plus(start, Point(delta.x * 0.3 + d.c1x * distance * 0.2, delta.y * 0.3 + d.c1y * distance * 0.2));
    var control2 := Plus(start, Point(delta.x * 0.7 + d.c2x * distance * 0.15, delta.y * 0.7 + d.c2y * distance * 0.15));
    Bezier(0.8, start, control1, control2, target)
  }

  /** The point 0.8096 of the way from start to target, displaced by the
      curve offsets. */
  function CurvePoint(start: Point, target: Point, d: CurveDraws, distance: real): Point
  {
    Plus(Straight(start, target), CurveOffset(d, distance))
  }

  /** Expanding the Bezier polynomial: the waypoint is 0.8096 of the way to
      the target plus the offsets. */
  lemma WaypointClosedForm(start: Point, target: Point, d: CurveDraws, distance: real)
    ensures Waypoint(start, target, d, distance) == CurvePoint(start, target, d, distance)
  {
  }

  /** No distance to cover: the waypoint is the start itself, whatever the draws. */
  lemma CurvePointAtTarget(start: Point, d: CurveDraws)
    ensures CurvePoint(start, start, d, 0.0) == start
  {
  }

  /** With every draw 0 the waypoint lies on the segment, 0.8096 of the way. */
  lemma WaypointWithoutCurve(start: Point, target: Point, distance: real)
    ensures Waypoint(start, target, CurveDraws(0.0, 0.0, 0.0, 0.0), distance)
         == Straight(start, target)
  {
    WaypointClosedForm(start, target, CurveDraws(0.0, 0.0, 0.0, 0.0), distance);
  }

  /** What GenerateHumanMouseMovement promises about the waypoint: its
      closed form, its deviation bound and its value when start and target
      coincide. */
  lemma WaypointFacts(start: Point, target: Point, d: CurveDraws, humanFactor: real, distance: real)
    requires IsLength(distance, Minus(target, start)) && DrawsInRange(d, humanFactor)
    ensures Waypoint(start, target, d, distance) == CurvePoint(start, target, d, distance)
    ensures var straight := Straight(start, target);
            var p := CurvePoint(start, target, d, distance);
            var bound := 0.02304 * humanFactor * distance;
            RealAbs(p.x - straight.x) <= bound && RealAbs(p.y - straight.y) <= bound
    ensures start == target ==> CurvePoint(start, target, d, distance) == start
  {
    WaypointClosedForm(start, target, d, distance);
    CurvePointDeviation(start, target, d, humanFactor, distance);
    if start == target {
      SquareZero(distance);
      CurvePointAtTarget(start, d);
    }
  }

  lemma ScaledBound(a: real, b: real, k: real)
    requires RealAbs(a) <= k && b >= 0.0
    ensures RealAbs(a * b) <= k * b
  {
    if a >= 0.0 {
      NonNegativeProduct(k - a, b);
    } else {
      NonNegativeProduct(k + a, b);
    }
  }

  /** The curve moves each coordinate at most 0.02304 * humanFactor * distance
      away from the straight-line point. */
  lemma CurvePointDeviation(start: Point, target: Point, d: CurveDraws, humanFactor: real, distance: real)
    requires distance >= 0.0 && DrawsInRange(d, humanFactor)
    ensures var straight := Straight(start, target);
            var p := CurvePoint(start, target, d, distance);
            var bound := 0.02304 * humanFactor * distance;
            RealAbs(p.x - straight.x) <= bound && RealAbs(p.y - straight.y) <= bound
  {
    var p := CurvePoint(start, target, d, distance);
    var straight := Straight(start, target);
    assert p.x - straight.x == OffsetCoord(d.c1x, d.c2x, distance);
    assert p.y - straight.y == OffsetCoord(d.c1y, d.c2y, distance);
    OffsetBound(d.c1x, d.c2x, distance, humanFactor);
    OffsetBound(d.c1y, d.c2y, distance, humanFactor);
  }

  lemma OffsetBound(a: real, b: real, distance: real, humanFactor: real)
    requires distance >= 0.0 && RealAbs(a) <= 0.3 * humanFactor && RealAbs(b) <= 0.3 * humanFactor
    ensures RealAbs(OffsetCoord(a, b, distance)) <= 0.02304 * humanFactor * distance
  {
    var k := 0.3 * humanFactor;
    ScaledBound(a, distance, k);
    ScaledBound(b, distance, k);
    assert OffsetCoord(a, b, distance) == 0.0192 * (a * distance) + 0.0576 * (b * distance);
    assert 0.0768 * (k * distance) == 0.02304 * humanFactor * distance;
  }

  /** The humanization engine: learned patterns, reaction timing with a
      fatigue multiplier, and the settings the controller applies. */
  class HumanizationEngine {
    var learnedPatterns: seq<MovementPattern>
    var baseReactionTime: int
    var reactionVariance: int
    var fatigue: int
    var lastAction: int
    var mouseSensitivity: real
    var rotationSpeed: int
    var humanizationLevel: int

    ghost predicate Valid()
      reads this
    {
      && |learnedPatterns| <= MAX_LEARNED
      && AllGood(learnedPatterns)
      && FATIGUE_MIN <= fatigue <= FATIGUE_MAX
      && reactionVariance >= 0
    }

    /** Defaults of HumanTiming and the settings; `now` is the clock reading
        stored as the last action. */
    constructor(now: int)
      ensures Valid()
      ensures learnedPatterns == [] && lastAction == now
      ensures baseReactionTime == DEFAULT_BASE_REACTION && reactionVariance == DEFAULT_REACTION_VARIANCE
      ensures fatigue == FATIGUE_MIN
      ensures mouseSensitivity == 1.0 && rotationSpeed == 100 && humanizationLevel == 80
    {
      learnedPatterns := [];
      baseReactionTime := DEFAULT_BASE_REACTION;
      reactionVariance := DEFAULT_REACTION_VARIANCE;
      fatigue := FATIGUE_MIN;
      lastAction := now;
      mouseSensitivity := 1.0;
      rotationSpeed := 100;
      humanizationLevel := 80;
    }

    /** humanizationLevel / 100. */
    function HumanFactor(): real
      reads this
    {
      humanizationLevel as real / 100.0
    }

    /** Learns a pattern scoring above 0.7. When that makes 101 patterns the
        corpus is sorted by descending score and the last one dropped, so
        the 100 best are kept. */
    method LearnFromPattern(pattern: MovementPattern)
      requires Valid()
      modifies this
      ensures Valid()
      ensures pattern.naturalnessScore <= LEARN_THRESHOLD ==> learnedPatterns == old(learnedPatterns)
      ensures pattern.naturalnessScore > LEARN_THRESHOLD && |old(learnedPatterns)| < MAX_LEARNED ==>
        learnedPatterns == old(learnedPatterns) + [pattern]
      ensures pattern.naturalnessScore > LEARN_THRESHOLD && |old(learnedPatterns)| == MAX_LEARNED ==>
        && |learnedPatterns| == MAX_LEARNED
        && SortedByScore(learnedPatterns)
        && exists dropped ::
             && multiset(learnedPatterns) + multiset{dropped} == multiset(old(learnedPatterns) + [pattern])
             && forall i :: 0 <= i < |learnedPatterns| ==> learnedPatterns[i].naturalnessScore >= dropped.naturalnessScore
      ensures baseReactionTime == old(baseReactionTime) && reactionVariance == old(reactionVariance)
      ensures fatigue == old(fatigue) && lastAction == old(lastAction)
      ensures mouseSensitivity == old(mouseSensitivity) && rotationSpeed == old(rotationSpeed)
      ensures humanizationLevel == old(humanizationLevel)
    {
      if pattern.naturalnessScore > LEARN_THRESHOLD {
        learnedPatterns := learnedPatterns + [pattern];
        if |learnedPatterns| > MAX_LEARNED {
          var all := learnedPatterns;
          var sorted := SortByScore(all);
          learnedPatterns := sorted[..MAX_LEARNED];
          TopDropsLowest(all);
        }
      }
    }

    /** GetHumanizedDelay at clock reading `now` (ms), with `draw` the
        variance sample in [-reactionVariance, reactionVariance]. The
        multiplier takes one fatigue step by the whole minutes since the last
        action, the last action becomes `now`, and the delay is the scaled
        base delay plus the draw. */
    method GetHumanizedDelay(actionType: string, now: int, draw: int) returns (delay: int)
      requires Valid()
      requires actionType == "mining" ==> rotationSpeed != 0
      requires -reactionVariance <= draw <= reactionVariance
      modifies this
      ensures learnedPatterns == old(learnedPatterns)
      ensures baseReactionTime == old(baseReactionTime) && reactionVariance == old(reactionVariance)
      ensures mouseSensitivity == old(mouseSensitivity) && rotationSpeed == old(rotationSpeed)
      ensures humanizationLevel == old(humanizationLevel)
      ensures Valid()
      ensures fatigue == NextFatigue(old(fatigue), WholeMinutes(now - old(lastAction)))
      ensures lastAction == now
      ensures delay == ScaledDelay(BaseDelay(actionType, rotationSpeed, baseReactionTime), fatigue, humanizationLevel) + draw
    {
      var baseDelay := BaseDelay(actionType, rotationSpeed, baseReactionTime);
      var minutes := WholeMinutes(now - lastAction);
      if minutes > 30 {
        fatigue := Min(FATIGUE_MAX, fatigue + 10);
      } else {
        fatigue := Max(FATIGUE_MIN, fatigue - 5);
      }
      lastAction := now;
      delay := ScaledDelay(baseDelay, fatigue, humanizationLevel) + draw;
    }

    /** GenerateHumanMouseMovement with its four curve draws and the length
        of target - start as parameters: the Bezier waypoint, within
        0.02304 * humanFactor * distance of the straight-line point in each
        coordinate, and the start itself when there is nowhere to go. */
    method GenerateHumanMouseMovement(start: Point, target: Point, d: CurveDraws, distance: real)
      returns (p: Point)
      requires IsLength(distance, Minus(target, start)) && DrawsInRange(d, HumanFactor())
      ensures p == CurvePoint(start, target, d, distance)
      ensures start == target ==> p == start
    {
      WaypointFacts(start, target, d, HumanFactor(), distance);
      p := Waypoint(start, target, d, distance);
    }

    /** AddNaturalJitter with the two jitter draws, each in
        [-humanFactor, humanFactor], as parameters: each coordinate moves by
        its draw, so by at most humanFactor. */
    method AddNaturalJitter(movement: Point, jx: real, jy: real) returns (moved: Point)
      requires RealAbs(jx) <= HumanFactor() && RealAbs(jy) <= HumanFactor()
      ensures moved == Plus(movement, Point(jx, jy))
      ensures RealAbs(moved.x - movement.x) <= HumanFactor()
      ensures RealAbs(moved.y - movement.y) <= HumanFactor()
    {
      moved := movement;
      moved := moved.(x := moved.x + jx);
      moved := moved.(y := moved.y + jy);
    }

    method SetMouseSensitivity(sensitivity: real)
      modifies this
      ensures mouseSensitivity == sensitivity
      ensures learnedPatterns == old(learnedPatterns) && fatigue == old(fatigue) && lastAction == old(lastAction)
      ensures baseReactionTime == old(baseReactionTime) && reactionVariance == old(reactionVariance)
      ensures rotationSpeed == old(rotationSpeed) && humanizationLevel == old(humanizationLevel)
    {
      mouseSensitivity := sensitivity;
    }

    method SetRotationSpeed(speed: int)
      modifies this
      ensures rotationSpeed == speed
      ensures learnedPatterns == old(learnedPatterns) && fatigue == old(fatigue) && lastAction == old(lastAction)
      ensures baseReactionTime == old(baseReactionTime) && reactionVariance == old(reactionVariance)
      ensures mouseSensitivity == old(mouseSensitivity) && humanizationLevel == old(humanizationLevel)
    {
      rotationSpeed := speed;
    }

    method SetHumanizationLevel(level: int)
      modifies this
      ensures humanizationLevel == level
      ensures learnedPatterns == old(learnedPatterns) && fatigue == old(fatigue) && lastAction == old(lastAction)
      ensures baseReactionTime == old(baseReactionTime) && reactionVariance == old(reactionVariance)
      ensures mouseSensitivity == old(mouseSensitivity) && rotationSpeed == old(rotationSpeed)
    {
      humanizationLevel := level;
    }

    method SetReactionTime(reactionTime: int)
      modifies this
      ensures baseReactionTime == reactionTime
      ensures learnedPatterns == old(learnedPatterns) && fatigue == old(fatigue) && lastAction == old(lastAction)
      ensures reactionVariance == old(reactionVariance) && humanizationLevel == old(humanizationLevel)
      ensures mouseSensitivity == old(mouseSensitivity) && rotationSpeed == old(rotationSpeed)
    {
      baseReactionTime := reactionTime;
    }
  }
}
