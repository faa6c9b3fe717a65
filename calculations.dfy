/**
 * Statistics, star grade, experience reward, the level search over the
 * tiered experience curve and the date helpers of src/utils/calculations.ts.
 */
module Calculations {
  import opened Constants

  function Max(a: int, b: int): int { if a >= b then a else b }
  function Min(a: int, b: int): int { if a <= b then a else b }
  function Abs(a: int): int { if a >= 0 then a else -a }
  function MaxReal(a: real, b: real): real { if a >= b then a else b }
  function MinReal(a: real, b: real): real { if a <= b then a else b }

  // ---------------------------------------------------------------------
  // Statistics

  /** Left-to-right sum, as `reduce((sum, n) => sum + n, 0)` computes it. */
  function Sum(s: seq<int>): int
  {
    if |s| == 0 then 0 else Sum(s[..|s| - 1]) + s[|s| - 1]
  }

  /** `r` is a over b: r × b = a, or 0 when b is 0. */
  predicate IsRatio(r: real, a: int, b: int)
  {
    (b != 0 ==> r * b as real == a as real) && (b == 0 ==> r == 0.0)
  }

  /** Arithmetic mean; the empty list has mean 0. */
  function Mean(s: seq<int>): (r: real)
    ensures |s| == 0 ==> r == 0.0
    ensures |s| > 0 ==> r * (|s| as real) == Sum(s) as real
  {
    if |s| == 0 then 0.0 else Sum(s) as real / |s| as real
  }

  lemma {:induction false} SumAtLeast(s: seq<int>, lo: int)
    requires forall i :: 0 <= i < |s| ==> lo <= s[i]
    ensures lo * |s| <= Sum(s)
  {
    if |s| > 0 {
      SumAtLeast(s[..|s| - 1], lo);
    }
  }

  lemma {:induction false} SumAtMost(s: seq<int>, hi: int)
    requires forall i :: 0 <= i < |s| ==> s[i] <= hi
    ensures Sum(s) <= hi * |s|
  {
    if |s| > 0 {
      SumAtMost(s[..|s| - 1], hi);
    }
  }

  /** The mean of a non-empty list is at least any lower bound of its elements. */
  lemma MeanAtLeast(s: seq<int>, lo: int)
    requires |s| > 0
    requires forall i :: 0 <= i < |s| ==> lo <= s[i]
    ensures lo as real <= Mean(s)
  {
    SumAtLeast(s, lo);
    CastProduct(lo, |s|);
    CancelPositive(lo as real, Mean(s), |s| as real);
  }

  /** The mean of a non-empty list is at most any upper bound of its elements. */
  lemma MeanAtMost(s: seq<int>, hi: int)
    requires |s| > 0
    requires forall i :: 0 <= i < |s| ==> s[i] <= hi
    ensures Mean(s) <= hi as real
  {
    SumAtMost(s, hi);
    CastProduct(hi, |s|);
    CancelPositive(Mean(s), hi as real, |s| as real);
  }

  /** The mean of a non-empty list lies between any lower and upper bound of its elements. */
  lemma MeanWithin(s: seq<int>, lo: int, hi: int)
    requires |s| > 0
    requires forall i :: 0 <= i < |s| ==> lo <= s[i] <= hi
    ensures lo as real <= Mean(s) <= hi as real
  {
    MeanAtLeast(s, lo);
    MeanAtMost(s, hi);
  }

  lemma CastProduct(a: int, b: int)
    ensures (a * b) as real == (a as real) * (b as real)
  {
  }

  /** A positive factor common to both sides of an inequality cancels. */
  lemma CancelPositive(a: real, b: real, n: real)
    requires n > 0.0 && a * n <= b * n
    ensures a <= b
  {
    assert (b - a) * n == b * n - a * n;
  }

  /** The mean of a non-empty list of positive values is positive. */
  lemma MeanPositive(s: seq<int>)
    requires |s| > 0
    requires forall i :: 0 <= i < |s| ==> s[i] > 0
    ensures Mean(s) > 0.0
  {
    MeanAtLeast(s, 1);
  }

  /** Smallest element, as `Math.min(...s)` returns it. */
  function MinOf(s: seq<int>): (r: int)
    requires |s| > 0
    ensures forall i :: 0 <= i < |s| ==> r <= s[i]
    ensures exists i :: 0 <= i < |s| && r == s[i]
  {
    if |s| == 1 then s[0]
    else
      var m := MinOf(s[..|s| - 1]);
      if m <= s[|s| - 1] then m else s[|s| - 1]
  }

  /** The minimum of a non-empty list never exceeds its mean. */
  lemma MinAtMostMean(s: seq<int>)
    requires |s| > 0
    ensures MinOf(s) as real <= Mean(s)
  {
    MeanAtLeast(s, MinOf(s));
  }

  /** Sum of squared deviations from `avg`. */
  function SquareDiffSum(s: seq<int>, avg: real): (r: real)
    ensures r >= 0.0
  {
    if |s| == 0 then 0.0
    else
      var d := s[|s| - 1] as real - avg;
      SquareDiffSum(s[..|s| - 1], avg) + d * d
  }

  /** Population variance: the mean of the squared deviations from the mean. */
  function Variance(s: seq<int>): (r: real)
    ensures r >= 0.0
  {
    if |s| == 0 then 0.0 else SquareDiffSum(s, Mean(s)) / |s| as real
  }

  /**
   * What the model assumes of Math.sqrt: it maps non-negative numbers to
   * non-negative numbers, and 0 to 0.
   */
  ghost predicate IsSqrt(sqrt: real -> real)
  {
    (forall x :: 0.0 <= x ==> 0.0 <= sqrt(x)) && sqrt(0.0) == 0.0
  }

  /** Population standard deviation; 0 for the empty list. */
  function StandardDeviation(numbers: seq<int>, sqrt: real -> real): (r: real)
    requires IsSqrt(sqrt)
    ensures r >= 0.0
    ensures |numbers| == 0 ==> r == 0.0
  {
    if |numbers| == 0 then 0.0 else sqrt(Variance(numbers))
  }

  // ---------------------------------------------------------------------
  // Star grade and experience reward

  /**
   * Star grade of `score` against `maxScore`. A zero `maxScore` divides by
   * zero as JavaScript does: a positive score gives +Infinity (5 stars), a
   * negative one -Infinity and a zero one NaN (both 1 star).
   */
  function Stars(score: int, maxScore: int): (r: int)
    ensures 1 <= r <= 5
  {
    if maxScore == 0 then (if score > 0 then 5 else 1)
    else
      var percentage := score as real / maxScore as real;
      if percentage >= 0.95 then 5
      else if percentage >= 0.85 then 4
      else if percentage >= 0.70 then 3
      else if percentage >= 0.50 then 2
      else 1
  }

  /** For a fixed positive maximum, a higher score never earns fewer stars. */
  lemma StarsMonotone(s1: int, s2: int, maxScore: int)
    requires maxScore > 0
    requires s1 <= s2
    ensures Stars(s1, maxScore) <= Stars(s2, maxScore)
  {
    var m := maxScore as real;
    var p1 := s1 as real / m;
    var p2 := s2 as real / m;
    assert p2 - p1 == (s2 - s1) as real / m;
    assert p1 <= p2;
  }

  /**
   * floor((floor(score / 10) + 20 * stars) * (1 + difficulty / 10)), the
   * multiplier taken as the exact rational (10 + difficulty) / 10.
   */
  function XpReward(score: int, stars: int, difficulty: int): (r: int)
    ensures 10 * r <= (score / 10 + stars * 20) * (10 + difficulty) < 10 * r + 10
    ensures score >= 0 && stars >= 0 && difficulty >= -10 ==> r >= 0
  {
    var baseXp := score / 10;
    var starBonus := stars * 20;
    (baseXp + starBonus) * (10 + difficulty) / 10
  }

  // ---------------------------------------------------------------------
  // Levels

  /** Experience needed to reach `level`: the costs of levels 1 .. level-1. */
  function CumXp(level: int): (r: int)
    ensures r >= 0
    decreases level
  {
    if level <= 1 then 0 else CumXp(level - 1) + XpPerLevel(level - 1)
  }

  /** The threshold sums grow with the level. */
  lemma {:induction false} CumXpMonotone(a: int, b: int)
    requires a <= b
    ensures CumXp(a) <= CumXp(b)
    decreases b - a
  {
    if a < b {
      CumXpMonotone(a, b - 1);
    }
  }

  /** ... strictly, from level 1 on. */
  lemma {:induction false} CumXpStrictlyIncreasing(a: int, b: int)
    requires 1 <= a < b
    ensures CumXp(a) < CumXp(b)
  {
    CumXpMonotone(a, b - 1);
    XpPerLevelPositive(b - 1);
  }

  /** The search loop of getLevelFromXP, started at `level`. */
  function LevelSearch(xp: int, level: int): (r: int)
    requires level >= 1
    ensures r >= level
    ensures xp < CumXp(r + 1)
    ensures r > level ==> CumXp(r) <= xp
    decreases xp - CumXp(level)
  {
    if CumXp(level) + XpPerLevel(level) <= xp then LevelSearch(xp, level + 1) else level
  }

  /** The level reached with `xp` points. */
  function LevelFromXp(xp: int): (r: int)
    ensures r >= 1
    ensures xp < CumXp(r + 1)
    ensures xp >= 0 ==> CumXp(r) <= xp
  {
    LevelSearch(xp, 1)
  }

  /** getLevelFromXP: walk the levels while the next threshold is still covered. */
  method GetLevelFromXp(xp: int) returns (level: int)
    ensures level == LevelFromXp(xp)
    ensures level >= 1 && xp < CumXp(level + 1)
    ensures xp >= 0 ==> CumXp(level) <= xp
  {
    level := 1;
    var totalXp := 0;
    while totalXp + XpPerLevel(level) <= xp
      invariant level >= 1
      invariant totalXp == CumXp(level)
      invariant LevelSearch(xp, level) == LevelFromXp(xp)
      decreases xp - totalXp
    {
      totalXp := totalXp + XpPerLevel(level);
      level := level + 1;
    }
  }

  /** The level found is the largest one whose threshold `xp` covers. */
  lemma LevelFromXpIsLargest(xp: int, l: int)
    requires l >= 1 && CumXp(l) <= xp
    ensures l <= LevelFromXp(xp)
  {
    var r := LevelFromXp(xp);
    if l > r {
      CumXpMonotone(r + 1, l);
    }
  }

  /** LevelFromXp is the one level whose threshold is covered and whose successor's is not. */
  lemma LevelFromXpUnique(xp: int, l: int)
    requires l >= 1 && CumXp(l) <= xp < CumXp(l + 1)
    ensures l == LevelFromXp(xp)
  {
    LevelFromXpIsLargest(xp, l);
    var r := LevelFromXp(xp);
    if l < r {
      CumXpMonotone(l + 1, r);
    }
  }

  /** The next threshold lies one level's cost above this one. */
  lemma CumXpStep(l: int)
    requires l >= 1
    ensures CumXp(l + 1) == CumXp(l) + XpPerLevel(l)
  {
  }

  /** More experience never means a lower level. */
  lemma LevelFromXpMonotone(a: int, b: int)
    requires a <= b
    ensures LevelFromXp(a) <= LevelFromXp(b)
  {
    var la := LevelFromXp(a);
    if a >= 0 {
      LevelFromXpIsLargest(b, la);
    } else if la > 1 {
      CumXpStrictlyIncreasing(1, la);
    }
  }

  /** getXPForCurrentLevel: the part of `xp` above the threshold of `level`. */
  method GetXpForCurrentLevel(xp: int, level: int) returns (r: int)
    ensures r == xp - CumXp(level)
  {
    var totalXp := 0;
    var i := 1;
    while i < level
      invariant 1 <= i && (i <= level || i == 1)
      invariant totalXp == CumXp(i)
    {
      totalXp := totalXp + XpPerLevel(i);
      i := i + 1;
    }
    r := xp - totalXp;
  }

  /** getXPRequiredForNextLevel: the cost of the current level. */
  function XpRequiredForNextLevel(level: int): (r: int)
    ensures level >= 1 ==> r >= 1000
  {
    XpPerLevel(level)
  }

  /** At the level reached, the remainder is below that level's cost. */
  lemma CurrentLevelXpInRange(xp: int)
    requires xp >= 0
    ensures 0 <= xp - CumXp(LevelFromXp(xp)) < XpRequiredForNextLevel(LevelFromXp(xp))
  {
  }

  // ---------------------------------------------------------------------
  // Streak icon and dates

  datatype StreakStyle = StreakStyle(size: int, className: string)

  /** Icon size and colour for a streak length. */
  function StreakConfig(streak: int): (r: StreakStyle)
    ensures 20 <= r.size <= 32
    ensures streak >= 30 <==> r.size == 32
    ensures streak < 7 <==> r.size == 20
  {
    if streak >= 30 then StreakStyle(32, "text-primary")
    else if streak >= 14 then StreakStyle(28, "text-chart-1")
    else if streak >= 7 then StreakStyle(24, "text-chart-2")
    else StreakStyle(20, "text-muted-foreground")
  }

  /** A longer streak never gets a smaller icon. */
  lemma StreakConfigMonotone(a: int, b: int)
    requires a <= b
    ensures StreakConfig(a).size <= StreakConfig(b).size
  {
  }

  const DayMs := 24 * 60 * 60 * 1000

  /** Whole days between two instants, rounded down. */
  function DaysBetween(t1: int, t2: int): (r: int)
    ensures r >= 0
    ensures r * DayMs <= Abs(t1 - t2) < (r + 1) * DayMs
  {
    Abs(t1 - t2) / DayMs
  }

  /** The day difference does not depend on the argument order. */
  lemma DaysBetweenSymmetric(t1: int, t2: int)
    ensures DaysBetween(t1, t2) == DaysBetween(t2, t1)
  {
  }

  /** The UTC day number of an instant, as toISOString's date part names it. */
  function DayOf(t: int): (d: int)
    ensures d * DayMs <= t < (d + 1) * DayMs
  {
    t / DayMs
  }
}
