/**
 * The shared reflex-drill logic of src/components/drills/ReflexDrill/reflexLogic.ts:
 * the random wait before a stimulus, the target size and round count by
 * difficulty, and the aggregation of a round log into reflex metrics.
 * Math.random is the parameter `rnd` (a value in [0, 1)), Math.sqrt the
 * parameter `sqrt`.
 */
module ReflexLogic {
  import opened Types
  import opened Calculations

  /** One reflex round: its wait, the reaction time if any, and what happened. */
  datatype ReflexRound = ReflexRound(
    delay: real,
    reactionTime: Option<int>,
    clicked: bool,
    falseStart: bool)

  // ---------------------------------------------------------------------
  // Difficulty parameters

  function MinDelay(difficulty: int): int
  {
    Max(500, 1000 - difficulty * 100)
  }

  function MaxDelay(difficulty: int): int
  {
    Max(MinDelay(difficulty) + 1000, 4000 - difficulty * 200)
  }

  /** The wait window is at least 500 ms from its start and at least 1000 ms wide. */
  lemma DelayWindow(difficulty: int)
    ensures MinDelay(difficulty) >= 500
    ensures MaxDelay(difficulty) - MinDelay(difficulty) >= 1000
  {
  }

  /** generateDelay: a point of the wait window chosen by `rnd`. */
  function GenerateDelay(difficulty: int, rnd: real): (r: real)
    requires 0.0 <= rnd < 1.0
    ensures MinDelay(difficulty) as real <= r < MaxDelay(difficulty) as real
  {
    var minDelay := MinDelay(difficulty);
    var maxDelay := MaxDelay(difficulty);
    DelayWindow(difficulty);
    InWindow(rnd, minDelay, maxDelay);
    rnd * (maxDelay - minDelay) as real + minDelay as real
  }

  lemma InWindow(rnd: real, lo: int, hi: int)
    requires 0.0 <= rnd < 1.0 && lo < hi
    ensures lo as real <= rnd * (hi - lo) as real + lo as real < hi as real
  {
    ScaledBelow(rnd, (hi - lo) as real);
  }

  lemma ScaledBelow(rnd: real, width: real)
    requires 0.0 <= rnd < 1.0 && width > 0.0
    ensures 0.0 <= rnd * width < width
  {
    assert width - rnd * width == (1.0 - rnd) * width;
  }

  /** getTargetSize: 80 px shrinking by 5 per difficulty step, never below 30. */
  function TargetSize(difficulty: int): (r: int)
    ensures r >= 30
    ensures r == 30 <==> difficulty >= 10
  {
    Max(30, 80 - difficulty * 5)
  }

  lemma TargetSizeNonIncreasing(a: int, b: int)
    requires a <= b
    ensures TargetSize(b) <= TargetSize(a)
  {
  }

  /** getTotalRounds: 10 plus the difficulty, at most 20. */
  function TotalRounds(difficulty: int): (r: int)
    ensures r <= 20
    ensures r == 20 <==> difficulty >= 10
    ensures difficulty >= 1 ==> r >= 11
  {
    Min(20, 10 + difficulty)
  }

  // ---------------------------------------------------------------------
  // Metrics

  /** A round counts for timing when it was clicked, not a false start, and has a non-zero time. */
  predicate IsValidRound(rd: ReflexRound)
  {
    rd.clicked && !rd.falseStart && rd.reactionTime.Some? && rd.reactionTime.value != 0
  }

  /** The reaction times of the valid rounds, in round order. */
  function ValidTimes(rounds: seq<ReflexRound>): (r: seq<int>)
    ensures |r| <= |rounds|
    ensures forall t :: t in r <==>
      exists i :: 0 <= i < |rounds| && IsValidRound(rounds[i]) && rounds[i].reactionTime.value == t
  {
    if |rounds| == 0 then []
    else
      var last := rounds[|rounds| - 1];
      var init := rounds[..|rounds| - 1];
      var rest := ValidTimes(init);
      assert forall i :: 0 <= i < |init| ==> init[i] == rounds[i];
      if IsValidRound(last) then rest + [last.reactionTime.value] else rest
  }

  /** Filtering distributes over concatenation: the times keep the order of the rounds. */
  lemma {:induction false} ValidTimesAppend(a: seq<ReflexRound>, b: seq<ReflexRound>)
    ensures ValidTimes(a + b) == ValidTimes(a) + ValidTimes(b)
    decreases |b|
  {
    if |b| == 0 {
      assert a + b == a;
    } else {
      var b' := b[..|b| - 1];
      assert (a + b)[..|a + b| - 1] == a + b';
      assert (a + b)[|a + b| - 1] == b[|b| - 1];
      ValidTimesAppend(a, b');
    }
  }

  /** The number of false-start rounds. */
  function CountFalseStarts(rounds: seq<ReflexRound>): (r: nat)
    ensures r <= |rounds|
    ensures r == 0 <==> forall i :: 0 <= i < |rounds| ==> !rounds[i].falseStart
  {
    if |rounds| == 0 then 0
    else
      var init := rounds[..|rounds| - 1];
      assert forall i :: 0 <= i < |init| ==> init[i] == rounds[i];
      CountFalseStarts(init) + (if rounds[|rounds| - 1].falseStart then 1 else 0)
  }

  /** A round is a timed round or a false start, never both. */
  lemma {:induction false} TimedAndFalseStartsDisjoint(rounds: seq<ReflexRound>)
    ensures |ValidTimes(rounds)| + CountFalseStarts(rounds) <= |rounds|
  {
    if |rounds| > 0 {
      TimedAndFalseStartsDisjoint(rounds[..|rounds| - 1]);
    }
  }

  /** Recorded reaction times are never negative, as they are measured forwards in time. */
  predicate TimesNonNegative(rounds: seq<ReflexRound>)
  {
    forall i :: 0 <= i < |rounds| && rounds[i].reactionTime.Some? ==> rounds[i].reactionTime.value >= 0
  }

  /** With non-negative recorded times, every valid time is positive, so the mean is too. */
  lemma ValidTimesPositive(rounds: seq<ReflexRound>)
    requires TimesNonNegative(rounds)
    ensures forall k :: 0 <= k < |ValidTimes(rounds)| ==> ValidTimes(rounds)[k] > 0
    ensures |ValidTimes(rounds)| > 0 ==> Mean(ValidTimes(rounds)) > 0.0
  {
    var ts := ValidTimes(rounds);
    forall k | 0 <= k < |ts|
      ensures ts[k] > 0
    {
      assert ts[k] in ts;
    }
    if |ts| > 0 {
      MeanPositive(ts);
    }
  }

  /** Consistency: 1 - stddev / average for a positive average, 0 otherwise. */
  function Consistency(stdDev: real, averageTime: real): (c: real)
    requires stdDev >= 0.0
    ensures averageTime > 0.0 ==> c <= 1.0 && (c == 1.0 <==> stdDev == 0.0)
    ensures averageTime <= 0.0 ==> c == 0.0
  {
    if averageTime > 0.0 then 1.0 - stdDev / averageTime else 0.0
  }

  /**
   * calculateReflexMetrics. The standard deviation is taken only over two or
   * more times; consistency is 1 - stddev / average when the average is
   * positive and 0 otherwise.
   */
  function CalculateReflexMetrics(rounds: seq<ReflexRound>, sqrt: real -> real): (m: ReflexMetrics)
    requires IsSqrt(sqrt)
    ensures m.reactionTimes == ValidTimes(rounds)
    ensures m.falseStarts == CountFalseStarts(rounds)
    ensures |m.reactionTimes| == 0 ==> m.averageTime == 0.0 && m.bestTime == 0 && m.consistency == 0.0
    ensures |m.reactionTimes| > 0 ==>
      m.averageTime * |m.reactionTimes| as real == Sum(m.reactionTimes) as real &&
      m.bestTime in m.reactionTimes &&
      (forall k :: 0 <= k < |m.reactionTimes| ==> m.bestTime <= m.reactionTimes[k]) &&
      m.bestTime as real <= m.averageTime
    ensures m.averageTime > 0.0 ==> m.consistency <= 1.0
    ensures m.averageTime > 0.0 && |m.reactionTimes| < 2 ==> m.consistency == 1.0
    ensures m.averageTime <= 0.0 ==> m.consistency == 0.0
  {
    var times := ValidTimes(rounds);
    var averageTime := Mean(times);
    var bestTime := if |times| > 0 then MinOf(times) else 0;
    var falseStarts := CountFalseStarts(rounds);
    var stdDev := if |times| > 1 then sqrt(Variance(times)) else 0.0;
    assert stdDev >= 0.0;
    var consistency := Consistency(stdDev, averageTime);
    assert |times| > 0 ==> bestTime as real <= averageTime by {
      if |times| > 0 { MinAtMostMean(times); }
    }
    ReflexMetrics(times, averageTime, bestTime, consistency, falseStarts)
  }
}
