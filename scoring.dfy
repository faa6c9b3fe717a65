/**
 * The per-drill score formulas, the maximum-score table and the star grade
 * of src/services/scoring.ts. The source computes in doubles; the model
 * computes the same expressions in exact reals and floors them.
 */
module Scoring {
  import opened Types
  import opened Calculations

  // ---------------------------------------------------------------------
  // Reflex

  /**
   * The reflex score before flooring and clamping:
   * max(0, 1000 - mean) * (1 + 0.3 * consistency) - 50 * falseStarts,
   * with consistency = 1 - stddev / mean.
   */
  function ReflexPreFloor(m: ReflexMetrics, sqrt: real -> real): real
    requires IsSqrt(sqrt)
    requires |m.reactionTimes| > 0 && Mean(m.reactionTimes) != 0.0
  {
    var avgTime := Mean(m.reactionTimes);
    var consistency := 1.0 - StandardDeviation(m.reactionTimes, sqrt) / avgTime;
    var score := MaxReal(0.0, 1000.0 - avgTime);
    score * (1.0 + consistency * 0.3) - (m.falseStarts * 50) as real
  }

  /**
   * calculateReflexScore. A list whose mean is 0 would make the source divide
   * 0 by 0 (a NaN score); such lists are outside the model.
   */
  function ReflexScore(m: ReflexMetrics, sqrt: real -> real): (r: int)
    requires IsSqrt(sqrt)
    requires |m.reactionTimes| == 0 || Mean(m.reactionTimes) != 0.0
    ensures r >= 0
    ensures |m.reactionTimes| == 0 ==> r == 0
    ensures |m.reactionTimes| > 0 && Mean(m.reactionTimes) > 0.0 ==> r <= 1300
  {
    if |m.reactionTimes| == 0 then 0
    else
      var pre := ReflexPreFloor(m, sqrt);
      assert Mean(m.reactionTimes) > 0.0 ==> pre <= 1300.0 by {
        if Mean(m.reactionTimes) > 0.0 {
          ReflexPreFloorAtMost(m, sqrt);
        }
      }
      Max(0, pre.Floor)
  }

  lemma ReflexPreFloorAtMost(m: ReflexMetrics, sqrt: real -> real)
    requires IsSqrt(sqrt)
    requires |m.reactionTimes| > 0 && Mean(m.reactionTimes) > 0.0
    ensures ReflexPreFloor(m, sqrt) <= 1300.0
  {
    var avgTime := Mean(m.reactionTimes);
    var sd := StandardDeviation(m.reactionTimes, sqrt);
    var consistency := 1.0 - sd / avgTime;
    assert sd / avgTime >= 0.0;
    var base := MaxReal(0.0, 1000.0 - avgTime);
    var mult := 1.0 + consistency * 0.3;
    assert mult <= 1.3;
    assert 0.0 <= base <= 1000.0;
    assert base * mult <= base * 1.3;
  }

  /** Each false start lowers the unfloored reflex score by exactly 50. */
  lemma ReflexFalseStartPenalty(m: ReflexMetrics, sqrt: real -> real)
    requires IsSqrt(sqrt)
    requires |m.reactionTimes| > 0 && Mean(m.reactionTimes) != 0.0
    ensures ReflexPreFloor(m.(falseStarts := m.falseStarts + 1), sqrt)
         == ReflexPreFloor(m, sqrt) - 50.0
  {
  }

  /** Three reactions of 200 ms and no false start score floor(800 * 1.3) = 1040. */
  lemma ReflexScoreExample(sqrt: real -> real)
    requires IsSqrt(sqrt)
    ensures Mean([200, 200, 200]) == 200.0
    ensures ReflexScore(ReflexMetrics([200, 200, 200], 200.0, 200, 1.0, 0), sqrt) == 1040
  {
    var times := [200, 200, 200];
    assert times[..2] == [200, 200] && times[..2][..1] == [200] && [200][..0] == [];
    assert Sum(times) == 600;
    assert Mean(times) == 200.0;
    assert SquareDiffSum(times, 200.0) == 0.0;
    assert StandardDeviation(times, sqrt) == 0.0;
  }

  // ---------------------------------------------------------------------
  // Awareness

  /**
   * calculateAwarenessScore: 20 per hit, -10 per wrong click, times 1.5 when
   * every target was hit (hit rate 1) and no wrong click was made (precision 1).
   */
  function AwarenessScore(m: AwarenessMetrics): (r: int)
    ensures r >= 0
    ensures m.totalTargets == 0 ==> r == 0
    ensures m.totalTargets != 0 ==>
      r == Max(0, if m.targetsHit == m.totalTargets && m.wrongClicks == 0
                  then 30 * m.targetsHit
                  else 20 * m.targetsHit - 10 * m.wrongClicks)
  {
    if m.totalTargets == 0 then 0
    else
      var hitRate := m.targetsHit as real / m.totalTargets as real;
      var attempts := m.targetsHit + m.wrongClicks;
      // targetsHit / 0 is NaN, which is never equal to 1
      var precisionIsOne := attempts != 0 && m.targetsHit as real / attempts as real == 1.0;
      var score := (m.targetsHit * 20 - m.wrongClicks * 10) as real;
      assert hitRate == 1.0 <==> m.targetsHit == m.totalTargets by {
        RatioIsOne(m.targetsHit, m.totalTargets);
      }
      assert precisionIsOne <==> attempts != 0 && m.wrongClicks == 0 by {
        if attempts != 0 { RatioIsOne(m.targetsHit, attempts); }
      }
      var bonused := if hitRate == 1.0 && precisionIsOne then score * 1.5 else score;
      Max(0, bonused.Floor)
  }

  lemma RatioIsOne(a: int, b: int)
    requires b != 0
    ensures a as real / b as real == 1.0 <==> a == b
  {
    if a as real / b as real == 1.0 {
      assert a as real == (a as real / b as real) * b as real;
    }
  }

  /** Ten hits out of ten with no wrong click score floor(200 * 1.5) = 300. */
  lemma AwarenessScoreExample()
    ensures AwarenessScore(AwarenessMetrics(10, 0, 0, 10, 1.0, 1.0, 0.0)) == 300
  {
  }

  // ---------------------------------------------------------------------
  // Impulse

  /**
   * calculateImpulseScore: 100 per resisted round, 50 per perfect resist,
   * -50 per early click, times 1.5 when every round was resisted.
   */
  function ImpulseScore(m: ImpulseMetrics): (r: int)
    ensures r >= 0
    ensures var base := 100 * m.roundsResisted + 50 * m.perfectResists - 50 * m.clickedEarly;
      r == Max(0, if m.roundsResisted == m.totalRounds && m.totalRounds > 0 then 3 * base / 2 else base)
  {
    var totalScore := 0.0;
    var totalScore := totalScore + (m.roundsResisted * 100) as real;
    var totalScore := totalScore + (m.perfectResists * 50) as real;
    var totalScore := totalScore - (m.clickedEarly * 50) as real;
    var totalScore := if m.roundsResisted == m.totalRounds && m.totalRounds > 0
                      then totalScore * 1.5 else totalScore;
    Max(0, totalScore.Floor)
  }

  /** Six rounds, all resisted and perfect, score floor((600 + 300) * 1.5) = 1350. */
  lemma ImpulseScoreExample()
    ensures ImpulseScore(ImpulseMetrics(6, 6, 0, 0, 6, 0.0)) == 1350
  {
  }

  // ---------------------------------------------------------------------
  // Focus

  /** The long-streak bonus: +100 from 30 on and a further +200 from 60 on. */
  function FocusStreakBonus(longestStreak: int): (b: int)
    ensures longestStreak < 30 ==> b == 0
    ensures 30 <= longestStreak < 60 ==> b == 100
    ensures longestStreak >= 60 ==> b == 300
  {
    (if longestStreak >= 30 then 100 else 0) + (if longestStreak >= 60 then 200 else 0)
  }

  /** The focus score before flooring and clamping. */
  function FocusPreFloor(m: FocusMetrics): real
    requires m.totalTime != 0
  {
    var focusPercent := m.focusTime as real / m.totalTime as real;
    var score := focusPercent * 1000.0;
    var score := score - (m.breaks * 20) as real;
    var score := score + FocusStreakBonus(m.longestStreak) as real;
    var avgStreakLength := m.focusTime as real / (m.breaks + 1) as real;
    score + avgStreakLength * 5.0
  }

  /** calculateFocusScore; 0 when the total time is 0. */
  function FocusScore(m: FocusMetrics): (r: int)
    ensures r >= 0
    ensures m.totalTime == 0 ==> r == 0
  {
    if m.totalTime == 0 then 0 else Max(0, FocusPreFloor(m).Floor)
  }

  /** More focus time never lowers the focus score. */
  lemma FocusScoreMonotoneInFocusTime(m: FocusMetrics, extra: nat)
    requires m.totalTime > 0
    ensures FocusScore(m) <= FocusScore(m.(focusTime := m.focusTime + extra))
  {
    var m' := m.(focusTime := m.focusTime + extra);
    var t := m.totalTime as real;
    var b := (m.breaks + 1) as real;
    var f := m.focusTime as real;
    var e := extra as real;
    assert (f + e) / t == f / t + e / t;
    assert (f + e) / b == f / b + e / b;
    assert e / t >= 0.0 && e / b >= 0.0;
    assert FocusPreFloor(m') - FocusPreFloor(m) == (e / t) * 1000.0 + (e / b) * 5.0;
  }

  /** One more break never raises the focus score. */
  lemma FocusScoreBreakPenalty(m: FocusMetrics)
    requires m.totalTime != 0
    ensures FocusScore(m.(breaks := m.breaks + 1)) <= FocusScore(m)
  {
    var m' := m.(breaks := m.breaks + 1);
    var f := m.focusTime as real;
    var b := (m.breaks + 1) as real;
    assert f / (b + 1.0) <= f / b by {
      assert f / b - f / (b + 1.0) == f / (b * (b + 1.0));
    }
    assert FocusPreFloor(m') <= FocusPreFloor(m);
  }

  // ---------------------------------------------------------------------
  // Star grade

  /** The score a session of this drill at this difficulty is graded against. */
  function MaxScore(drillId: string, difficulty: int): (r: int)
    ensures difficulty >= 1 ==> r >= 600
    ensures drillId !in {IdName(Reflex), IdName(KeyboardReflex), IdName(Awareness), IdName(Impulse), IdName(Focus)}
            ==> r == 1000
  {
    if drillId == "reflex" || drillId == "keyboard-reflex" then 1300 * difficulty
    else if drillId == "awareness" then 600 * difficulty
    else if drillId == "impulse" then 750 * difficulty
    else if drillId == "focus" then 1500 * difficulty
    else 1000
  }

  /** Per-difficulty maxima of the configured drills. */
  lemma MaxScoreTable(d: int)
    ensures MaxScore(IdName(Reflex), d) == 1300 * d
    ensures MaxScore(IdName(KeyboardReflex), d) == 1300 * d
    ensures MaxScore(IdName(Awareness), d) == 600 * d
    ensures MaxScore(IdName(Impulse), d) == 750 * d
    ensures MaxScore(IdName(Focus), d) == 1500 * d
  {
  }

  /** calculateDrillStars: the star grade against the drill's maximum. */
  function DrillStars(score: int, drillId: string, difficulty: int): (r: int)
    ensures 1 <= r <= 5
  {
    Stars(score, MaxScore(drillId, difficulty))
  }

  /** For a fixed drill and difficulty >= 1, a higher score never earns fewer stars. */
  lemma DrillStarsMonotone(s1: int, s2: int, drillId: string, difficulty: int)
    requires difficulty >= 1 && s1 <= s2
    ensures DrillStars(s1, drillId, difficulty) <= DrillStars(s2, drillId, difficulty)
  {
    StarsMonotone(s1, s2, MaxScore(drillId, difficulty));
  }
}
