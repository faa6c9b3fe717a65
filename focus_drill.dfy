/**
 * The focus drill of src/components/drills/FocusDrill/FocusDrill.tsx: after
 * a countdown, the player keeps the cursor on a moving target for the
 * session duration while distractors drift across the screen. Two 100 ms
 * intervals run while the drill is active: one counts the time down, the
 * other counts focus time, the current and longest in-target streak, and
 * breaks (a streak that ends).
 */
module FocusDrill {
  import opened Types
  import opened Calculations
  import opened Scoring
  import opened Progression
  import opened GameContext

  datatype Phase = Instructions | Active | Results

  /**
   * A drifting distractor: position in percent, speed in percent per frame,
   * and direction as a fraction of a full turn.
   */
  datatype Distractor = Distractor(x: real, y: real, speed: real, turns: real)

  // ---------------------------------------------------------------------
  // Difficulty parameters

  /** 70 s to 160 s over the difficulties 1 to 10. */
  function SessionDuration(difficulty: int): (t: int)
    ensures 1 <= difficulty <= 10 ==> 70000 <= t <= 160000
    ensures difficulty >= 1 ==> t > 0
  {
    60000 + difficulty * 10000
  }

  function TargetRadius(difficulty: int): (r: int)
    ensures r >= 15
    ensures r == 15 <==> difficulty >= 8
  {
    Max(30 - difficulty * 2, 15)
  }

  function DistractorCount(difficulty: int): (n: int)
    ensures n <= 20
    ensures difficulty >= 1 ==> n >= 2
  {
    Min(difficulty * 2, 20)
  }

  /**
   * The distractors of startDrill, one per index, each drawn from four
   * random numbers in [0, 1): position anywhere on the screen, speed in
   * [0.2, 0.5), any direction.
   */
  function MakeDistractors(count: int, rnd: nat -> real): (ds: seq<Distractor>)
    requires forall k :: 0.0 <= rnd(k) < 1.0
    ensures |ds| == Max(0, count)
    ensures forall i :: 0 <= i < |ds| ==>
      0.0 <= ds[i].x < 100.0 && 0.0 <= ds[i].y < 100.0 &&
      0.2 <= ds[i].speed < 0.5 && 0.0 <= ds[i].turns < 1.0
  {
    seq(Max(0, count), i requires 0 <= i =>
      Distractor(rnd(4 * i) * 100.0, rnd(4 * i + 1) * 100.0, 0.2 + rnd(4 * i + 2) * 0.3, rnd(4 * i + 3)))
  }

  /**
   * handleMouseMove's test: the cursor is within the target radius, which
   * is given in pixels and converted to percent of the container width.
   */
  function InTarget(mouse: Point, target: Point, targetRadius: int, rectWidth: real,
                    sqrt: real -> real): (b: bool)
    requires rectWidth > 0.0
  {
    var dx := mouse.x - target.x;
    var dy := mouse.y - target.y;
    sqrt(dx * dx + dy * dy) <= (targetRadius as real / rectWidth) * 100.0
  }

  /** A cursor on the target's centre is on the target. */
  lemma CentreInTarget(target: Point, targetRadius: int, rectWidth: real, sqrt: real -> real)
    requires IsSqrt(sqrt) && rectWidth > 0.0 && targetRadius >= 0
    ensures InTarget(target, target, targetRadius, rectWidth, sqrt)
  {
    assert (target.x - target.x) * (target.x - target.x) + (target.y - target.y) * (target.y - target.y) == 0.0;
    assert targetRadius as real / rectWidth >= 0.0;
  }

  // ---------------------------------------------------------------------
  // Metrics

  /**
   * The metrics of the results screen: the whole session counts as total
   * time, and the average streak is focus time per break (all of the focus
   * time when there was no break).
   */
  function MetricsOf(focusTime: nat, breaks: nat, longestStreak: int, totalTime: int): (m: FocusMetrics)
    ensures m.focusTime == focusTime && m.breaks == breaks && m.longestStreak == longestStreak
    ensures m.totalTime == totalTime
    ensures totalTime != 0 ==> m.focusPercentage * totalTime as real == focusTime as real * 100.0
    ensures breaks > 0 ==> m.averageStreakLength * breaks as real == focusTime as real
    ensures breaks == 0 ==> m.averageStreakLength == focusTime as real
  {
    var focusPercentage := if totalTime == 0 then 0.0 else (focusTime as real / totalTime as real) * 100.0;
    var averageStreakLength := if breaks > 0 then focusTime as real / breaks as real else focusTime as real;
    FocusMetrics(focusTime, totalTime, focusPercentage, breaks, longestStreak, averageStreakLength)
  }

  /**
   * Counters the drill can reach: the current streak is whole ticks and no
   * longer than the longest, the longest no longer than the focus time, and
   * every break ended a streak of at least one tick.
   */
  predicate CountersConsistent(focusTime: nat, breaks: nat, currentStreak: int, longestStreak: int)
  {
    currentStreak % 100 == 0 && 0 <= currentStreak <= longestStreak <= focusTime &&
    100 * breaks + currentStreak <= focusTime
  }

  /** With consistent counters the average streak is at least one tick and at most the focus time. */
  lemma AverageStreakBounds(focusTime: nat, breaks: nat, currentStreak: int, longestStreak: int, totalTime: int)
    requires CountersConsistent(focusTime, breaks, currentStreak, longestStreak)
    ensures var m := MetricsOf(focusTime, breaks, longestStreak, totalTime);
      m.averageStreakLength <= focusTime as real &&
      (breaks > 0 ==> m.averageStreakLength >= 100.0)
  {
    if breaks > 0 {
      QuotientBounds(focusTime as real, breaks as real);
    }
  }

  /** f / b lies between 100 and f when b >= 1 ticks fit in f. */
  lemma QuotientBounds(f: real, b: real)
    requires b >= 1.0 && f >= 100.0 * b
    ensures 100.0 <= f / b <= f
  {
    var q := f / b;
    assert q * b == f;
    assert (q - 100.0) * b == f - 100.0 * b;
    assert f - q == q * (b - 1.0);
  }

  /** The focus session the results screen reports. */
  function ResultSession(focusTime: nat, breaks: nat, longestStreak: int, difficulty: int,
                         currentStreak: int, startTime: int, endTime: int): (s: Session)
    ensures s.drillId == Focus && s.startTime == startTime && s.endTime == endTime
    ensures s.metrics == FocusResult(MetricsOf(focusTime, breaks, longestStreak, SessionDuration(difficulty)))
    ensures s.score == FocusScore(MetricsOf(focusTime, breaks, longestStreak, SessionDuration(difficulty)))
    ensures s.score >= 0
    ensures 1 <= s.stars <= 5
    ensures s.pointsEarned == SessionXp(s.score, s.stars, difficulty, currentStreak)
  {
    var metrics := MetricsOf(focusTime, breaks, longestStreak, SessionDuration(difficulty));
    var score := FocusScore(metrics);
    var stars := DrillStars(score, IdName(Focus), difficulty);
    var xp := SessionXp(score, stars, difficulty, currentStreak);
    Session(Focus, startTime, endTime, score, stars, xp, FocusResult(metrics))
  }

  /**
   * The session that showResults reports as written: it runs inside the
   * countdown interval, which was set up when the drill became active, and
   * so reads the counters as they were then, all 0.
   */
  function StaleResultSession(difficulty: int, currentStreak: int, startTime: int, endTime: int): (s: Session)
    ensures s.drillId == Focus && s.startTime == startTime && s.endTime == endTime
    ensures s.metrics.FocusResult? && s.metrics.focus.focusTime == 0 && s.metrics.focus.breaks == 0
    ensures s.score == 0
  {
    ResultSession(0, 0, 0, difficulty, currentStreak, startTime, endTime)
  }

  /**
   * As written, every focus session scores 0: even a session spent wholly
   * on the target without a break, which the corrected results score at
   * 1000 or more.
   */
  lemma StaleResultsIgnorePlay(difficulty: int, currentStreak: int, startTime: int, endTime: int)
    requires difficulty >= 1
    ensures StaleResultSession(difficulty, currentStreak, startTime, endTime).score == 0
    ensures ResultSession(SessionDuration(difficulty), 0, SessionDuration(difficulty), difficulty,
                          currentStreak, startTime, endTime).score >= 1000
  {
    var duration := SessionDuration(difficulty);
    var full := MetricsOf(duration, 0, duration, duration);
    var d := duration as real;
    assert d / d == 1.0;
    assert d / 1.0 == d;
    assert FocusPreFloor(full) == 1000.0 + 300.0 + d * 5.0;
  }

  // ---------------------------------------------------------------------
  // The drill

  class Drill {
    const game: GameProvider
    const difficulty: int
    const sessionDuration: int
    const targetRadius: int
    const distractorCount: int
    const sessionStartTime: int

    var phase: Phase
    var countdown: int
    var timeRemaining: int
    var targetPosition: Point
    var cursorInTarget: bool
    var lastInTarget: bool
    var streakStartTime: int
    var focusTime: nat
    var breaks: nat
    var currentStreak: int
    var longestStreak: int
    var distractors: seq<Distractor>

    /** What holds in every phase, including between the steps of one event. */
    predicate Common()
      reads this, game, game.store
    {
      game.Valid() && CommonState()
    }

    /** The part of Common() about the drill's own fields. */
    predicate CommonState()
      reads this
    {
      difficulty >= 1 &&
      sessionDuration == SessionDuration(difficulty) &&
      targetRadius == TargetRadius(difficulty) &&
      distractorCount == DistractorCount(difficulty) &&
      0 <= timeRemaining <= sessionDuration &&
      CountersConsistent(focusTime, breaks, currentStreak, longestStreak)
    }

    /**
     * Before the drill the counters are 0 and the full time is left; while
     * active the distractors are on screen; the results come when no time
     * is left.
     */
    predicate Valid()
      reads this, game, game.store
    {
      game.Valid() && State()
    }

    /** The part of Valid() about the drill's own fields. */
    predicate State()
      reads this
    {
      CommonState() &&
      match phase
      case Instructions =>
        0 <= countdown <= 3 && timeRemaining == sessionDuration &&
        focusTime == 0 && breaks == 0 && longestStreak == 0 && distractors == []
      case Active => |distractors| == distractorCount
      case Results => timeRemaining == 0
    }

    constructor(game: GameProvider, now: int)
      requires game.Valid()
      requires DifficultyFor(game.userStats, Focus) >= 1
      ensures Valid() && this.game == game
      ensures difficulty == DifficultyFor(game.userStats, Focus)
      ensures sessionStartTime == now && phase == Instructions && countdown == 3
      ensures timeRemaining == sessionDuration && targetPosition == Point(50.0, 50.0)
    {
      var d := DifficultyFor(game.userStats, Focus);
      this.game := game;
      difficulty := d;
      sessionDuration := SessionDuration(d);
      targetRadius := TargetRadius(d);
      distractorCount := DistractorCount(d);
      sessionStartTime := now;
      phase := Instructions;
      countdown := 3;
      timeRemaining := SessionDuration(d);
      targetPosition := Point(50.0, 50.0);
      cursorInTarget := false;
      lastInTarget := false;
      streakStartTime := 0;
      focusTime := 0;
      breaks := 0;
      currentStreak := 0;
      longestStreak := 0;
      distractors := [];
    }

    /** One second of the instructions countdown; at 0 the drill starts with its distractors. */
    method CountdownTick(rnd: nat -> real)
      requires Valid()
      requires forall k :: 0.0 <= rnd(k) < 1.0
      modifies this
      ensures Valid()
      ensures old(phase) != Instructions ==> unchanged(this)
      ensures old(phase) == Instructions && old(countdown) > 1 ==>
        phase == Instructions && countdown == old(countdown) - 1
      ensures old(phase) == Instructions && old(countdown) <= 1 ==>
        phase == Active && countdown == 0 && distractors == MakeDistractors(distractorCount, rnd)
      ensures unchanged(this`focusTime, this`breaks, this`currentStreak, this`longestStreak, this`timeRemaining)
    {
      if phase == Instructions {
        if countdown > 0 {
          countdown := countdown - 1;
        }
        if countdown == 0 {
          phase := Active;
          distractors := MakeDistractors(distractorCount, rnd);
        }
      }
    }

    /** The results: scored from the counters and completed with the provider, once. */
    method ShowResults(now: int) returns (s: Session)
      requires Common() && timeRemaining == 0
      modifies this, game
      ensures Valid() && phase == Results
      ensures unchanged(this`focusTime, this`breaks, this`currentStreak, this`longestStreak, this`timeRemaining)
      ensures s == ResultSession(focusTime, breaks, longestStreak, difficulty,
                                 old(game.userStats.currentStreak), sessionStartTime, now)
      ensures game.pending == old(game.pending) + [s]
    {
      phase := Results;
      s := ResultSession(focusTime, breaks, longestStreak, difficulty, game.userStats.currentStreak,
                         sessionStartTime, now);
      game.CompleteSession(s);
    }

    /** The 100 ms countdown interval: 100 ms less to go; at 0 the results are shown. */
    method TimerTick(now: int) returns (completed: Option<Session>)
      requires Valid()
      modifies this, game
      ensures Valid()
      ensures old(phase) != Active ==> unchanged(this, game) && completed.None?
      ensures old(phase) == Active ==> timeRemaining == Max(0, old(timeRemaining) - 100)
      ensures old(phase) == Active && timeRemaining > 0 ==>
        phase == Active && completed.None? && unchanged(game)
      ensures old(phase) == Active && timeRemaining == 0 ==>
        phase == Results && completed.Some? &&
        completed.value == ResultSession(focusTime, breaks, longestStreak, difficulty,
                                         old(game.userStats.currentStreak), sessionStartTime, now) &&
        game.pending == old(game.pending) + [completed.value]
      ensures unchanged(this`focusTime, this`breaks, this`currentStreak, this`longestStreak)
    {
      completed := None;
      if phase == Active {
        var newTime := Max(0, timeRemaining - 100);
        timeRemaining := newTime;
        if newTime == 0 {
          var s := ShowResults(now);
          completed := Some(s);
        }
      }
    }

    /**
     * The 100 ms focus interval: on the target, focus time and the streak
     * grow by a tick and the longest streak follows; off the target, a
     * running streak counts as a break and the streak restarts.
     */
    method FocusTick()
      requires Valid()
      modifies this
      ensures Valid()
      ensures old(phase) != Active ==> unchanged(this)
      ensures old(phase) == Active && cursorInTarget ==>
        focusTime == old(focusTime) + 100 && currentStreak == old(currentStreak) + 100 &&
        longestStreak == Max(old(longestStreak), currentStreak) && breaks == old(breaks)
      ensures old(phase) == Active && !cursorInTarget ==>
        focusTime == old(focusTime) && currentStreak == 0 && longestStreak == old(longestStreak) &&
        breaks == old(breaks) + (if old(currentStreak) > 0 then 1 else 0)
      ensures phase == old(phase) && unchanged(this`timeRemaining, this`distractors, this`cursorInTarget)
    {
      if phase == Active {
        if cursorInTarget {
          focusTime := focusTime + 100;
          var newStreak := currentStreak + 100;
          currentStreak := newStreak;
          longestStreak := Max(longestStreak, newStreak);
        } else {
          if currentStreak > 0 {
            breaks := breaks + 1;
          }
          currentStreak := 0;
        }
      }
    }

    /**
     * handleMouseMove: whether the cursor is on the target; entering the
     * target notes when the streak started.
     */
    method MouseMove(mouse: Point, rectWidth: real, now: int, sqrt: real -> real)
      requires Valid() && rectWidth > 0.0
      modifies this
      ensures Valid()
      ensures old(phase) != Active ==> unchanged(this)
      ensures old(phase) == Active ==>
        cursorInTarget == InTarget(mouse, targetPosition, targetRadius, rectWidth, sqrt) &&
        lastInTarget == cursorInTarget &&
        streakStartTime == (if cursorInTarget && !old(lastInTarget) then now else old(streakStartTime))
      ensures unchanged(this`focusTime, this`breaks, this`currentStreak, this`longestStreak, this`timeRemaining)
    {
      if phase == Active {
        var inTarget := InTarget(mouse, targetPosition, targetRadius, rectWidth, sqrt);
        cursorInTarget := inTarget;
        if inTarget && !lastInTarget {
          streakStartTime := now;
        }
        lastInTarget := inTarget;
      }
    }

    /** An animation frame moved the target. */
    method TargetMoved(p: Point)
      requires Valid()
      modifies this
      ensures Valid()
      ensures old(phase) != Active ==> unchanged(this)
      ensures old(phase) == Active ==> targetPosition == p
      ensures unchanged(this`focusTime, this`breaks, this`currentStreak, this`longestStreak, this`timeRemaining)
    {
      if phase == Active {
        targetPosition := p;
      }
    }

    /** At the results the reported average streak lies between one tick and the focus time. */
    lemma ResultsAverageStreak()
      requires Valid() && phase == Results
      ensures var m := MetricsOf(focusTime, breaks, longestStreak, sessionDuration);
        m.longestStreak <= m.focusTime && m.averageStreakLength <= m.focusTime as real &&
        (m.breaks > 0 ==> m.averageStreakLength >= 100.0)
    {
      AverageStreakBounds(focusTime, breaks, currentStreak, longestStreak, sessionDuration);
    }
  }
}
