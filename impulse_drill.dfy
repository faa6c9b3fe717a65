/**
 * The impulse drill of src/components/drills/ImpulseDrill/ImpulseDrill.tsx:
 * after a countdown, each round an urge bar rises; clicking before it peaks
 * is an early click, and once it peaks the player must resist clicking for
 * the resist duration. Each round appends one entry to the round log.
 */
module ImpulseDrill {
  import opened Types
  import opened Calculations
  import opened Scoring
  import opened Progression
  import opened GameContext

  datatype Phase = Instructions | Waiting | Rising | Resisting | Feedback | Results

  /** One finished round. */
  datatype Round = Round(urgeLevel: real, resisted: bool, clickedEarly: bool, resistTime: int)

  // ---------------------------------------------------------------------
  // Difficulty parameters

  /** 6 to 15 rounds over the difficulties 1 to 10. */
  function TotalRounds(difficulty: int): (n: int)
    ensures 1 <= difficulty <= 10 ==> 6 <= n <= 15
    ensures difficulty >= 1 ==> n > 0
  {
    5 + difficulty
  }

  /** 17 s to 35 s over the difficulties 1 to 10. */
  function ResistDuration(difficulty: int): (t: int)
    ensures 1 <= difficulty <= 10 ==> 17000 <= t <= 35000
  {
    15000 + difficulty * 2000
  }

  function RiseSpeed(difficulty: int): (t: int)
    ensures t >= 1500
    ensures t == 1500 <==> difficulty >= 8
  {
    Max(3000 - difficulty * 200, 1500)
  }

  /**
   * The urge shown `elapsed` ms into the rise: it grows linearly and is
   * capped at 100 once the rise time has passed.
   */
  function UrgeLevel(elapsed: int, riseSpeed: int): (u: real)
    requires riseSpeed > 0
    ensures elapsed >= 0 ==> 0.0 <= u <= 100.0
    ensures u == 100.0 <==> elapsed >= riseSpeed
    ensures elapsed < riseSpeed ==> u * riseSpeed as real == 100.0 * elapsed as real
  {
    MinReal(elapsed as real / riseSpeed as real, 1.0) * 100.0
  }

  /** A longer rise never shows a lower urge. */
  lemma UrgeLevelMonotone(e1: int, e2: int, riseSpeed: int)
    requires riseSpeed > 0 && e1 <= e2
    ensures UrgeLevel(e1, riseSpeed) <= UrgeLevel(e2, riseSpeed)
  {
    var r := riseSpeed as real;
    assert e1 as real / r <= e2 as real / r by {
      DivMonotone(e1 as real, e2 as real, r);
    }
  }

  lemma DivMonotone(a: real, b: real, r: real)
    requires r > 0.0 && a <= b
    ensures a / r <= b / r
  {
    assert b / r - a / r == (b - a) / r;
  }

  /** The time left to resist, never below 0. */
  function Remaining(resistDuration: int, elapsed: int): (r: int)
    ensures r >= 0
    ensures r == 0 <==> elapsed >= resistDuration
    ensures elapsed >= 0 ==> r <= Max(0, resistDuration)
  {
    Max(0, resistDuration - elapsed)
  }

  // ---------------------------------------------------------------------
  // Metrics

  function CountResisted(rs: seq<Round>): (n: nat)
    ensures n <= |rs|
  {
    if |rs| == 0 then 0 else CountResisted(rs[..|rs| - 1]) + (if rs[|rs| - 1].resisted then 1 else 0)
  }

  function CountEarly(rs: seq<Round>): (n: nat)
    ensures n <= |rs|
  {
    if |rs| == 0 then 0 else CountEarly(rs[..|rs| - 1]) + (if rs[|rs| - 1].clickedEarly then 1 else 0)
  }

  /** Rounds lost by a click after the urge peaked: neither resisted nor early. */
  function CountDuringResist(rs: seq<Round>): (n: nat)
    ensures n <= |rs|
  {
    if |rs| == 0 then 0
    else CountDuringResist(rs[..|rs| - 1]) + (if !rs[|rs| - 1].resisted && !rs[|rs| - 1].clickedEarly then 1 else 0)
  }

  function CountPerfect(rs: seq<Round>, resistDuration: int): (n: nat)
    ensures n <= |rs|
  {
    if |rs| == 0 then 0
    else
      var last := rs[|rs| - 1];
      CountPerfect(rs[..|rs| - 1], resistDuration) + (if last.resisted && last.resistTime >= resistDuration then 1 else 0)
  }

  function ResistTimes(rs: seq<Round>): (ts: seq<int>)
    ensures |ts| == |rs|
    ensures forall i :: 0 <= i < |rs| ==> ts[i] == rs[i].resistTime
  {
    seq(|rs|, i requires 0 <= i < |rs| => rs[i].resistTime)
  }

  /**
   * A round as the drill records it: a resisted round lasted the whole
   * resist duration, an early click has no resist time, and a click while
   * resisting was made at full urge.
   */
  predicate WellFormed(r: Round, resistDuration: int)
  {
    !(r.resisted && r.clickedEarly) &&
    (r.resisted ==> r.resistTime == resistDuration && r.urgeLevel == 100.0) &&
    (r.clickedEarly ==> r.resistTime == 0 && 0.0 <= r.urgeLevel <= 100.0) &&
    (!r.resisted && !r.clickedEarly ==> r.resistTime >= 0 && r.urgeLevel == 100.0)
  }

  /**
   * In a well-formed log every round is exactly one of resisted, clicked
   * early and clicked while resisting, and every resisted round is perfect.
   */
  lemma {:induction false} RoundPartition(rs: seq<Round>, resistDuration: int)
    requires forall i :: 0 <= i < |rs| ==> WellFormed(rs[i], resistDuration)
    ensures CountResisted(rs) + CountEarly(rs) + CountDuringResist(rs) == |rs|
    ensures CountPerfect(rs, resistDuration) == CountResisted(rs)
  {
    if |rs| > 0 {
      RoundPartition(rs[..|rs| - 1], resistDuration);
      assert WellFormed(rs[|rs| - 1], resistDuration);
    }
  }

  /** The metrics of the results screen; the average resist time of no rounds is 0. */
  function MetricsOf(rounds: seq<Round>, resistDuration: int): (m: ImpulseMetrics)
    ensures m.totalRounds == |rounds|
    ensures m.roundsResisted == CountResisted(rounds) && m.clickedEarly == CountEarly(rounds)
    ensures m.clickedDuringResist == CountDuringResist(rounds)
    ensures m.perfectResists == CountPerfect(rounds, resistDuration)
    ensures |rounds| == 0 ==> m.averageResistTime == 0.0
    ensures |rounds| > 0 ==> m.averageResistTime * |rounds| as real == Sum(ResistTimes(rounds)) as real
  {
    ImpulseMetrics(|rounds|, CountResisted(rounds), CountEarly(rounds), CountDuringResist(rounds),
                   CountPerfect(rounds, resistDuration), Mean(ResistTimes(rounds)))
  }

  /** The impulse session the results screen reports. */
  function ResultSession(rounds: seq<Round>, difficulty: int, currentStreak: int,
                         startTime: int, endTime: int): (s: Session)
    ensures s.drillId == Impulse && s.startTime == startTime && s.endTime == endTime
    ensures s.metrics == ImpulseResult(MetricsOf(rounds, ResistDuration(difficulty)))
    ensures s.score == ImpulseScore(MetricsOf(rounds, ResistDuration(difficulty))) && s.score >= 0
    ensures 1 <= s.stars <= 5
    ensures s.pointsEarned == SessionXp(s.score, s.stars, difficulty, currentStreak)
  {
    var metrics := MetricsOf(rounds, ResistDuration(difficulty));
    var score := ImpulseScore(metrics);
    var stars := DrillStars(score, IdName(Impulse), difficulty);
    var xp := SessionXp(score, stars, difficulty, currentStreak);
    Session(Impulse, startTime, endTime, score, stars, xp, ImpulseResult(metrics))
  }

  /**
   * A well-formed log in which every round was resisted scores one and a
   * half times 150 points per round.
   */
  lemma AllResistedScore(rounds: seq<Round>, resistDuration: int)
    requires |rounds| > 0
    requires forall i :: 0 <= i < |rounds| ==> WellFormed(rounds[i], resistDuration) && rounds[i].resisted
    ensures ImpulseScore(MetricsOf(rounds, resistDuration)) == 225 * |rounds|
  {
    RoundPartition(rounds, resistDuration);
    AllResistedCount(rounds);
  }

  lemma {:induction false} AllResistedCount(rs: seq<Round>)
    requires forall i :: 0 <= i < |rs| ==> rs[i].resisted && !rs[i].clickedEarly
    ensures CountResisted(rs) == |rs| && CountEarly(rs) == 0
  {
    if |rs| > 0 {
      AllResistedCount(rs[..|rs| - 1]);
    }
  }

  // ---------------------------------------------------------------------
  // The drill

  class Drill {
    const game: GameProvider
    const difficulty: int
    const totalRounds: int
    const resistDuration: int
    const riseSpeed: int
    const sessionStartTime: int

    var phase: Phase
    var countdown: int
    var currentRound: int
    var rounds: seq<Round>
    var urgeLevel: real
    var riseStartTime: int
    var resistStartTime: int
    var resistTimer: int

    /** What holds in every phase, including between the steps of one event. */
    predicate Common()
      reads this, game, game.store
    {
      game.Valid() && CommonState()
    }

    /** The part of Common() about the drill's own fields. */
    predicate CommonState()
      reads this
    {
      difficulty >= 1 &&
      totalRounds == TotalRounds(difficulty) &&
      resistDuration == ResistDuration(difficulty) &&
      riseSpeed == RiseSpeed(difficulty) &&
      0.0 <= urgeLevel <= 100.0 &&
      forall i :: 0 <= i < |rounds| ==> WellFormed(rounds[i], resistDuration)
    }

    /**
     * One log entry per finished round; during a round the log holds the
     * rounds before it; the resist timer counts down from the resist
     * duration; at the results every round is logged.
     */
    predicate Valid()
      reads this, game, game.store
    {
      game.Valid() && State()
    }

    /** The part of Valid() about the drill's own fields. */
    predicate State()
      reads this
    {
      CommonState() &&
      match phase
      case Instructions => 0 <= countdown <= 3 && currentRound == 0 && rounds == []
      case Waiting | Rising => 0 <= currentRound < totalRounds && |rounds| == currentRound
      case Resisting =>
        0 <= currentRound < totalRounds && |rounds| == currentRound &&
        0 <= resistTimer <= resistDuration
      case Feedback => 0 <= currentRound < totalRounds && |rounds| == currentRound + 1
      case Results => currentRound == totalRounds && |rounds| == totalRounds
    }

    constructor(game: GameProvider, now: int)
      requires game.Valid()
      requires DifficultyFor(game.userStats, Impulse) >= 1
      ensures Valid() && this.game == game
      ensures difficulty == DifficultyFor(game.userStats, Impulse)
      ensures sessionStartTime == now
      ensures phase == Instructions && countdown == 3 && currentRound == 0 && rounds == []
    {
      var d := DifficultyFor(game.userStats, Impulse);
      this.game := game;
      difficulty := d;
      totalRounds := TotalRounds(d);
      resistDuration := ResistDuration(d);
      riseSpeed := RiseSpeed(d);
      sessionStartTime := now;
      phase := Instructions;
      countdown := 3;
      currentRound := 0;
      rounds := [];
      urgeLevel := 0.0;
      riseStartTime := 0;
      resistStartTime := 0;
      resistTimer := 0;
    }

    /** The results: scored from the round log and completed with the provider, once. */
    method ShowResults(now: int) returns (s: Session)
      requires Common()
      requires currentRound == totalRounds && |rounds| == totalRounds
      modifies this, game
      ensures Valid() && phase == Results
      ensures unchanged(this`countdown, this`currentRound, this`rounds)
      ensures s == ResultSession(rounds, difficulty, old(game.userStats.currentStreak), sessionStartTime, now)
      ensures game.pending == old(game.pending) + [s]
    {
      phase := Results;
      s := ResultSession(rounds, difficulty, game.userStats.currentStreak, sessionStartTime, now);
      game.CompleteSession(s);
    }

    /** startNextRound: the next round waits with the urge reset, or the drill ends. */
    method StartNextRound(now: int) returns (completed: Option<Session>)
      requires Common()
      requires |rounds| == currentRound && 0 <= currentRound <= totalRounds
      modifies this, game
      ensures Valid()
      ensures currentRound == old(currentRound) && rounds == old(rounds) && countdown == old(countdown)
      ensures old(currentRound) >= totalRounds ==>
        phase == Results && completed.Some? &&
        completed.value == ResultSession(rounds, difficulty, old(game.userStats.currentStreak), sessionStartTime, now) &&
        game.pending == old(game.pending) + [completed.value]
      ensures old(currentRound) < totalRounds ==>
        phase == Waiting && urgeLevel == 0.0 && completed.None? && unchanged(game)
    {
      if currentRound >= totalRounds {
        var s := ShowResults(now);
        return Some(s);
      }
      phase := Waiting;
      urgeLevel := 0.0;
      completed := None;
    }

    /** One second of the instructions countdown; at 0 the first round starts. */
    method CountdownTick(now: int) returns (completed: Option<Session>)
      requires Valid()
      modifies this, game
      ensures Valid()
      ensures old(phase) != Instructions ==> unchanged(this, game) && completed.None?
      ensures old(phase) == Instructions && old(countdown) > 1 ==>
        countdown == old(countdown) - 1 && phase == Instructions && unchanged(game)
      ensures old(phase) == Instructions && old(countdown) <= 1 ==>
        countdown == 0 && phase == Waiting && currentRound == 0 && rounds == [] &&
        completed.None? && unchanged(game)
    {
      completed := None;
      if phase == Instructions {
        if countdown > 0 {
          countdown := countdown - 1;
        }
        if countdown == 0 {
          completed := StartNextRound(now);
        }
      }
    }

    /** The random wait is over: the urge starts rising. */
    method WaitElapsed(now: int)
      requires Valid()
      modifies this
      ensures Valid()
      ensures old(phase) != Waiting ==> unchanged(this)
      ensures old(phase) == Waiting ==>
        phase == Rising && riseStartTime == now && unchanged(this`rounds, this`currentRound, this`urgeLevel)
    {
      if phase == Waiting {
        phase := Rising;
        riseStartTime := now;
      }
    }

    /**
     * One animation frame of the rise: the urge follows the elapsed time,
     * and when it peaks the resist period starts with the full duration on
     * the timer.
     */
    method AnimationFrame(now: int)
      requires Valid()
      requires phase == Rising ==> now >= riseStartTime
      modifies this
      ensures Valid()
      ensures old(phase) != Rising ==> unchanged(this)
      ensures old(phase) == Rising ==>
        urgeLevel == UrgeLevel(now - riseStartTime, riseSpeed) &&
        unchanged(this`rounds, this`currentRound, this`riseStartTime)
      ensures old(phase) == Rising && now - riseStartTime < riseSpeed ==> phase == Rising
      ensures old(phase) == Rising && now - riseStartTime >= riseSpeed ==>
        phase == Resisting && resistStartTime == now && resistTimer == resistDuration
    {
      if phase == Rising {
        var elapsed := now - riseStartTime;
        urgeLevel := UrgeLevel(elapsed, riseSpeed);
        if elapsed >= riseSpeed {
          phase := Resisting;
          resistStartTime := now;
          resistTimer := resistDuration;
        }
      }
    }

    /**
     * The 50 ms resist interval: the timer shows the time left, and when
     * none is left the round is logged as resisted for the full duration.
     */
    method ResistTick(now: int)
      requires Valid()
      requires phase == Resisting ==> now >= resistStartTime
      modifies this
      ensures Valid()
      ensures old(phase) != Resisting ==> unchanged(this)
      ensures old(phase) == Resisting ==>
        resistTimer == Remaining(resistDuration, now - resistStartTime) && currentRound == old(currentRound)
      ensures old(phase) == Resisting && now - resistStartTime < resistDuration ==>
        phase == Resisting && rounds == old(rounds)
      ensures old(phase) == Resisting && now - resistStartTime >= resistDuration ==>
        phase == Feedback && rounds == old(rounds) + [Round(100.0, true, false, resistDuration)]
    {
      if phase == Resisting {
        var remaining := Remaining(resistDuration, now - resistStartTime);
        resistTimer := remaining;
        if remaining == 0 {
          rounds := rounds + [Round(100.0, true, false, resistDuration)];
          phase := Feedback;
        }
      }
    }

    /**
     * handleClick: during the rise the round is lost as an early click at
     * the urge shown; while resisting it is lost with the time resisted so
     * far; in every other phase a click does nothing.
     */
    method Click(now: int)
      requires Valid()
      requires phase == Resisting ==> now >= resistStartTime
      modifies this
      ensures Valid()
      ensures old(phase) != Rising && old(phase) != Resisting ==> unchanged(this)
      ensures old(phase) == Rising ==>
        phase == Feedback && rounds == old(rounds) + [Round(old(urgeLevel), false, true, 0)]
      ensures old(phase) == Resisting ==>
        phase == Feedback && rounds == old(rounds) + [Round(100.0, false, false, now - resistStartTime)]
      ensures currentRound == old(currentRound)
    {
      if phase == Rising {
        rounds := rounds + [Round(urgeLevel, false, true, 0)];
        phase := Feedback;
      } else if phase == Resisting {
        var resistTime := now - resistStartTime;
        rounds := rounds + [Round(100.0, false, false, resistTime)];
        phase := Feedback;
      }
    }

    /**
     * The 1.5 s feedback pause is over: the round index moves on, and the
     * drill either ends or starts the next round.
     */
    method FeedbackDone(now: int) returns (completed: Option<Session>)
      requires Valid()
      modifies this, game
      ensures Valid()
      ensures old(phase) != Feedback ==> unchanged(this, game) && completed.None?
      ensures old(phase) == Feedback ==> currentRound == old(currentRound) + 1 && rounds == old(rounds)
      ensures old(phase) == Feedback && currentRound >= totalRounds ==>
        phase == Results && completed.Some? &&
        completed.value == ResultSession(rounds, difficulty, old(game.userStats.currentStreak), sessionStartTime, now) &&
        game.pending == old(game.pending) + [completed.value]
      ensures old(phase) == Feedback && currentRound < totalRounds ==>
        phase == Waiting && completed.None? && unchanged(game)
    {
      completed := None;
      if phase == Feedback {
        var nextRound := currentRound + 1;
        currentRound := nextRound;
        if nextRound >= totalRounds {
          var s := ShowResults(now);
          completed := Some(s);
        } else {
          completed := StartNextRound(now);
        }
      }
    }

    /**
     * At the results the log holds every round, each exactly one outcome,
     * and every resisted round counts as perfect.
     */
    lemma ResultsPartition()
      requires Valid() && phase == Results
      ensures var m := MetricsOf(rounds, resistDuration);
        m.totalRounds == totalRounds &&
        m.roundsResisted + m.clickedEarly + m.clickedDuringResist == totalRounds &&
        m.perfectResists == m.roundsResisted
    {
      RoundPartition(rounds, resistDuration);
    }
  }
}
