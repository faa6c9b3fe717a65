/**
 * The keyboard reflex drill of
 * src/components/drills/KeyboardReflexDrill/KeyboardReflexDrill.tsx: a
 * countdown, then rounds in which the player waits for the signal and
 * presses SPACE. Each timer firing and each key press is one method; the
 * results are scored once and handed to the provider.
 */
module KeyboardReflexDrill {
  import opened Types
  import opened Calculations
  import opened Scoring
  import opened Progression
  import opened ReflexLogic
  import opened GameContext

  datatype Phase = Instructions | Waiting | Active | Feedback | Results

  /** The round appended when a round starts: its wait, not yet answered. */
  function NewRound(difficulty: int, rnd: real): (rd: ReflexRound)
    requires 0.0 <= rnd < 1.0
    ensures !rd.clicked && !rd.falseStart && rd.reactionTime.None?
    ensures MinDelay(difficulty) as real <= rd.delay < MaxDelay(difficulty) as real
  {
    ReflexRound(GenerateDelay(difficulty, rnd), None, false, false)
  }

  /**
   * The session the results screen reports: the reflex metrics of the
   * round log, their score and star grade, and the session experience.
   */
  function ResultSession(rounds: seq<ReflexRound>, difficulty: int, currentStreak: int,
                         startTime: int, endTime: int, sqrt: real -> real): (s: Session)
    requires IsSqrt(sqrt) && TimesNonNegative(rounds)
    ensures s.drillId == KeyboardReflex && s.startTime == startTime && s.endTime == endTime
    ensures s.metrics == ReflexResult(CalculateReflexMetrics(rounds, sqrt))
    ensures 0 <= s.score <= 1300
    ensures 1 <= s.stars <= 5
    ensures s.pointsEarned == SessionXp(s.score, s.stars, difficulty, currentStreak)
  {
    var metrics := CalculateReflexMetrics(rounds, sqrt);
    ValidTimesPositive(rounds);
    var score := ReflexScore(metrics, sqrt);
    var stars := DrillStars(score, IdName(KeyboardReflex), difficulty);
    var xp := SessionXp(score, stars, difficulty, currentStreak);
    Session(KeyboardReflex, startTime, endTime, score, stars, xp, ReflexResult(metrics))
  }

  class Drill {
    const game: GameProvider
    const difficulty: int
    const totalRounds: int
    const sessionStartTime: int

    var phase: Phase
    var countdown: int
    var currentRound: int
    var rounds: seq<ReflexRound>
    var targetVisible: bool
    var roundStartTime: int

    /**
     * The round log has one entry per started round; rounds before the
     * current one were answered; the target shows exactly in the active
     * phase; at the results every one of the totalRounds rounds was answered.
     */
    predicate Valid()
      reads this, game, game.store
    {
      game.Valid() && State()
    }

    /** The part of Valid() about the drill's own fields. */
    predicate State()
      reads this
    {
      CommonState() &&
      (targetVisible <==> phase == Active) &&
      match phase
      case Instructions =>
        0 <= countdown <= 3 && currentRound == 0 && rounds == []
      case Waiting | Active =>
        0 <= currentRound < totalRounds && |rounds| == currentRound + 1 &&
        !rounds[currentRound].clicked && !rounds[currentRound].falseStart &&
        rounds[currentRound].reactionTime.None?
      case Feedback =>
        0 <= currentRound < totalRounds && |rounds| == currentRound + 1 &&
        rounds[currentRound].clicked
      case Results =>
        currentRound == Max(0, totalRounds) && |rounds| == currentRound
    }

    /** What holds in every phase, including between the steps of one event. */
    predicate Common()
      reads this, game, game.store
    {
      game.Valid() && CommonState()
    }

    /** The part of Common() about the drill's own fields. */
    predicate CommonState()
      reads this
    {
      totalRounds == TotalRounds(difficulty) &&
      TimesNonNegative(rounds) &&
      (forall i :: 0 <= i < |rounds| ==>
         MinDelay(difficulty) as real <= rounds[i].delay < MaxDelay(difficulty) as real) &&
      (forall i :: 0 <= i < currentRound && i < |rounds| ==> rounds[i].clicked)
    }

    constructor(game: GameProvider, now: int)
      requires game.Valid()
      ensures Valid() && this.game == game
      ensures difficulty == DifficultyFor(game.userStats, KeyboardReflex)
      ensures sessionStartTime == now
      ensures phase == Instructions && countdown == 3 && currentRound == 0 && rounds == []
    {
      this.game := game;
      difficulty := DifficultyFor(game.userStats, KeyboardReflex);
      totalRounds := TotalRounds(DifficultyFor(game.userStats, KeyboardReflex));
      sessionStartTime := now;
      phase := Instructions;
      countdown := 3;
      currentRound := 0;
      rounds := [];
      targetVisible := false;
      roundStartTime := 0;
    }

    /**
     * The results: scored from the round log and completed with the
     * provider, once.
     */
    method ShowResults(now: int, sqrt: real -> real) returns (s: Session)
      requires Common() && IsSqrt(sqrt)
      requires currentRound == Max(0, totalRounds) && |rounds| == currentRound
      modifies this, game
      ensures Valid() && phase == Results
      ensures unchanged(this`countdown, this`currentRound, this`rounds, this`roundStartTime)
      ensures s == ResultSession(rounds, difficulty, old(game.userStats.currentStreak), sessionStartTime, now, sqrt)
      ensures game.pending == old(game.pending) + [s]
    {
      phase := Results;
      targetVisible := false;
      s := ResultSession(rounds, difficulty, game.userStats.currentStreak, sessionStartTime, now, sqrt);
      game.CompleteSession(s);
    }

    /** startNextRound: a fresh round is appended and awaited, or the drill ends. */
    method StartNextRound(rnd: real, now: int, sqrt: real -> real) returns (completed: Option<Session>)
      requires Common() && IsSqrt(sqrt) && 0.0 <= rnd < 1.0
      requires |rounds| == currentRound && 0 <= currentRound <= Max(0, totalRounds)
      modifies this, game
      ensures Valid()
      ensures currentRound == old(currentRound) && countdown == old(countdown)
      ensures old(currentRound) >= totalRounds ==>
        phase == Results && rounds == old(rounds) && completed.Some? &&
        completed.value == ResultSession(rounds, difficulty, old(game.userStats.currentStreak), sessionStartTime, now, sqrt) &&
        game.pending == old(game.pending) + [completed.value]
      ensures old(currentRound) < totalRounds ==>
        phase == Waiting && !targetVisible && rounds == old(rounds) + [NewRound(difficulty, rnd)] &&
        completed.None? && unchanged(game)
    {
      if currentRound >= totalRounds {
        var s := ShowResults(now, sqrt);
        return Some(s);
      }
      rounds := rounds + [NewRound(difficulty, rnd)];
      phase := Waiting;
      targetVisible := false;
      completed := None;
    }

    /**
     * One second of the instructions countdown; when it reaches 0 the first
     * round starts.
     */
    method CountdownTick(rnd: real, now: int, sqrt: real -> real) returns (completed: Option<Session>)
      requires Valid() && IsSqrt(sqrt) && 0.0 <= rnd < 1.0
      modifies this, game
      ensures Valid()
      ensures old(phase) != Instructions ==> unchanged(this, game) && completed.None?
      ensures old(phase) == Instructions && old(countdown) > 1 ==>
        countdown == old(countdown) - 1 && phase == Instructions && rounds == [] &&
        unchanged(game) && completed.None?
      ensures old(phase) == Instructions && old(countdown) <= 1 ==>
        countdown == 0 && currentRound == 0 &&
        (totalRounds > 0 ==> phase == Waiting && rounds == [NewRound(difficulty, rnd)] && completed.None?) &&
        (totalRounds <= 0 ==> phase == Results && rounds == [] && completed.Some?)
    {
      completed := None;
      if phase == Instructions {
        if countdown > 0 {
          countdown := countdown - 1;
        }
        if countdown == 0 {
          completed := StartNextRound(rnd, now, sqrt);
        }
      }
    }

    /** The wait of the current round is over: the target shows and the clock starts. */
    method DelayElapsed(now: int)
      requires Valid()
      modifies this
      ensures Valid()
      ensures old(phase) != Waiting ==> unchanged(this)
      ensures old(phase) == Waiting ==>
        phase == Active && targetVisible && roundStartTime == now &&
        unchanged(this`currentRound, this`rounds, this`countdown)
    {
      if phase == Waiting && currentRound < totalRounds {
        targetVisible := true;
        roundStartTime := now;
        phase := Active;
      }
    }

    /**
     * handleKeyPress. Keys other than SPACE are ignored. SPACE while waiting
     * is a false start; SPACE while the target shows records the reaction
     * time. In every other phase nothing happens.
     */
    method KeyPress(isSpace: bool, now: int)
      requires Valid()
      requires phase == Active ==> now >= roundStartTime
      modifies this
      ensures Valid()
      ensures !isSpace || (old(phase) != Waiting && old(phase) != Active) ==> unchanged(this)
      ensures isSpace && old(phase) == Waiting ==>
        phase == Feedback && currentRound == old(currentRound) &&
        rounds == old(rounds)[currentRound := old(rounds)[currentRound].(falseStart := true, clicked := true)]
      ensures isSpace && old(phase) == Active ==>
        phase == Feedback && !targetVisible && currentRound == old(currentRound) &&
        rounds == old(rounds)[currentRound := old(rounds)[currentRound].(
          reactionTime := Some(now - old(roundStartTime)), clicked := true)]
      ensures unchanged(this`countdown, this`roundStartTime)
    {
      if !isSpace {
        return;
      }
      if phase == Waiting {
        rounds := rounds[currentRound := rounds[currentRound].(falseStart := true, clicked := true)];
        phase := Feedback;
      } else if phase == Active && targetVisible {
        var reaction := now - roundStartTime;
        targetVisible := false;
        rounds := rounds[currentRound := rounds[currentRound].(reactionTime := Some(reaction), clicked := true)];
        phase := Feedback;
      }
    }

    /**
     * The 800 ms feedback pause is over: the round index moves on, and the
     * drill either ends or starts the next round.
     */
    method FeedbackDone(rnd: real, now: int, sqrt: real -> real) returns (completed: Option<Session>)
      requires Valid() && IsSqrt(sqrt) && 0.0 <= rnd < 1.0
      modifies this, game
      ensures Valid()
      ensures old(phase) != Feedback ==> unchanged(this, game) && completed.None?
      ensures old(phase) == Feedback ==> currentRound == old(currentRound) + 1
      ensures old(phase) == Feedback && currentRound >= totalRounds ==>
        phase == Results && rounds == old(rounds) && completed.Some? &&
        completed.value == ResultSession(rounds, difficulty, old(game.userStats.currentStreak), sessionStartTime, now, sqrt) &&
        game.pending == old(game.pending) + [completed.value]
      ensures old(phase) == Feedback && currentRound < totalRounds ==>
        phase == Waiting && rounds == old(rounds) + [NewRound(difficulty, rnd)] &&
        completed.None? && unchanged(game)
    {
      completed := None;
      if phase == Feedback {
        var nextRound := currentRound + 1;
        currentRound := nextRound;
        if nextRound >= totalRounds {
          var s := ShowResults(now, sqrt);
          completed := Some(s);
        } else {
          completed := StartNextRound(rnd, now, sqrt);
        }
      }
    }

    /** At the results every round of the drill was answered (by a press or a false start). */
    lemma ResultsAllAnswered()
      requires Valid() && phase == Results
      ensures |rounds| == Max(0, totalRounds)
      ensures forall i :: 0 <= i < |rounds| ==> rounds[i].clicked
    {
    }
  }
}
