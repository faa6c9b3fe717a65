/**
 * The awareness drill of src/components/drills/AwarenessDrill/AwarenessDrill.tsx:
 * after a countdown, each round shows a ring of dots of which one is the
 * target; the player clicks the target, clicks a distractor, or lets the
 * display time run out. The round log has one slot per round, written at
 * the index of the current round. Dot positions come from the parameters
 * `targetSpot` and `spot` (the random polar placement), and `tooClose` stands
 * for the distance test against the dots already placed.
 */
module AwarenessDrill {
  import opened Types
  import opened Calculations
  import opened Scoring
  import opened GameContext

  datatype Phase = Intro | Countdown | Waiting | Active | Feedback | Results

  /** A dot on the screen; only the dot with id 0 is the target. */
  datatype Target = Target(id: int, pos: Point, isTarget: bool)

  /** One slot of the round log. */
  datatype Round = Round(targetClicked: bool, wrongClick: bool, missed: bool, reactionTime: int)

  const EmptySlot := Round(false, false, false, 0)

  /** A finished slot records exactly one outcome. */
  predicate Finished(r: Round)
  {
    (if r.targetClicked then 1 else 0) + (if r.wrongClick then 1 else 0) + (if r.missed then 1 else 0) == 1
  }

  // ---------------------------------------------------------------------
  // Difficulty parameters

  function TotalRounds(difficulty: int): (n: int)
    ensures 1 <= difficulty <= 10 ==> 12 <= n <= 30
    ensures n % 2 == 0
  {
    10 + difficulty * 2
  }

  function NumDistractors(difficulty: int): (n: int)
    ensures n <= 8
    ensures difficulty >= 1 ==> 3 <= n
  {
    Min(2 + difficulty, 8)
  }

  function DisplayTime(difficulty: int): (t: int)
    ensures t >= 800
    ensures difficulty <= 0 ==> t >= 1500
    ensures t == 800 <==> difficulty >= 7
  {
    Max(1500 - difficulty * 100, 800)
  }

  // ---------------------------------------------------------------------
  // Dot placement

  /**
   * The attempt whose position a distractor keeps: the first of the ten
   * attempts (from `j` on) that is not too close, or the tenth.
   */
  function ChosenAttempt(placed: seq<Target>, i: nat, spot: (nat, nat) -> Point,
                         tooClose: (seq<Target>, Point) -> bool, j: nat): (c: nat)
    requires j < 10
    ensures j <= c < 10
    ensures c < 9 ==> !tooClose(placed, spot(i, c))
    ensures forall k :: j <= k < c ==> tooClose(placed, spot(i, k))
    decreases 9 - j
  {
    if j == 9 || !tooClose(placed, spot(i, j)) then j
    else ChosenAttempt(placed, i, spot, tooClose, j + 1)
  }

  /**
   * One distractor's position: the do-while of generateTargets tries
   * positions until one is not too close to the dots already placed, giving
   * up after ten attempts.
   */
  method PlaceDistractor(placed: seq<Target>, i: nat, spot: (nat, nat) -> Point,
                         tooClose: (seq<Target>, Point) -> bool) returns (p: Point)
    ensures p == spot(i, ChosenAttempt(placed, i, spot, tooClose, 0))
  {
    p := spot(i, 0);
    var attempts := 1;
    while attempts < 10 && tooClose(placed, p)
      invariant 1 <= attempts <= 10
      invariant p == spot(i, attempts - 1)
      invariant ChosenAttempt(placed, i, spot, tooClose, attempts - 1)
             == ChosenAttempt(placed, i, spot, tooClose, 0)
      decreases 10 - attempts
    {
      p := spot(i, attempts);
      attempts := attempts + 1;
    }
  }

  /**
   * The dots of one round are well formed: ids count up from 0, only the
   * first is the target, it sits at `targetSpot`, and each distractor sits
   * where its attempts, against the dots before it, put it.
   */
  predicate Placed(targets: seq<Target>, targetSpot: Point, spot: (nat, nat) -> Point,
                   tooClose: (seq<Target>, Point) -> bool)
  {
    |targets| >= 1 && targets[0].pos == targetSpot &&
    (forall k :: 0 <= k < |targets| ==> targets[k].id == k && (targets[k].isTarget <==> k == 0)) &&
    (forall k :: 1 <= k < |targets| ==>
       targets[k].pos == spot(k - 1, ChosenAttempt(targets[..k], k - 1, spot, tooClose, 0)))
  }

  /** Appending the next distractor at its chosen position keeps the dots well formed. */
  lemma PlacedAppend(targets: seq<Target>, targetSpot: Point, spot: (nat, nat) -> Point,
                     tooClose: (seq<Target>, Point) -> bool, p: Point)
    requires Placed(targets, targetSpot, spot, tooClose)
    requires p == spot(|targets| - 1, ChosenAttempt(targets, |targets| - 1, spot, tooClose, 0))
    ensures Placed(targets + [Target(|targets|, p, false)], targetSpot, spot, tooClose)
  {
    var t := targets + [Target(|targets|, p, false)];
    assert t[..|targets|] == targets;
    forall k | 1 <= k < |targets|
      ensures t[k].pos == spot(k - 1, ChosenAttempt(t[..k], k - 1, spot, tooClose, 0))
    {
      assert t[k] == targets[k] && t[..k] == targets[..k];
    }
    assert t[|targets|].pos == spot(|targets| - 1, ChosenAttempt(t[..|targets|], |targets| - 1, spot, tooClose, 0));
  }

  /**
   * generateTargets: the target (id 0) at `targetSpot`, then one distractor
   * per index, each placed by at most ten attempts.
   */
  method GenerateTargets(numDistractors: nat, targetSpot: Point, spot: (nat, nat) -> Point,
                         tooClose: (seq<Target>, Point) -> bool) returns (targets: seq<Target>)
    ensures |targets| == numDistractors + 1
    ensures Placed(targets, targetSpot, spot, tooClose)
  {
    targets := [Target(0, targetSpot, true)];
    var i := 0;
    while i < numDistractors
      invariant 0 <= i <= numDistractors
      invariant |targets| == i + 1
      invariant Placed(targets, targetSpot, spot, tooClose)
    {
      var p := PlaceDistractor(targets, i, spot, tooClose);
      PlacedAppend(targets, targetSpot, spot, tooClose, p);
      targets := targets + [Target(i + 1, p, false)];
      i := i + 1;
    }
  }

  // ---------------------------------------------------------------------
  // Metrics

  function CountHits(rs: seq<Round>): (n: nat)
    ensures n <= |rs|
  {
    if |rs| == 0 then 0 else CountHits(rs[..|rs| - 1]) + (if rs[|rs| - 1].targetClicked then 1 else 0)
  }

  function CountWrong(rs: seq<Round>): (n: nat)
    ensures n <= |rs|
  {
    if |rs| == 0 then 0 else CountWrong(rs[..|rs| - 1]) + (if rs[|rs| - 1].wrongClick then 1 else 0)
  }

  function CountMissed(rs: seq<Round>): (n: nat)
    ensures n <= |rs|
  {
    if |rs| == 0 then 0 else CountMissed(rs[..|rs| - 1]) + (if rs[|rs| - 1].missed then 1 else 0)
  }

  /** The reaction times of the rounds whose target was clicked, in round order. */
  function HitTimes(rs: seq<Round>): (ts: seq<int>)
    ensures |ts| == CountHits(rs)
  {
    if |rs| == 0 then []
    else HitTimes(rs[..|rs| - 1]) + (if rs[|rs| - 1].targetClicked then [rs[|rs| - 1].reactionTime] else [])
  }

  /** When every slot is finished, hits, wrong clicks and misses partition the rounds. */
  lemma {:induction false} SlotPartition(rs: seq<Round>)
    requires forall i :: 0 <= i < |rs| ==> Finished(rs[i])
    ensures CountHits(rs) + CountWrong(rs) + CountMissed(rs) == |rs|
  {
    if |rs| > 0 {
      SlotPartition(rs[..|rs| - 1]);
      assert Finished(rs[|rs| - 1]);
    }
  }

  function Ratio(a: int, b: int): (r: real)
    ensures IsRatio(r, a, b)
    ensures 0 <= a <= b ==> 0.0 <= r <= 1.0
  {
    if b == 0 then 0.0 else a as real / b as real
  }

  /** The mean reaction time of the rounds hit, 0 when none was. */
  function AverageHitTime(rounds: seq<Round>): (a: real)
    ensures IsRatio(a, Sum(HitTimes(rounds)), CountHits(rounds))
  {
    Mean(HitTimes(rounds))
  }

  /**
   * The metrics of the results screen. A ratio over zero rounds is NaN in
   * the source; the model uses 0 there.
   */
  function MetricsOf(rounds: seq<Round>, totalTargets: int): (m: AwarenessMetrics)
    ensures m.targetsHit == CountHits(rounds) && m.targetsMissed == CountMissed(rounds)
    ensures m.wrongClicks == CountWrong(rounds) && m.totalTargets == totalTargets
    ensures IsRatio(m.hitRate, CountHits(rounds), totalTargets)
    ensures IsRatio(m.averageReactionTime, Sum(HitTimes(rounds)), CountHits(rounds))
  {
    var targetsHit := CountHits(rounds);
    var targetsMissed := CountMissed(rounds);
    var wrongClicks := CountWrong(rounds);
    AwarenessMetrics(targetsHit, targetsMissed, wrongClicks, totalTargets,
                     Ratio(targetsHit, totalTargets),
                     Ratio(targetsHit, targetsHit + wrongClicks + targetsMissed),
                     AverageHitTime(rounds))
  }

  /** On a full log, accuracy equals the hit rate and neither exceeds 1. */
  lemma FullLogMetrics(rounds: seq<Round>)
    requires |rounds| > 0
    requires forall i :: 0 <= i < |rounds| ==> Finished(rounds[i])
    ensures MetricsOf(rounds, |rounds|).accuracy == MetricsOf(rounds, |rounds|).hitRate
    ensures 0.0 <= MetricsOf(rounds, |rounds|).hitRate <= 1.0
  {
    SlotPartition(rounds);
  }

  /** The awareness session: its score is also the experience it earns. */
  function ResultSession(rounds: seq<Round>, totalRounds: int, difficulty: int,
                         startTime: int, endTime: int): (s: Session)
    ensures s.drillId == Awareness && s.startTime == startTime && s.endTime == endTime
    ensures s.metrics == AwarenessResult(MetricsOf(rounds, totalRounds))
    ensures s.score == AwarenessScore(MetricsOf(rounds, totalRounds)) && s.score >= 0
    ensures 1 <= s.stars <= 5
    ensures s.pointsEarned == s.score
  {
    var metrics := MetricsOf(rounds, totalRounds);
    var score := AwarenessScore(metrics);
    var stars := DrillStars(score, IdName(Awareness), difficulty);
    Session(Awareness, startTime, endTime, score, stars, score, AwarenessResult(metrics))
  }

  // ---------------------------------------------------------------------
  // The drill

  class Drill {
    const game: GameProvider
    const difficulty: int
    const totalRounds: int
    const numDistractors: nat
    const displayTime: int
    const sessionStartTime: int

    var phase: Phase
    var countdown: int
    var currentRound: int
    var targets: seq<Target>
    var rounds: seq<Round>
    var roundStartTime: int

    /** What holds in every phase, including between the steps of one event. */
    predicate Common()
      reads this, game, game.store
    {
      game.Valid() && CommonState()
    }

    /** The part of Common() about the drill's own fields. */
    predicate CommonState()
      reads this
    {
      difficulty >= 1 &&
      totalRounds == TotalRounds(difficulty) &&
      numDistractors == NumDistractors(difficulty) &&
      displayTime == DisplayTime(difficulty) &&
      |rounds| == totalRounds &&
      0 <= currentRound <= totalRounds &&
      (forall i :: 0 <= i < currentRound ==> Finished(rounds[i])) &&
      (forall i :: currentRound < i < totalRounds ==> rounds[i] == EmptySlot)
    }

    /**
     * Slots before the current round are finished and slots after it are
     * empty; the current slot is empty until the round ends; dots show only
     * in the active phase.
     */
    predicate Valid()
      reads this, game, game.store
    {
      game.Valid() && State()
    }

    /** The part of Valid() about the drill's own fields. */
    predicate State()
      reads this
    {
      CommonState() &&
      match phase
      case Intro => countdown == 3 && currentRound == 0 && rounds[0] == EmptySlot && targets == []
      case Countdown => 0 <= countdown <= 3 && currentRound == 0 && rounds[0] == EmptySlot && targets == []
      case Waiting =>
        currentRound < totalRounds && rounds[currentRound] == EmptySlot && targets == []
      case Active =>
        currentRound < totalRounds && rounds[currentRound] == EmptySlot &&
        |targets| == numDistractors + 1
      case Feedback =>
        currentRound < totalRounds && Finished(rounds[currentRound]) && targets == []
      case Results => currentRound == totalRounds && targets == []
    }

    constructor(game: GameProvider, now: int)
      requires game.Valid()
      requires DifficultyFor(game.userStats, Awareness) >= 1
      ensures Valid() && this.game == game
      ensures difficulty == DifficultyFor(game.userStats, Awareness)
      ensures sessionStartTime == now && phase == Intro && currentRound == 0
      ensures rounds == seq(totalRounds, _ => EmptySlot)
    {
      var d := DifficultyFor(game.userStats, Awareness);
      this.game := game;
      difficulty := d;
      totalRounds := TotalRounds(d);
      numDistractors := NumDistractors(d);
      displayTime := DisplayTime(d);
      sessionStartTime := now;
      phase := Intro;
      countdown := 3;
      currentRound := 0;
      targets := [];
      rounds := seq(TotalRounds(d), _ => EmptySlot);
      roundStartTime := 0;
    }

    /** startGame: the countdown begins at 3. */
    method StartGame()
      requires Valid()
      modifies this
      ensures Valid()
      ensures old(phase) != Intro ==> unchanged(this)
      ensures old(phase) == Intro ==> phase == Countdown && countdown == 3 && unchanged(this`rounds, this`currentRound)
    {
      if phase == Intro {
        phase := Countdown;
        countdown := 3;
      }
    }

    /** One second of the countdown; at 0 the first round starts waiting. */
    method CountdownTick()
      requires Valid()
      modifies this
      ensures Valid()
      ensures old(phase) != Countdown ==> unchanged(this)
      ensures old(phase) == Countdown && old(countdown) > 1 ==>
        phase == Countdown && countdown == old(countdown) - 1
      ensures old(phase) == Countdown && old(countdown) <= 1 ==>
        phase == Waiting && countdown == 0
      ensures unchanged(this`rounds, this`currentRound, this`targets)
    {
      if phase == Countdown {
        if countdown > 0 {
          countdown := countdown - 1;
        }
        if countdown == 0 {
          phase := Waiting;
        }
      }
    }

    /** The random wait of the round is over: the dots show and the clock starts. */
    method WaitElapsed(targetSpot: Point, spot: (nat, nat) -> Point,
                       tooClose: (seq<Target>, Point) -> bool, now: int)
      requires Valid()
      modifies this
      ensures Valid()
      ensures old(phase) != Waiting ==> unchanged(this)
      ensures old(phase) == Waiting ==>
        phase == Active && roundStartTime == now &&
        |targets| == numDistractors + 1 && targets[0].isTarget &&
        (forall k :: 1 <= k < |targets| ==> !targets[k].isTarget) &&
        unchanged(this`rounds, this`currentRound)
    {
      if phase == Waiting {
        var newTargets := GenerateTargets(numDistractors, targetSpot, spot, tooClose);
        targets := newTargets;
        roundStartTime := now;
        phase := Active;
      }
    }

    /**
     * handleTargetClick: ignored unless the dots show; otherwise the current
     * slot records a hit or a wrong click with its reaction time.
     */
    method TargetClick(target: Target, now: int)
      requires Valid()
      modifies this
      ensures Valid()
      ensures old(phase) != Active ==> unchanged(this)
      ensures old(phase) == Active ==>
        phase == Feedback && targets == [] && currentRound == old(currentRound) &&
        rounds == old(rounds)[currentRound := Round(target.isTarget, !target.isTarget, false,
                                                    now - old(roundStartTime))]
    {
      if phase != Active {
        return;
      }
      var reactionTime := now - roundStartTime;
      rounds := rounds[currentRound := Round(target.isTarget, !target.isTarget, false, reactionTime)];
      targets := [];
      phase := Feedback;
    }

    /** handleMiss: the display time ran out; the current slot records a miss. */
    method Miss()
      requires Valid()
      modifies this
      ensures Valid()
      ensures old(phase) != Active ==> unchanged(this)
      ensures old(phase) == Active ==>
        phase == Feedback && targets == [] && currentRound == old(currentRound) &&
        rounds == old(rounds)[currentRound := Round(false, false, true, 0)]
    {
      if phase == Active {
        rounds := rounds[currentRound := Round(false, false, true, 0)];
        targets := [];
        phase := Feedback;
      }
    }

    /** The results: scored from the round log and completed with the provider, once. */
    method ShowResults(now: int) returns (s: Session)
      requires Common() && currentRound == totalRounds
      modifies this, game
      ensures Valid() && phase == Results
      ensures unchanged(this`countdown, this`currentRound, this`rounds)
      ensures s == ResultSession(rounds, totalRounds, difficulty, sessionStartTime, now)
      ensures game.pending == old(game.pending) + [s]
    {
      phase := Results;
      targets := [];
      s := ResultSession(rounds, totalRounds, difficulty, sessionStartTime, now);
      game.CompleteSession(s);
    }

    /**
     * The 500 ms feedback pause is over: the next round waits, or after the
     * last round the results are scored and completed with the provider.
     */
    method FeedbackDone(now: int) returns (completed: Option<Session>)
      requires Valid()
      modifies this, game
      ensures Valid()
      ensures old(phase) != Feedback ==> unchanged(this, game) && completed.None?
      ensures old(phase) == Feedback ==> currentRound == old(currentRound) + 1 && rounds == old(rounds)
      ensures old(phase) == Feedback && currentRound < totalRounds ==>
        phase == Waiting && completed.None? && unchanged(game)
      ensures old(phase) == Feedback && currentRound == totalRounds ==>
        phase == Results && completed.Some? &&
        completed.value == ResultSession(rounds, totalRounds, difficulty, sessionStartTime, now) &&
        game.pending == old(game.pending) + [completed.value]
    {
      completed := None;
      if phase == Feedback {
        var nextRound := currentRound + 1;
        currentRound := nextRound;
        if nextRound >= totalRounds {
          var s := ShowResults(now);
          completed := Some(s);
        } else {
          phase := Waiting;
        }
      }
    }

    /** At the results every slot is finished, so the outcomes add up to the round count. */
    lemma ResultsPartition()
      requires Valid() && phase == Results
      ensures CountHits(rounds) + CountWrong(rounds) + CountMissed(rounds) == totalRounds
      ensures MetricsOf(rounds, totalRounds).accuracy == MetricsOf(rounds, totalRounds).hitRate
    {
      SlotPartition(rounds);
      FullLogMetrics(rounds);
    }
  }
}
