/**
 * The progression engine of src/services/progression.ts: adding experience,
 * the daily streak with freeze days, per-drill difficulty and level-up, the
 * daily goal and the experience a session earns. Every operation returns a
 * new record and leaves its argument alone.
 */
module Progression {
  import opened Types
  import opened Constants
  import opened Calculations

  // ---------------------------------------------------------------------
  // Experience

  /**
   * addXP: the new total decides the level (the largest level whose
   * cumulative cost is covered) and the experience inside that level.
   */
  function AddXP(u: UserStats, xp: int): (r: UserStats)
    ensures r.totalPoints == u.totalPoints + xp
    ensures r.level >= 1 && r.totalPoints < CumXp(r.level + 1)
    ensures r.level == LevelFromXp(r.totalPoints)
    ensures r.currentXP == r.totalPoints - CumXp(r.level)
    ensures r.totalPoints >= 0 ==> 0 <= r.currentXP < XpPerLevel(r.level)
    ensures r == u.(totalPoints := r.totalPoints, level := r.level, currentXP := r.currentXP)
  {
    var total := u.totalPoints + xp;
    var level := LevelFromXp(total);
    assert total >= 0 ==> 0 <= total - CumXp(level) < XpPerLevel(level) by {
      if total >= 0 { CurrentLevelXpInRange(total); }
    }
    u.(totalPoints := total, level := level, currentXP := total - CumXp(level))
  }

  /** Gaining experience never lowers the level. */
  lemma AddXPLevelNeverDrops(u: UserStats, xp: nat)
    requires u.level == LevelFromXp(u.totalPoints)
    ensures AddXP(u, xp).level >= u.level
  {
    LevelFromXpMonotone(u.totalPoints, u.totalPoints + xp);
  }

  /** Adding in two steps gives the same level and remainder as adding the sum. */
  lemma AddXPComposes(u: UserStats, a: int, b: int)
    ensures AddXP(AddXP(u, a), b) == AddXP(u, a + b)
  {
    var once := AddXP(u, a + b);
    var twice := AddXP(AddXP(u, a), b);
    assert twice.totalPoints == once.totalPoints;
  }

  // ---------------------------------------------------------------------
  // Streak

  /**
   * updateStreak: on the same day nothing changes; the next day extends the
   * streak and every seventh day of a streak earns a freeze day; after a gap
   * a freeze day, when one is left, keeps the streak alive, otherwise the
   * streak restarts at 1.
   */
  function UpdateStreak(u: UserStats, now: int): (r: UserStats)
    ensures DaysBetween(now, u.lastActive) == 0 ==> r == u
    ensures DaysBetween(now, u.lastActive) == 1 ==>
      r.currentStreak == u.currentStreak + 1 &&
      r.freezeDaysAvailable == u.freezeDaysAvailable + (if r.currentStreak % 7 == 0 then 1 else 0)
    ensures DaysBetween(now, u.lastActive) > 1 && u.freezeDaysAvailable > 0 ==>
      r.currentStreak == u.currentStreak && r.freezeDaysAvailable == u.freezeDaysAvailable - 1
    ensures DaysBetween(now, u.lastActive) > 1 && u.freezeDaysAvailable <= 0 ==>
      r.currentStreak == 1 && r.freezeDaysAvailable == u.freezeDaysAvailable
    ensures DaysBetween(now, u.lastActive) > 0 ==>
      r.longestStreak == Max(r.currentStreak, u.longestStreak) && r.lastActive == now &&
      r == u.(currentStreak := r.currentStreak, longestStreak := r.longestStreak,
              freezeDaysAvailable := r.freezeDaysAvailable, lastActive := now)
  {
    var days := DaysBetween(now, u.lastActive);
    if days == 0 then u
    else
      var (newStreak, freezeDays) :=
        if days == 1 then
          var s := u.currentStreak + 1;
          (s, if s % 7 == 0 then u.freezeDaysAvailable + 1 else u.freezeDaysAvailable)
        else if u.freezeDaysAvailable > 0 then (u.currentStreak, u.freezeDaysAvailable - 1)
        else (1, u.freezeDaysAvailable);
      u.(currentStreak := newStreak,
         longestStreak := Max(newStreak, u.longestStreak),
         freezeDaysAvailable := freezeDays,
         lastActive := now)
  }

  /** The streak record keeps its invariants: longest >= current, freeze days >= 0. */
  predicate StreakInvariant(u: UserStats)
  {
    u.longestStreak >= u.currentStreak && u.freezeDaysAvailable >= 0
  }

  /**
   * updateStreak preserves the streak invariant and never lowers the longest
   * streak.
   */
  lemma UpdateStreakPreservesInvariant(u: UserStats, now: int)
    requires StreakInvariant(u)
    ensures StreakInvariant(UpdateStreak(u, now))
    ensures UpdateStreak(u, now).longestStreak >= u.longestStreak
  {
  }

  /** A streak of 6 continued the next day reaches 7 and earns a freeze day. */
  lemma UpdateStreakSeventhDay(u: UserStats, now: int)
    requires u.currentStreak == 6 && u.longestStreak == 6 && u.freezeDaysAvailable == 0
    requires u.lastActive + DayMs <= now < u.lastActive + 2 * DayMs
    ensures UpdateStreak(u, now).currentStreak == 7
    ensures UpdateStreak(u, now).longestStreak == 7
    ensures UpdateStreak(u, now).freezeDaysAvailable == 1
  {
  }

  /** Three days away without a freeze day restart a streak of 5 at 1; the record stays 5. */
  lemma UpdateStreakReset(u: UserStats, now: int)
    requires u.currentStreak == 5 && u.longestStreak == 5 && u.freezeDaysAvailable == 0
    requires now == u.lastActive + 3 * DayMs
    ensures UpdateStreak(u, now).currentStreak == 1
    ensures UpdateStreak(u, now).longestStreak == 5
    ensures UpdateStreak(u, now).freezeDaysAvailable == 0
  {
  }

  // ---------------------------------------------------------------------
  // Drill level and difficulty

  /** getDrillDifficulty: half the drill level, rounded up, capped at 10. */
  function DrillDifficulty(drillLevel: int): (r: int)
    ensures r <= 10
    ensures r < 10 ==> drillLevel <= 2 * r < drillLevel + 2
    ensures r == 10 <==> drillLevel >= 19
  {
    Min(10, (drillLevel + 1) / 2)
  }

  /** Every real drill level maps to a difficulty in 1..10. */
  lemma DrillDifficultyRange(drillLevel: int)
    requires drillLevel >= 1
    ensures 1 <= DrillDifficulty(drillLevel) <= 10
  {
  }

  /** A higher drill level never means a lower difficulty. */
  lemma DrillDifficultyMonotone(a: int, b: int)
    requires a <= b
    ensures DrillDifficulty(a) <= DrillDifficulty(b)
  {
  }

  /** The last `n` elements of `s` (all of `s` when it is shorter), as slice(-n). */
  function LastN<T>(s: seq<T>, n: nat): (r: seq<T>)
    ensures |r| == Min(|s|, n)
    ensures r == s[|s| - |r|..]
  {
    if |s| <= n then s else s[|s| - n..]
  }

  /**
   * shouldLevelUpDrill: a drill with at least 5 sessions per level and at
   * least 5 recent scores levels up when the mean of its last five scores
   * reaches its average score.
   */
  function ShouldLevelUpDrill(ds: DrillStats): (r: bool)
    ensures r <==>
      ds.sessionsCompleted >= 5 * ds.level &&
      |ds.recentScores| >= 5 &&
      Sum(ds.recentScores[|ds.recentScores| - 5..]) as real >= 5.0 * ds.averageScore
  {
    if ds.sessionsCompleted < ds.level * 5 then false
    else
      var recent := LastN(ds.recentScores, 5);
      if |recent| < 5 then false
      else Mean(recent) >= ds.averageScore
  }

  /** levelUpDrill: one level up, the difficulty recomputed, nothing else changed. */
  function LevelUpDrill(ds: DrillStats): (r: DrillStats)
    ensures r.level == ds.level + 1
    ensures ds.level >= 0 ==> 1 <= r.difficulty <= 10
    ensures r.difficulty >= DrillDifficulty(ds.level)
    ensures r == ds.(level := r.level, difficulty := r.difficulty)
  {
    DrillDifficultyMonotone(ds.level, ds.level + 1);
    ds.(level := ds.level + 1, difficulty := DrillDifficulty(ds.level + 1))
  }

  // ---------------------------------------------------------------------
  // Daily goal and session experience

  /** The drill entries with at least one session, in their original order. */
  function PlayedDrills(ds: seq<DrillStats>): (r: seq<DrillStats>)
    ensures |r| <= |ds|
    ensures forall d :: d in r <==> d in ds && d.sessionsCompleted > 0
  {
    if ds == [] then []
    else
      var rest := PlayedDrills(ds[1..]);
      assert forall d :: d in ds <==> d == ds[0] || d in ds[1..];
      if ds[0].sessionsCompleted > 0 then [ds[0]] + rest else rest
  }

  /**
   * checkDailyGoal: at least three drills were played and each of the played
   * drills has at least two sessions.
   */
  function CheckDailyGoal(u: UserStats): (r: bool)
    ensures r <==>
      |PlayedDrills(u.drillStats)| >= 3 &&
      forall i :: 0 <= i < |u.drillStats| && u.drillStats[i].sessionsCompleted > 0 ==>
        u.drillStats[i].sessionsCompleted >= 2
  {
    var played := PlayedDrills(u.drillStats);
    assert (forall d :: d in played ==> d.sessionsCompleted >= 2) <==>
      (forall i :: 0 <= i < |u.drillStats| && u.drillStats[i].sessionsCompleted > 0 ==>
         u.drillStats[i].sessionsCompleted >= 2);
    |played| >= 3 && forall d :: d in played ==> d.sessionsCompleted >= 2
  }

  /**
   * The filter keeps the played entries in order with their multiplicity:
   * it lists `ds` at a strictly increasing sequence of positions that holds
   * every played position and only those.
   */
  lemma {:induction false} PlayedPositions(ds: seq<DrillStats>) returns (idx: seq<int>)
    ensures |idx| == |PlayedDrills(ds)|
    ensures forall m :: 0 <= m < |idx| ==> 0 <= idx[m] < |ds| && ds[idx[m]] == PlayedDrills(ds)[m]
    ensures forall m :: 0 <= m < |idx| ==> ds[idx[m]].sessionsCompleted > 0
    ensures Increasing(idx)
    ensures forall i :: 0 <= i < |ds| && ds[i].sessionsCompleted > 0 ==> i in idx
  {
    if ds == [] {
      return [];
    }
    var rest := PlayedPositions(ds[1..]);
    var shifted := ShiftPositions(rest);
    ShiftedPositions(ds, rest, shifted);
    var lead := if ds[0].sessionsCompleted > 0 then [0] else [];
    idx := lead + shifted;
    ShiftedIncreasing(lead, rest, shifted);
    var playedTail := PlayedDrills(ds[1..]);
    assert PlayedDrills(ds) == (if ds[0].sessionsCompleted > 0 then [ds[0]] else []) + playedTail;
    LeadPositions(ds, lead, shifted, PlayedDrills(ds), playedTail);
  }

  /** The positions of the whole filter from those of the filter of the tail. */
  lemma LeadPositions(ds: seq<DrillStats>, lead: seq<int>, shifted: seq<int>,
                      played: seq<DrillStats>, playedTail: seq<DrillStats>)
    requires |ds| > 0 && |shifted| == |playedTail|
    requires lead == (if ds[0].sessionsCompleted > 0 then [0] else [])
    requires played == (if ds[0].sessionsCompleted > 0 then [ds[0]] else []) + playedTail
    requires forall m :: 0 <= m < |shifted| ==> 0 <= shifted[m] < |ds| && ds[shifted[m]] == playedTail[m]
    requires forall m :: 0 <= m < |shifted| ==> ds[shifted[m]].sessionsCompleted > 0
    ensures |lead + shifted| == |played|
    ensures forall m :: 0 <= m < |lead + shifted| ==>
      0 <= (lead + shifted)[m] < |ds| && ds[(lead + shifted)[m]] == played[m] &&
      ds[(lead + shifted)[m]].sessionsCompleted > 0
  {
    var idx := lead + shifted;
    forall m | 0 <= m < |idx|
      ensures 0 <= idx[m] < |ds| && ds[idx[m]] == played[m] && ds[idx[m]].sessionsCompleted > 0
    {
      if m >= |lead| {
        assert idx[m] == shifted[m - |lead|] && played[m] == playedTail[m - |lead|];
      }
    }
  }

  /** Positions listed in strictly increasing order. */
  predicate Increasing(idx: seq<int>)
  {
    forall m, n :: 0 <= m < n < |idx| ==> idx[m] < idx[n]
  }

  /** Position 0, if present, followed by shifted non-negative positions stays increasing. */
  lemma ShiftedIncreasing(lead: seq<int>, rest: seq<int>, shifted: seq<int>)
    requires lead == [] || lead == [0]
    requires Increasing(rest) && |shifted| == |rest|
    requires forall m :: 0 <= m < |rest| ==> 0 <= rest[m] && shifted[m] == rest[m] + 1
    ensures Increasing(lead + shifted)
  {
    var idx := lead + shifted;
    forall m, n | 0 <= m < n < |idx|
      ensures idx[m] < idx[n]
    {
      if m >= |lead| {
        assert idx[m] == rest[m - |lead|] + 1 && idx[n] == rest[n - |lead|] + 1;
      }
    }
  }

  /** The positions of the played entries after the first, shifted past it. */
  lemma ShiftedPositions(ds: seq<DrillStats>, rest: seq<int>, shifted: seq<int>)
    requires |ds| > 0 && |shifted| == |rest|
    requires forall m :: 0 <= m < |rest| ==> 0 <= rest[m] < |ds| - 1 && shifted[m] == rest[m] + 1
    requires forall i :: 0 <= i < |ds| - 1 && ds[1..][i].sessionsCompleted > 0 ==> i in rest
    ensures forall m :: 0 <= m < |rest| ==> ds[shifted[m]] == ds[1..][rest[m]]
    ensures forall i :: 1 <= i < |ds| && ds[i].sessionsCompleted > 0 ==> i in shifted
  {
    forall i | 1 <= i < |ds| && ds[i].sessionsCompleted > 0
      ensures i in shifted
    {
      assert ds[1..][i - 1] == ds[i];
      var m :| 0 <= m < |rest| && rest[m] == i - 1;
      assert shifted[m] == i;
    }
  }

  /** Every position one further on. */
  function ShiftPositions(idx: seq<int>): (r: seq<int>)
    ensures |r| == |idx|
    ensures forall m :: 0 <= m < |idx| ==> r[m] == idx[m] + 1
  {
    seq(|idx|, m requires 0 <= m < |idx| => idx[m] + 1)
  }

  /**
   * The daily goal, at least 2 sessions in 3 different drills: it is met
   * exactly when three drill entries have at least two sessions each and no
   * played entry has fewer than two.
   */
  lemma DailyGoalThreeDrills(u: UserStats)
    ensures CheckDailyGoal(u) <==>
      (exists i, j, k :: ThreeWith(u.drillStats, i, j, k, 2)) &&
      forall i :: 0 <= i < |u.drillStats| && u.drillStats[i].sessionsCompleted > 0 ==>
        u.drillStats[i].sessionsCompleted >= 2
  {
    var ds := u.drillStats;
    PlayedAtLeastThree(ds);
    if forall i :: 0 <= i < |ds| && ds[i].sessionsCompleted > 0 ==> ds[i].sessionsCompleted >= 2 {
      ThreePlayedTwice(ds);
    }
  }

  /** When no played entry has fewer than two sessions, three played entries have two each. */
  lemma ThreePlayedTwice(ds: seq<DrillStats>)
    requires forall i :: 0 <= i < |ds| && ds[i].sessionsCompleted > 0 ==> ds[i].sessionsCompleted >= 2
    ensures (exists i, j, k :: ThreeWith(ds, i, j, k, 1)) <==> (exists i, j, k :: ThreeWith(ds, i, j, k, 2))
  {
    if exists i, j, k :: ThreeWith(ds, i, j, k, 1) {
      var i, j, k :| ThreeWith(ds, i, j, k, 1);
      assert ThreeWith(ds, i, j, k, 2);
    }
    if exists i, j, k :: ThreeWith(ds, i, j, k, 2) {
      var i, j, k :| ThreeWith(ds, i, j, k, 2);
      assert ThreeWith(ds, i, j, k, 1);
    }
  }

  /** Positions i < j < k of `ds` whose entries have at least `least` sessions each. */
  predicate ThreeWith(ds: seq<DrillStats>, i: int, j: int, k: int, least: int)
  {
    0 <= i < j < k < |ds| && ds[i].sessionsCompleted >= least &&
    ds[j].sessionsCompleted >= least && ds[k].sessionsCompleted >= least
  }

  /** The filter keeps at least three entries exactly when three positions were played. */
  lemma PlayedAtLeastThree(ds: seq<DrillStats>)
    ensures |PlayedDrills(ds)| >= 3 <==> exists i, j, k :: ThreeWith(ds, i, j, k, 1)
  {
    var idx := PlayedPositions(ds);
    var played := PlayedDrills(ds);
    if |played| >= 3 {
      assert idx[0] < idx[1] < idx[2];
      assert ThreeWith(ds, idx[0], idx[1], idx[2], 1);
    }
    if exists i, j, k :: ThreeWith(ds, i, j, k, 1) {
      var i, j, k :| ThreeWith(ds, i, j, k, 1);
      assert i in idx && j in idx && k in idx;
      var a :| 0 <= a < |idx| && idx[a] == i;
      var b :| 0 <= b < |idx| && idx[b] == j;
      var c :| 0 <= c < |idx| && idx[c] == k;
      IncreasingOrder(idx, a, b);
      IncreasingOrder(idx, b, c);
    }
  }

  /** In an increasing list, a smaller entry sits at an earlier position. */
  lemma IncreasingOrder(idx: seq<int>, a: int, b: int)
    requires Increasing(idx) && 0 <= a < |idx| && 0 <= b < |idx| && idx[a] < idx[b]
    ensures a < b
  {
  }

  /** A met goal needs at least three drill entries. */
  lemma DailyGoalNeedsThreeDrills(u: UserStats)
    requires CheckDailyGoal(u)
    ensures |u.drillStats| >= 3
  {
  }

  /**
   * calculateSessionXP: the score reward plus a streak bonus of 50 per streak
   * day, capped at 500.
   */
  function SessionXp(baseScore: int, stars: int, difficulty: int, currentStreak: int): (r: int)
    ensures r - XpReward(baseScore, stars, difficulty) <= MaxStreakBonus
    ensures currentStreak >= 0 ==> r >= XpReward(baseScore, stars, difficulty)
    ensures currentStreak >= 10 ==> r == XpReward(baseScore, stars, difficulty) + MaxStreakBonus
    ensures currentStreak <= 10 ==>
      r == XpReward(baseScore, stars, difficulty) + StreakBonusPerDay * currentStreak
  {
    var xp := XpReward(baseScore, stars, difficulty);
    var streakBonus := Min(500, currentStreak * 50);
    xp + streakBonus
  }

  /** A longer streak never earns less experience for the same session. */
  lemma SessionXpMonotoneInStreak(baseScore: int, stars: int, difficulty: int, s1: int, s2: int)
    requires s1 <= s2
    ensures SessionXp(baseScore, stars, difficulty, s1) <= SessionXp(baseScore, stars, difficulty, s2)
  {
  }
}
