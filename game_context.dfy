/**
 * The session reducer of src/contexts/GameContext.tsx and the provider that
 * holds the profile. A completed session moves the streak, adds its points,
 * updates the drill's entry (recent-score window, average, best score, time,
 * at most one level-up) and counts one more session today; the activity log
 * records the session and the profile is written back to the store.
 */
module GameContext {
  import opened Types
  import opened Constants
  import opened Calculations
  import opened Progression
  import opened Storage

  /**
   * The recent-score window after a session, `slice(-10)` of the old window
   * plus the score: the score comes last, and once the window is full its
   * oldest score drops out.
   */
  function PushScore(recent: seq<int>, score: int): (w: seq<int>)
    ensures 1 <= |w| <= 10 && w[|w| - 1] == score
    ensures |recent| < 10 ==> w == recent + [score]
    ensures |recent| >= 10 ==> w == recent[|recent| - 9..] + [score]
  {
    var all := recent + [score];
    assert |recent| >= 10 ==> all[|all| - 10..] == recent[|recent| - 9..] + [score];
    LastN(all, 10)
  }

  /**
   * The drill entry after one session: the score joins a window of the last
   * ten scores, the average is taken over the old window plus the new score,
   * and the count, best score, time spent and last-played date move on.
   */
  function RecordScore(drill: DrillStats, session: Session): (r: DrillStats)
    ensures r.recentScores == PushScore(drill.recentScores, session.score)
    ensures IsRatio(r.averageScore, Sum(drill.recentScores) + session.score, |drill.recentScores| + 1)
    ensures r.sessionsCompleted == drill.sessionsCompleted + 1
    ensures r.bestScore >= drill.bestScore && r.bestScore >= session.score
    ensures r.bestScore == drill.bestScore || r.bestScore == session.score
    ensures r.totalTimeSpent == drill.totalTimeSpent + (session.endTime - session.startTime) as real / 1000.0
    ensures r.lastPlayed == session.endTime
    ensures r.drillId == drill.drillId && r.level == drill.level && r.difficulty == drill.difficulty
  {
    var allScores := drill.recentScores + [session.score];
    var newRecentScores := PushScore(drill.recentScores, session.score);
    var newAverage := Mean(allScores);
    assert Sum(allScores) == Sum(drill.recentScores) + session.score by {
      assert allScores[..|allScores| - 1] == drill.recentScores;
    }
    assert IsRatio(newAverage, Sum(allScores), |allScores|);
    DrillStats(
      drill.drillId,
      drill.sessionsCompleted + 1,
      Max(drill.bestScore, session.score),
      newAverage,
      drill.totalTimeSpent + (session.endTime - session.startTime) as real / 1000.0,
      drill.difficulty,
      session.endTime,
      newRecentScores,
      drill.level)
  }

  /** The drill entry after a session: recorded, then levelled up once if it qualifies. */
  function UpdateDrillEntry(drill: DrillStats, session: Session): (r: DrillStats)
    ensures ShouldLevelUpDrill(RecordScore(drill, session)) ==>
      r == LevelUpDrill(RecordScore(drill, session)) && r.level == drill.level + 1
    ensures !ShouldLevelUpDrill(RecordScore(drill, session)) ==>
      r == RecordScore(drill, session) && r.level == drill.level
    ensures drill.level <= r.level <= drill.level + 1
    ensures r.drillId == drill.drillId
  {
    var updatedDrill := RecordScore(drill, session);
    if ShouldLevelUpDrill(updatedDrill) then LevelUpDrill(updatedDrill) else updatedDrill
  }

  /** A fresh drill entry never levels up on its first session (it needs five per level). */
  lemma FirstSessionNoLevelUp(drill: DrillStats, session: Session)
    requires drill.sessionsCompleted == 0 && drill.level >= 1
    ensures UpdateDrillEntry(drill, session).level == drill.level
  {
  }

  /**
   * The completeSession updater: streak first, then the session's points,
   * then the drill entry with the session's drill (when there is one), then
   * one more session today.
   */
  function ApplySession(prev: UserStats, session: Session, now: int): (r: UserStats)
    ensures var s := UpdateStreak(prev, now);
      r.currentStreak == s.currentStreak && r.longestStreak == s.longestStreak &&
      r.freezeDaysAvailable == s.freezeDaysAvailable && r.lastActive == s.lastActive
    ensures r.totalPoints == prev.totalPoints + session.pointsEarned
    ensures r.level >= 1 && r.currentXP == r.totalPoints - CumXp(r.level)
    ensures r.totalPoints >= 0 ==> 0 <= r.currentXP < XpPerLevel(r.level)
    ensures r.sessionsToday == prev.sessionsToday + 1
    ensures r.achievements == prev.achievements && r.dailyGoalCompleted == prev.dailyGoalCompleted
    ensures |r.drillStats| == |prev.drillStats|
    ensures var i := FindDrillIndex(prev.drillStats, session.drillId);
      (i == -1 ==> r.drillStats == prev.drillStats) &&
      (i >= 0 ==> r.drillStats == prev.drillStats[i := UpdateDrillEntry(prev.drillStats[i], session)])
  {
    var updated := UpdateStreak(prev, now);
    var updated := AddXP(updated, session.pointsEarned);
    var drillIndex := FindDrillIndex(updated.drillStats, session.drillId);
    var drills := if drillIndex != -1
                  then updated.drillStats[drillIndex := UpdateDrillEntry(updated.drillStats[drillIndex], session)]
                  else updated.drillStats;
    updated.(drillStats := drills, sessionsToday := updated.sessionsToday + 1)
  }

  /** Only the entry of the session's drill changes; every other entry is kept as it was. */
  lemma ApplySessionOtherDrillsUnchanged(prev: UserStats, session: Session, now: int, k: int)
    requires 0 <= k < |prev.drillStats| && prev.drillStats[k].drillId != session.drillId
    ensures ApplySession(prev, session, now).drillStats[k] == prev.drillStats[k]
  {
  }

  /** A session keeps the profile's drill ids as they are, so distinct ids stay distinct. */
  lemma ApplySessionKeepsIds(prev: UserStats, session: Session, now: int)
    requires DistinctIds(prev.drillStats)
    ensures DistinctIds(ApplySession(prev, session, now).drillStats)
    ensures forall k :: 0 <= k < |prev.drillStats| ==>
      ApplySession(prev, session, now).drillStats[k].drillId == prev.drillStats[k].drillId
  {
    var r := ApplySession(prev, session, now);
    forall k | 0 <= k < |prev.drillStats|
      ensures r.drillStats[k].drillId == prev.drillStats[k].drillId
    {
    }
    SameIdsDistinct(prev.drillStats, r.drillStats);
  }

  /** A profile whose level matches its points keeps that property through a session. */
  lemma ApplySessionLevelConsistent(prev: UserStats, session: Session, now: int)
    requires prev.totalPoints >= 0 && session.pointsEarned >= 0
    requires prev.level == LevelFromXp(prev.totalPoints)
    ensures ApplySession(prev, session, now).level == LevelFromXp(prev.totalPoints + session.pointsEarned)
    ensures ApplySession(prev, session, now).level >= prev.level
  {
    var r := ApplySession(prev, session, now);
    var xp := prev.totalPoints + session.pointsEarned;
    CumXpStep(r.level);
    LevelFromXpUnique(xp, r.level);
    LevelFromXpMonotone(prev.totalPoints, xp);
  }

  /**
   * The difficulty a drill screen plays at: that of the drill's first entry,
   * with 1 standing in for a missing entry or a difficulty of 0.
   */
  function DifficultyFor(u: UserStats, id: DrillId): (d: int)
    ensures d != 0
    ensures FindDrillIndex(u.drillStats, id) == -1 ==> d == 1
    ensures var i := FindDrillIndex(u.drillStats, id);
      i >= 0 ==> u.drillStats[i].drillId == id &&
                 d == (if u.drillStats[i].difficulty == 0 then 1 else u.drillStats[i].difficulty)
  {
    var i := FindDrillIndex(u.drillStats, id);
    if i == -1 || u.drillStats[i].difficulty == 0 then 1 else u.drillStats[i].difficulty
  }

  /** With every stored difficulty in 1..10, a drill screen plays at a difficulty in 1..10. */
  lemma DifficultyForRange(u: UserStats, id: DrillId)
    requires forall k :: 0 <= k < |u.drillStats| ==> 1 <= u.drillStats[k].difficulty <= 10
    ensures 1 <= DifficultyFor(u, id) <= 10
  {
  }

  /** The store after a completed session: the activity log records it, then the profile is saved. */
  function SessionEntries(entries: map<string, StoredValue>, session: Session, now: int, stats: UserStats)
    : (r: map<string, StoredValue>)
    requires WellTyped(entries)
    ensures WellTyped(r)
    ensures UserStatsKey in r && r[UserStatsKey] == StatsRecord(stats)
    ensures DailyActivityKey in r && r[DailyActivityKey] == ActivityRecord(Prune(MergeActivity(
      StoredActivities(entries), session.drillId, session.pointsEarned, DayOf(now)), now))
  {
    StoreKeysDistinct();
    entries
      [DailyActivityKey := ActivityRecord(Prune(MergeActivity(
          StoredActivities(entries), session.drillId, session.pointsEarned, DayOf(now)), now))]
      [UserStatsKey := StatsRecord(stats)]
  }

  /** Recording a session adds only the log and the profile to the store; every other key keeps its value. */
  lemma SessionEntriesOtherKeys(entries: map<string, StoredValue>, session: Session, now: int, stats: UserStats)
    requires WellTyped(entries)
    ensures SessionEntries(entries, session, now, stats).Keys == entries.Keys + {DailyActivityKey, UserStatsKey}
    ensures forall key :: key in entries && key != DailyActivityKey && key != UserStatsKey ==>
      SessionEntries(entries, session, now, stats)[key] == entries[key]
  {
  }

  /**
   * What completing `session` at `now` does to the provider: the profile
   * `stats` becomes `stats'` by ApplySession, and the store `entries`
   * becomes `entries'`, which records the session and saves `stats'`.
   */
  predicate SessionRecorded(stats: UserStats, entries: map<string, StoredValue>, session: Session, now: int,
                            stats': UserStats, entries': map<string, StoredValue>)
  {
    WellTyped(entries) && stats' == ApplySession(stats, session, now) &&
    entries' == SessionEntries(entries, session, now, stats')
  }

  /** The points the sessions earn together. */
  function PointsOf(sessions: seq<Session>): int
  {
    if sessions == [] then 0 else sessions[0].pointsEarned + PointsOf(sessions[1..])
  }

  /**
   * The profile and the store after the queued completeSession updaters run
   * in order at `now`, each as ApplyNextUpdate runs it.
   */
  function Replay(stats: UserStats, entries: map<string, StoredValue>, sessions: seq<Session>, now: int)
    : (r: (UserStats, map<string, StoredValue>))
    requires WellTyped(entries)
    ensures WellTyped(r.1)
    decreases |sessions|
  {
    if sessions == [] then (stats, entries)
    else
      var stats' := ApplySession(stats, sessions[0], now);
      Replay(stats', SessionEntries(entries, sessions[0], now, stats'), sessions[1..], now)
  }

  /**
   * What a render adds up to: the points of all the queued sessions, one
   * session today per session, the same number of drill entries, and, after
   * at least one session, a store that holds the final profile.
   */
  lemma {:induction false} ReplayTotals(stats: UserStats, entries: map<string, StoredValue>,
                                        sessions: seq<Session>, now: int)
    requires WellTyped(entries)
    ensures var r := Replay(stats, entries, sessions, now);
      r.0.totalPoints == stats.totalPoints + PointsOf(sessions) &&
      r.0.sessionsToday == stats.sessionsToday + |sessions| &&
      |r.0.drillStats| == |stats.drillStats| &&
      (sessions != [] ==> UserStatsKey in r.1 && r.1[UserStatsKey] == StatsRecord(r.0))
    decreases |sessions|
  {
    if sessions != [] {
      var stats' := ApplySession(stats, sessions[0], now);
      var entries' := SessionEntries(entries, sessions[0], now, stats');
      ReplayTotals(stats', entries', sessions[1..], now);
    }
  }

  /** One queued session replays to exactly what completing it records. */
  lemma ReplaySingle(stats: UserStats, entries: map<string, StoredValue>, session: Session, now: int)
    requires WellTyped(entries)
    ensures var r := Replay(stats, entries, [session], now);
      SessionRecorded(stats, entries, session, now, r.0, r.1)
  {
    var stats' := ApplySession(stats, session, now);
    assert [session][1..] == [];
    assert Replay(stats, entries, [session], now)
        == Replay(stats', SessionEntries(entries, session, now, stats'), [], now);
  }

  /** The provider: the profile in memory and the store it is loaded from and synced to. */
  class GameProvider {
    var userStats: UserStats
    const store: ProfileStore
    /** The completeSession updaters React has queued and not yet run. */
    var pending: seq<Session>

    predicate Valid()
      reads this, store
    {
      store.Valid()
    }

    /** The profile is loaded from the store, and the sync effect writes it back. */
    constructor(store: ProfileStore, now: int)
      requires store.Valid()
      modifies store
      ensures Valid() && this.store == store
      ensures userStats == LoadedStats(old(store.entries), now)
      ensures store.entries == old(store.entries)[UserStatsKey := StatsRecord(userStats)]
      ensures pending == []
    {
      this.store := store;
      var loaded := store.GetUserStats(now);
      userStats := loaded;
      pending := [];
      new;
      store.SaveUserStats(userStats);
    }

    /**
     * completeSession hands React an updater for the profile: the session is
     * queued, and the profile and the store change only when the queue is
     * rendered.
     */
    method CompleteSession(session: Session)
      requires Valid()
      modifies this
      ensures Valid()
      ensures pending == old(pending) + [session] && userStats == old(userStats)
    {
      pending := pending + [session];
    }

    /**
     * The first queued updater runs at `now`: the profile becomes
     * ApplySession of the old one and the session is recorded once in the
     * activity log; the sync effect then saves the new profile.
     */
    method ApplyNextUpdate(now: int)
      requires Valid() && pending != []
      modifies this, store
      ensures Valid() && pending == old(pending)[1..]
      ensures SessionRecorded(old(userStats), old(store.entries), old(pending)[0], now, userStats, store.entries)
    {
      var session := pending[0];
      var updated := ApplySession(userStats, session, now);
      store.RecordActivity(session.drillId, session.pointsEarned, now);
      userStats := updated;
      pending := pending[1..];
      store.SaveUserStats(userStats);
    }

    /** A render at `now`: the queued updaters run in order and the queue empties. */
    method Render(now: int)
      requires Valid()
      modifies this, store
      ensures Valid() && pending == []
      ensures (userStats, store.entries) == Replay(old(userStats), old(store.entries), old(pending), now)
    {
      while pending != []
        invariant Valid()
        invariant Replay(userStats, store.entries, pending, now)
               == Replay(old(userStats), old(store.entries), old(pending), now)
        decreases |pending|
      {
        ApplyNextUpdate(now);
      }
    }

    /** refreshStats: the profile is reloaded from the store and synced back. */
    method RefreshStats(now: int)
      requires Valid()
      modifies this, store
      ensures Valid()
      ensures userStats == LoadedStats(old(store.entries), now)
      ensures store.entries == old(store.entries)[UserStatsKey := StatsRecord(userStats)]
      ensures pending == old(pending)
    {
      var loaded := store.GetUserStats(now);
      userStats := loaded;
      store.SaveUserStats(userStats);
    }
  }
}
