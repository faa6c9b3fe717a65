/**
 * The profile store of src/services/storage.ts. Browser local storage is a
 * map from key to a stored record; JSON (de)serialisation is the identity.
 * Loading the profile backfills drills that have no entry yet; the daily
 * activity log is merged by day and pruned to the last 90 days.
 */
module Storage {
  import opened Types
  import opened Constants
  import opened Calculations

  const UserStatsKey := "tramind_user_stats"
  const DailyActivityKey := "tramind_daily_activity"
  const SessionsHistoryKey := "tramind_sessions_history"

  /** The profile and the activity log are stored under different keys. */
  lemma StoreKeysDistinct()
    ensures UserStatsKey != DailyActivityKey
  {
    assert |UserStatsKey| != |DailyActivityKey|;
  }

  /** What a key of the store can hold. */
  datatype StoredValue =
    | StatsRecord(stats: UserStats)
    | ActivityRecord(activities: seq<DailyActivity>)
    | OtherRecord(text: string)

  /** The two keys the app reads hold records of the shape it expects. */
  predicate WellTyped(entries: map<string, StoredValue>)
  {
    (UserStatsKey in entries ==> entries[UserStatsKey].StatsRecord?) &&
    (DailyActivityKey in entries ==> entries[DailyActivityKey].ActivityRecord?)
  }

  // ---------------------------------------------------------------------
  // Defaults and backfill

  /** A drill entry that has never been played. */
  function DefaultDrillStats(id: DrillId, now: int): (d: DrillStats)
    ensures d.drillId == id && d.sessionsCompleted == 0 && d.bestScore == 0
    ensures d.difficulty == 1 && d.level == 1 && d.recentScores == []
  {
    DrillStats(id, 0, 0, 0.0, 0.0, 1, now, [], 1)
  }

  /** No two entries are about the same drill. */
  predicate DistinctIds(ds: seq<DrillStats>)
  {
    forall i, j :: 0 <= i < j < |ds| ==> ds[i].drillId != ds[j].drillId
  }

  /** Entries that carry the same ids, position by position, are as distinct as each other. */
  lemma SameIdsDistinct(ds: seq<DrillStats>, es: seq<DrillStats>)
    requires DistinctIds(ds) && |ds| == |es|
    requires forall k :: 0 <= k < |ds| ==> es[k].drillId == ds[k].drillId
    ensures DistinctIds(es)
  {
  }

  /** getDefaultUserStats: a fresh profile with one untouched entry per configured drill. */
  function DefaultUserStats(now: int): (u: UserStats)
    ensures u.totalPoints == 0 && u.level == 1 && u.currentXP == 0
    ensures u.currentStreak == 0 && u.longestStreak == 0 && u.lastActive == now
    ensures u.freezeDaysAvailable == 0 && u.sessionsToday == 0 && !u.dailyGoalCompleted
    ensures u.achievements == []
    ensures |u.drillStats| == |DrillConfigs|
    ensures forall i :: 0 <= i < |DrillConfigs| ==>
      u.drillStats[i] == DefaultDrillStats(DrillConfigs[i].id, now)
    ensures DistinctIds(u.drillStats)
  {
    var ds := seq(|DrillConfigs|, i requires 0 <= i < |DrillConfigs| => DefaultDrillStats(DrillConfigs[i].id, now));
    DrillConfigIdsDistinct();
    UserStats(0, 1, 0, 0, 0, now, ds, [], 0, 0, false)
  }

  /** The default profile is consistent with the level curve: level 1, no experience. */
  lemma DefaultUserStatsLevel(now: int)
    ensures DefaultUserStats(now).level == LevelFromXp(DefaultUserStats(now).totalPoints)
    ensures DefaultUserStats(now).currentXP == 0 - CumXp(1)
  {
    LevelFromXpIsLargest(0, 1);
  }

  /** The drills that have an entry. */
  function Ids(ds: seq<DrillStats>): set<DrillId>
  {
    set d | d in ds :: d.drillId
  }

  /**
   * The default entries to append for the configurations `cs` whose drill is
   * not in `existing`, in configuration order.
   */
  function MissingEntries(existing: set<DrillId>, cs: seq<DrillConfig>, now: int): (r: seq<DrillStats>)
    ensures |r| <= |cs|
    ensures forall k :: 0 <= k < |r| ==>
      r[k].drillId !in existing && r[k] == DefaultDrillStats(r[k].drillId, now)
  {
    if |cs| == 0 then []
    else
      var rest := MissingEntries(existing, cs[..|cs| - 1], now);
      var c := cs[|cs| - 1];
      if c.id !in existing then rest + [DefaultDrillStats(c.id, now)] else rest
  }

  /** Every configured drill without an entry gets one appended. */
  lemma {:induction false} MissingEntriesCover(existing: set<DrillId>, cs: seq<DrillConfig>, now: int, c: DrillConfig)
    requires c in cs && c.id !in existing
    ensures exists k :: 0 <= k < |MissingEntries(existing, cs, now)| && MissingEntries(existing, cs, now)[k].drillId == c.id
  {
    var init := cs[..|cs| - 1];
    var last := cs[|cs| - 1];
    var rest := MissingEntries(existing, init, now);
    var r := MissingEntries(existing, cs, now);
    assert r == if last.id !in existing then rest + [DefaultDrillStats(last.id, now)] else rest;
    if c == last {
      assert r[|r| - 1].drillId == c.id;
    } else {
      assert c in init by {
        var i :| 0 <= i < |cs| && cs[i] == c;
        assert i < |cs| - 1 && init[i] == c;
      }
      MissingEntriesCover(existing, init, now, c);
      var k :| 0 <= k < |rest| && rest[k].drillId == c.id;
      assert r[k] == rest[k];
    }
  }

  /** Every appended entry is about a drill of `cs`. */
  lemma {:induction false} MissingEntriesFromConfigs(existing: set<DrillId>, cs: seq<DrillConfig>, now: int)
    ensures forall k :: 0 <= k < |MissingEntries(existing, cs, now)| ==>
      exists c :: c in cs && c.id == MissingEntries(existing, cs, now)[k].drillId
  {
    if |cs| > 0 {
      var init := cs[..|cs| - 1];
      var c := cs[|cs| - 1];
      MissingEntriesFromConfigs(existing, init, now);
      var rest := MissingEntries(existing, init, now);
      var r := MissingEntries(existing, cs, now);
      assert r == if c.id !in existing then rest + [DefaultDrillStats(c.id, now)] else rest;
      forall k | 0 <= k < |r|
        ensures exists c' :: c' in cs && c'.id == r[k].drillId
      {
        if k < |rest| {
          var c' :| c' in init && c'.id == rest[k].drillId;
          assert c' in cs;
        } else {
          assert c in cs;
        }
      }
    } else {
      assert MissingEntries(existing, cs, now) == [];
    }
  }

  /** Configurations with distinct drills yield entries with distinct drills. */
  lemma {:induction false} MissingEntriesDistinct(existing: set<DrillId>, cs: seq<DrillConfig>, now: int)
    requires forall i, j :: 0 <= i < j < |cs| ==> cs[i].id != cs[j].id
    ensures DistinctIds(MissingEntries(existing, cs, now))
  {
    if |cs| > 0 {
      var init := cs[..|cs| - 1];
      var c := cs[|cs| - 1];
      MissingEntriesDistinct(existing, init, now);
      MissingEntriesFromConfigs(existing, init, now);
      var rest := MissingEntries(existing, init, now);
      forall k | 0 <= k < |rest|
        ensures rest[k].drillId != c.id
      {
        var c' :| c' in init && c'.id == rest[k].drillId;
        var i :| 0 <= i < |init| && init[i] == c';
        assert cs[i] == c' && i < |cs| - 1;
      }
      var r := MissingEntries(existing, cs, now);
      assert r == if c.id !in existing then rest + [DefaultDrillStats(c.id, now)] else rest;
    }
  }

  /** Nothing is missing when every configured drill already has an entry. */
  lemma {:induction false} MissingEntriesNone(existing: set<DrillId>, cs: seq<DrillConfig>, now: int)
    requires forall c :: c in cs ==> c.id in existing
    ensures MissingEntries(existing, cs, now) == []
  {
    if |cs| > 0 {
      assert cs[|cs| - 1] in cs;
      MissingEntriesNone(existing, cs[..|cs| - 1], now);
    }
  }

  /** The drill list after loading: the stored entries, then a default entry per missing drill. */
  function Backfill(ds: seq<DrillStats>, now: int): (r: seq<DrillStats>)
    ensures |ds| <= |r| && r[..|ds|] == ds
    ensures forall k :: |ds| <= k < |r| ==> r[k].drillId !in Ids(ds)
  {
    var m := MissingEntries(Ids(ds), DrillConfigs, now);
    var r := ds + m;
    assert r[..|ds|] == ds;
    assert forall k :: |ds| <= k < |r| ==> r[k] == m[k - |ds|];
    r
  }

  /** After a backfill every drill has an entry. */
  lemma BackfillCoversAll(ds: seq<DrillStats>, now: int, id: DrillId)
    ensures exists k :: 0 <= k < |Backfill(ds, now)| && Backfill(ds, now)[k].drillId == id
  {
    var r := Backfill(ds, now);
    var c := DrillConfigs[ConfigIndex(id)];
    if id in Ids(ds) {
      var d :| d in ds && d.drillId == id;
      var k :| 0 <= k < |ds| && ds[k] == d;
      assert r[k] == d;
    } else {
      var m := MissingEntries(Ids(ds), DrillConfigs, now);
      MissingEntriesCover(Ids(ds), DrillConfigs, now, c);
      var k :| 0 <= k < |m| && m[k].drillId == id;
      assert r[|ds| + k] == m[k];
    }
  }

  /** A backfill never creates a second entry for a drill. */
  lemma BackfillNoDuplicates(ds: seq<DrillStats>, now: int)
    requires DistinctIds(ds)
    ensures DistinctIds(Backfill(ds, now))
  {
    var m := MissingEntries(Ids(ds), DrillConfigs, now);
    var r := Backfill(ds, now);
    DrillConfigIdsDistinct();
    MissingEntriesDistinct(Ids(ds), DrillConfigs, now);
    forall i, j | 0 <= i < j < |r|
      ensures r[i].drillId != r[j].drillId
    {
      if j >= |ds| && i < |ds| {
        assert r[i] in ds;
      } else if i >= |ds| {
        assert r[i] == m[i - |ds|] && r[j] == m[j - |ds|];
      }
    }
  }

  /** Backfilling twice is backfilling once. */
  lemma BackfillIdempotent(ds: seq<DrillStats>, now: int)
    ensures Backfill(Backfill(ds, now), now) == Backfill(ds, now)
  {
    var r := Backfill(ds, now);
    forall c | c in DrillConfigs
      ensures c.id in Ids(r)
    {
      BackfillCoversAll(ds, now, c.id);
      var k :| 0 <= k < |r| && r[k].drillId == c.id;
      assert r[k] in r;
    }
    MissingEntriesNone(Ids(r), DrillConfigs, now);
    assert r + [] == r;
  }

  /** The backfill loop of getUserStats: one default entry pushed per configured drill without one. */
  method BackfillDrills(stored: seq<DrillStats>, now: int) returns (ds: seq<DrillStats>)
    ensures ds == Backfill(stored, now)
  {
    var existing := Ids(stored);
    ds := stored;
    var i := 0;
    while i < |DrillConfigs|
      invariant 0 <= i <= |DrillConfigs|
      invariant ds == stored + MissingEntries(existing, DrillConfigs[..i], now)
    {
      assert DrillConfigs[..i + 1][..i] == DrillConfigs[..i];
      if DrillConfigs[i].id !in existing {
        ds := ds + [DefaultDrillStats(DrillConfigs[i].id, now)];
      }
      i := i + 1;
    }
    assert DrillConfigs[..i] == DrillConfigs;
  }

  /** The profile that getUserStats returns for a store holding `entries`. */
  function LoadedStats(entries: map<string, StoredValue>, now: int): (u: UserStats)
    requires WellTyped(entries)
    ensures UserStatsKey !in entries ==> u == DefaultUserStats(now)
    ensures UserStatsKey in entries ==>
      var p := entries[UserStatsKey].stats;
      u == p.(drillStats := u.drillStats) &&
      |p.drillStats| <= |u.drillStats| && u.drillStats[..|p.drillStats|] == p.drillStats
  {
    if UserStatsKey in entries then
      var p := entries[UserStatsKey].stats;
      p.(drillStats := Backfill(p.drillStats, now))
    else DefaultUserStats(now)
  }

  /** Loading keeps drill entries distinct when the stored ones are. */
  lemma LoadedStatsDistinct(entries: map<string, StoredValue>, now: int)
    requires WellTyped(entries)
    requires UserStatsKey in entries ==> DistinctIds(entries[UserStatsKey].stats.drillStats)
    ensures DistinctIds(LoadedStats(entries, now).drillStats)
  {
    if UserStatsKey in entries {
      BackfillNoDuplicates(entries[UserStatsKey].stats.drillStats, now);
    }
  }

  /** The daily-activity list the store holds (an absent key reads as the empty list). */
  function StoredActivities(entries: map<string, StoredValue>): seq<DailyActivity>
    requires WellTyped(entries)
  {
    if DailyActivityKey in entries then entries[DailyActivityKey].activities else []
  }

  // ---------------------------------------------------------------------
  // Drill lookup and partial update

  /** findIndex: the first entry about `id`, or -1. */
  function FindDrillIndex(ds: seq<DrillStats>, id: DrillId): (i: int)
    ensures -1 <= i < |ds|
    ensures i == -1 <==> forall k :: 0 <= k < |ds| ==> ds[k].drillId != id
    ensures i >= 0 ==> ds[i].drillId == id && forall k :: 0 <= k < i ==> ds[k].drillId != id
  {
    if |ds| == 0 then -1
    else if ds[0].drillId == id then 0
    else
      var j := FindDrillIndex(ds[1..], id);
      if j == -1 then -1 else j + 1
  }

  /** A Partial<DrillStats>: each field is either given or left alone. */
  datatype DrillStatsPatch = DrillStatsPatch(
    drillId: Option<DrillId>,
    sessionsCompleted: Option<int>,
    bestScore: Option<int>,
    averageScore: Option<real>,
    totalTimeSpent: Option<real>,
    difficulty: Option<int>,
    lastPlayed: Option<int>,
    recentScores: Option<seq<int>>,
    level: Option<int>)

  function Pick<T>(given: Option<T>, current: T): T
  {
    if given.Some? then given.value else current
  }

  /** The object spread {...d, ...p}: the given fields of `p` over `d`. */
  function ApplyPatch(d: DrillStats, p: DrillStatsPatch): (r: DrillStats)
    ensures p.drillId.None? ==> r.drillId == d.drillId
    ensures p.drillId.Some? ==> r.drillId == p.drillId.value
    ensures p.sessionsCompleted.None? ==> r.sessionsCompleted == d.sessionsCompleted
    ensures p.sessionsCompleted.Some? ==> r.sessionsCompleted == p.sessionsCompleted.value
    ensures p.bestScore.None? ==> r.bestScore == d.bestScore
    ensures p.bestScore.Some? ==> r.bestScore == p.bestScore.value
    ensures p.averageScore.None? ==> r.averageScore == d.averageScore
    ensures p.averageScore.Some? ==> r.averageScore == p.averageScore.value
    ensures p.totalTimeSpent.None? ==> r.totalTimeSpent == d.totalTimeSpent
    ensures p.totalTimeSpent.Some? ==> r.totalTimeSpent == p.totalTimeSpent.value
    ensures p.difficulty.None? ==> r.difficulty == d.difficulty
    ensures p.difficulty.Some? ==> r.difficulty == p.difficulty.value
    ensures p.lastPlayed.None? ==> r.lastPlayed == d.lastPlayed
    ensures p.lastPlayed.Some? ==> r.lastPlayed == p.lastPlayed.value
    ensures p.recentScores.None? ==> r.recentScores == d.recentScores
    ensures p.recentScores.Some? ==> r.recentScores == p.recentScores.value
    ensures p.level.None? ==> r.level == d.level
    ensures p.level.Some? ==> r.level == p.level.value
  {
    DrillStats(
      Pick(p.drillId, d.drillId),
      Pick(p.sessionsCompleted, d.sessionsCompleted),
      Pick(p.bestScore, d.bestScore),
      Pick(p.averageScore, d.averageScore),
      Pick(p.totalTimeSpent, d.totalTimeSpent),
      Pick(p.difficulty, d.difficulty),
      Pick(p.lastPlayed, d.lastPlayed),
      Pick(p.recentScores, d.recentScores),
      Pick(p.level, d.level))
  }

  /** Applying the same update twice is applying it once; the empty update changes nothing. */
  lemma ApplyPatchIdempotent(d: DrillStats, p: DrillStatsPatch)
    ensures ApplyPatch(ApplyPatch(d, p), p) == ApplyPatch(d, p)
    ensures ApplyPatch(d, DrillStatsPatch(None, None, None, None, None, None, None, None, None)) == d
  {
  }

  // ---------------------------------------------------------------------
  // Daily activity

  /** find: the first activity of day `day`, or -1. */
  function FindDate(acts: seq<DailyActivity>, day: int): (i: int)
    ensures -1 <= i < |acts|
    ensures i == -1 <==> forall k :: 0 <= k < |acts| ==> acts[k].date != day
    ensures i >= 0 ==> acts[i].date == day && forall k :: 0 <= k < i ==> acts[k].date != day
  {
    if |acts| == 0 then -1
    else if acts[0].date == day then 0
    else
      var j := FindDate(acts[1..], day);
      if j == -1 then -1 else j + 1
  }

  /** One more session of `drillId` worth `points` on an existing day. */
  function Bump(a: DailyActivity, drillId: DrillId, points: int): (r: DailyActivity)
    ensures r.date == a.date
    ensures r.sessionsCompleted == a.sessionsCompleted + 1
    ensures r.pointsEarned == a.pointsEarned + points
    ensures drillId in r.drillsCompleted
    ensures drillId in a.drillsCompleted ==> r.drillsCompleted == a.drillsCompleted
    ensures drillId !in a.drillsCompleted ==> r.drillsCompleted == a.drillsCompleted + [drillId]
  {
    a.(sessionsCompleted := a.sessionsCompleted + 1,
       pointsEarned := a.pointsEarned + points,
       drillsCompleted := if drillId in a.drillsCompleted then a.drillsCompleted
                          else a.drillsCompleted + [drillId])
  }

  /**
   * The activity list with one session recorded on day `day`: the first
   * entry of that day is bumped, or a new entry is appended.
   */
  function MergeActivity(acts: seq<DailyActivity>, drillId: DrillId, points: int, day: int)
    : (r: seq<DailyActivity>)
    ensures FindDate(acts, day) >= 0 ==>
      var i := FindDate(acts, day);
      |r| == |acts| && r[i] == Bump(acts[i], drillId, points) &&
      forall k :: 0 <= k < |acts| && k != i ==> r[k] == acts[k]
    ensures FindDate(acts, day) == -1 ==>
      r == acts + [DailyActivity(day, 1, points, [drillId])]
  {
    var i := FindDate(acts, day);
    if i >= 0 then acts[i := Bump(acts[i], drillId, points)]
    else
      var r := acts + [DailyActivity(day, 1, points, [drillId])];
      assert r[|acts|].date == day;
      r
  }

  /** An activity survives pruning when its day starts no earlier than 90 days before `now`. */
  predicate Recent(a: DailyActivity, now: int)
  {
    a.date * DayMs >= now - 90 * DayMs
  }

  /** The recent activities, in their original order. */
  function Prune(acts: seq<DailyActivity>, now: int): (r: seq<DailyActivity>)
    ensures |r| <= |acts|
    ensures forall a :: a in r <==> a in acts && Recent(a, now)
  {
    if |acts| == 0 then []
    else
      var init := acts[..|acts| - 1];
      var last := acts[|acts| - 1];
      assert forall a :: a in acts <==> a in init || a == last;
      Prune(init, now) + (if Recent(last, now) then [last] else [])
  }

  /** Pruning distributes over concatenation, so it keeps the order of the log. */
  lemma {:induction false} PruneAppend(a: seq<DailyActivity>, b: seq<DailyActivity>, now: int)
    ensures Prune(a + b, now) == Prune(a, now) + Prune(b, now)
    decreases |b|
  {
    if |b| == 0 {
      assert a + b == a;
    } else {
      var b' := b[..|b| - 1];
      assert (a + b)[..|a + b| - 1] == a + b';
      PruneAppend(a, b', now);
    }
  }

  /** Pruning twice is pruning once. */
  lemma {:induction false} PruneIdempotent(acts: seq<DailyActivity>, now: int)
    ensures Prune(Prune(acts, now), now) == Prune(acts, now)
  {
    if |acts| > 0 {
      var init := acts[..|acts| - 1];
      var last := acts[|acts| - 1];
      PruneIdempotent(init, now);
      var tail := if Recent(last, now) then [last] else [];
      PruneAppend(Prune(init, now), tail, now);
      if Recent(last, now) {
        assert Prune(tail, now) == Prune([], now) + [last];
      }
    }
  }

  /** Today's activity is never pruned. */
  lemma TodaySurvivesPruning(a: DailyActivity, now: int)
    requires a.date == DayOf(now)
    ensures Recent(a, now)
  {
  }

  /** After recording, today's entry is kept and lists the drill. */
  lemma RecordedDayKept(acts: seq<DailyActivity>, drillId: DrillId, points: int, now: int)
    ensures exists a :: a in Prune(MergeActivity(acts, drillId, points, DayOf(now)), now) &&
                        a.date == DayOf(now) && drillId in a.drillsCompleted
  {
    var merged := MergeActivity(acts, drillId, points, DayOf(now));
    var i := FindDate(acts, DayOf(now));
    var k := if i >= 0 then i else |acts|;
    assert merged[k].date == DayOf(now) && drillId in merged[k].drillsCompleted;
    TodaySurvivesPruning(merged[k], now);
    assert merged[k] in merged;
  }

  // ---------------------------------------------------------------------
  // The store

  class ProfileStore {
    var entries: map<string, StoredValue>

    predicate Valid()
      reads this
    {
      WellTyped(entries)
    }

    constructor(initial: map<string, StoredValue>)
      requires WellTyped(initial)
      ensures Valid() && entries == initial
    {
      entries := initial;
    }

    /** saveUserStats. */
    method SaveUserStats(stats: UserStats)
      requires Valid()
      modifies this
      ensures Valid()
      ensures entries == old(entries)[UserStatsKey := StatsRecord(stats)]
    {
      entries := entries[UserStatsKey := StatsRecord(stats)];
    }

    /**
     * getUserStats: with no stored profile the defaults are saved and
     * returned; otherwise the stored profile is returned with a default
     * entry appended for each configured drill it lacks (that completed
     * profile is not written back).
     */
    method GetUserStats(now: int) returns (u: UserStats)
      requires Valid()
      modifies this
      ensures Valid()
      ensures u == LoadedStats(old(entries), now)
      ensures UserStatsKey in old(entries) ==> entries == old(entries)
      ensures UserStatsKey !in old(entries) ==> entries == old(entries)[UserStatsKey := StatsRecord(u)]
    {
      if UserStatsKey !in entries {
        var defaultStats := DefaultUserStats(now);
        SaveUserStats(defaultStats);
        return defaultStats;
      }
      var parsed := entries[UserStatsKey].stats;
      var ds := BackfillDrills(parsed.drillStats, now);
      u := parsed.(drillStats := ds);
    }

    /** getDrillStats: after loading, every drill has an entry, so one is always found. */
    method GetDrillStats(id: DrillId, now: int) returns (d: Option<DrillStats>)
      requires Valid()
      modifies this
      ensures Valid()
      ensures d.Some? && d.value.drillId == id
      ensures var ds := LoadedStats(old(entries), now).drillStats;
        0 <= FindDrillIndex(ds, id) && d.value == ds[FindDrillIndex(ds, id)]
    {
      var userStats := GetUserStats(now);
      LoadedStatsCoversId(old(entries), now, id);
      // find() cannot come back empty here: the loaded profile covers every drill
      var i := FindDrillIndex(userStats.drillStats, id);
      d := Some(userStats.drillStats[i]);
    }

    /**
     * updateDrillStats: the first entry about `id` of the loaded profile gets
     * the given fields, and the whole profile is saved.
     */
    method UpdateDrillStats(id: DrillId, patch: DrillStatsPatch, now: int)
      requires Valid()
      modifies this
      ensures Valid()
      ensures var u := LoadedStats(old(entries), now);
        var i := FindDrillIndex(u.drillStats, id);
        0 <= i &&
        entries == old(entries)[UserStatsKey := StatsRecord(
          u.(drillStats := u.drillStats[i := ApplyPatch(u.drillStats[i], patch)]))]
    {
      var userStats := GetUserStats(now);
      LoadedStatsCoversId(old(entries), now, id);
      var drillIndex := FindDrillIndex(userStats.drillStats, id);
      if drillIndex != -1 {
        var updated := userStats.drillStats[drillIndex := ApplyPatch(userStats.drillStats[drillIndex], patch)];
        SaveUserStats(userStats.(drillStats := updated));
      }
    }

    /** getDailyActivity: the stored log, or the empty log. */
    method GetDailyActivity() returns (acts: seq<DailyActivity>)
      requires Valid()
      ensures acts == StoredActivities(entries)
      ensures DailyActivityKey !in entries ==> acts == []
    {
      if DailyActivityKey in entries {
        acts := entries[DailyActivityKey].activities;
      } else {
        acts := [];
      }
    }

    /** saveDailyActivity. */
    method SaveDailyActivity(acts: seq<DailyActivity>)
      requires Valid()
      modifies this
      ensures Valid()
      ensures entries == old(entries)[DailyActivityKey := ActivityRecord(acts)]
    {
      entries := entries[DailyActivityKey := ActivityRecord(acts)];
    }

    /**
     * recordActivity: today's entry is bumped (or created), entries older
     * than 90 days are dropped, and the log is saved. Only the activity key
     * changes.
     */
    method RecordActivity(drillId: DrillId, pointsEarned: int, now: int)
      requires Valid()
      modifies this
      ensures Valid()
      ensures entries == old(entries)[DailyActivityKey := ActivityRecord(
        Prune(MergeActivity(StoredActivities(old(entries)), drillId, pointsEarned, DayOf(now)), now))]
    {
      var today := DayOf(now);
      var activities := GetDailyActivity();
      var i := FindDate(activities, today);
      if i >= 0 {
        activities := activities[i := Bump(activities[i], drillId, pointsEarned)];
      } else {
        activities := activities + [DailyActivity(today, 1, pointsEarned, [drillId])];
      }
      var filtered := Prune(activities, now);
      SaveDailyActivity(filtered);
    }

    /** clearAllData: the three keys of the app are removed, nothing else. */
    method ClearAllData()
      requires Valid()
      modifies this
      ensures Valid()
      ensures entries == old(entries) - {UserStatsKey, DailyActivityKey, SessionsHistoryKey}
      ensures UserStatsKey !in entries && DailyActivityKey !in entries
    {
      entries := entries - {UserStatsKey, DailyActivityKey, SessionsHistoryKey};
    }
  }

  /** The loaded profile has an entry about `id`. */
  lemma LoadedStatsCoversId(entries: map<string, StoredValue>, now: int, id: DrillId)
    requires WellTyped(entries)
    ensures FindDrillIndex(LoadedStats(entries, now).drillStats, id) >= 0
  {
    var ds := LoadedStats(entries, now).drillStats;
    if UserStatsKey in entries {
      BackfillCoversAll(entries[UserStatsKey].stats.drillStats, now, id);
    } else {
      assert ds[ConfigIndex(id)].drillId == id;
    }
  }

  /** After clearing, loading yields the default profile and an empty activity log. */
  lemma ClearedStoreLoadsDefaults(entries: map<string, StoredValue>, now: int)
    requires WellTyped(entries)
    ensures WellTyped(entries - {UserStatsKey, DailyActivityKey, SessionsHistoryKey})
    ensures LoadedStats(entries - {UserStatsKey, DailyActivityKey, SessionsHistoryKey}, now)
         == DefaultUserStats(now)
    ensures StoredActivities(entries - {UserStatsKey, DailyActivityKey, SessionsHistoryKey}) == []
  {
  }
}
