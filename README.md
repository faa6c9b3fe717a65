# tramind drill training — a verified Dafny model

tramind is a browser app for short attention drills: keyboard and mouse reflex, peripheral
awareness, impulse control and sustained focus. Every finished drill session is scored, graded
with one to five stars and turned into experience points. The points feed a level curve, a
daily streak with freeze days, per-drill difficulty levels and a daily activity log, and the
profile is kept in the browser's key-value store.

This project models that scoring and progression pipeline, the profile store, and the round
state machines of four drills, and proves properties of each. Each source file becomes one
Dafny module:

| module | file | source |
|---|---|---|
| `Types` | types.dfy | the records of `src/types/drill.types.ts` and `src/types/user.types.ts` |
| `Constants` | constants.dfy | `src/utils/constants.ts` |
| `Calculations` | calculations.dfy | `src/utils/calculations.ts` |
| `Scoring` | scoring.dfy | `src/services/scoring.ts` |
| `Progression` | progression.dfy | `src/services/progression.ts` |
| `ReflexLogic` | reflex_logic.dfy | `src/components/drills/ReflexDrill/reflexLogic.ts` |
| `Storage` | storage.dfy | `src/services/storage.ts` |
| `GameContext` | game_context.dfy | `src/contexts/GameContext.tsx` |
| `KeyboardReflexDrill` | keyboard_reflex_drill.dfy | `src/components/drills/KeyboardReflexDrill/KeyboardReflexDrill.tsx` |
| `AwarenessDrill` | awareness_drill.dfy | `src/components/drills/AwarenessDrill/AwarenessDrill.tsx` |
| `ImpulseDrill` | impulse_drill.dfy | `src/components/drills/ImpulseDrill/ImpulseDrill.tsx` |
| `FocusDrill` | focus_drill.dfy | `src/components/drills/FocusDrill/FocusDrill.tsx` |

The modules fall into four groups:

- **Pure helpers.** Constants, calculations, scoring, progression and the reflex logic only
  compute values, so they are functions and lemmas. `getLevelFromXP` and
  `getXPForCurrentLevel` loop, so they are methods, each proved equal to a function that the
  lemmas describe.
- **The profile store.** It is a class over a map from storage key to stored value.
- **State that changes step by step.** The provider and each drill screen are classes. Each
  timer firing, key press or click the React code reacts to is one method. A drill's `Valid()`
  predicate is its invariant; `Common()` is the part of it that also holds between the steps
  of a single event.
- **Session completion.** A drill's results step calls `GameProvider.CompleteSession`. As in
  React, that only queues an updater: the provider keeps the queued sessions in `pending`.
  `GameProvider.ApplyNextUpdate` runs the first one: it applies the pure reducer `ApplySession`
  to the profile, records the session in the activity log, and the sync effect saves the new
  profile. `GameProvider.Render` runs the whole queue in order, and the pure fold `Replay`
  describes its result.

Numbers are modelled as follows:

- JavaScript numbers become exact integers or reals.
- `Math.floor` becomes `.Floor`.
- Dates are millisecond timestamps; the activity log's date is a UTC day number.
- The current time, `Math.random` and `Math.sqrt` are parameters (`now`, `rnd`, `sqrt`).

## Model

| member | source | states |
|---|---|---|
| Types.IdNameInjective | src/types/drill.types.ts:1 | distinct drills have distinct identifier strings |
| Constants.ThemeColor | src/utils/constants.ts:7-21 | a known colour name maps to its CSS variable, any other name to the 'primary' one; the result is always a mapped value |
| Constants.XpPerLevelPositive | src/utils/constants.ts:24-28 | every level from 1 up costs at least 1000 points, so the level search always advances |
| Constants.XpPerLevelIncreasing | src/utils/constants.ts:24-28 | the cost per level strictly increases, across the tier boundaries 5→6 and 10→11 too |
| Constants.ConfigIndex | src/utils/constants.ts:44-85 | every drill id has an entry in the configuration list |
| Constants.DrillConfigIdsDistinct | src/utils/constants.ts:44-85 | no drill is configured twice |
| Constants.DrillConfigColorsKnown | src/utils/constants.ts:44-85 | every configured colour is a known theme colour |
| Constants.DailyRecommendedTotal | src/utils/constants.ts:50-82 | the recommended daily sessions add up to 14 |
| Calculations.Mean | src/utils/calculations.ts:4-7 | the mean of no numbers is 0; otherwise mean × length = sum |
| Calculations.MeanWithin | src/utils/calculations.ts:4-7 | the mean lies between any lower and upper bound of the values |
| Calculations.MeanPositive | src/utils/calculations.ts:4-7 | the mean of positive values is positive |
| Calculations.Variance | src/utils/calculations.ts:11-12 | the mean squared deviation from the mean is never negative |
| Calculations.StandardDeviation | src/utils/calculations.ts:9-14 | the standard deviation is never negative and is 0 for no numbers |
| Calculations.MinOf | src/components/drills/ReflexDrill/reflexLogic.ts:49 | the minimum is at most every value and is one of them |
| Calculations.MinAtMostMean | src/components/drills/ReflexDrill/reflexLogic.ts:44-49 | the best (minimum) time is at most the average time |
| Calculations.Stars | src/utils/calculations.ts:17-24 | the star grade is always 1..5 |
| Calculations.StarsMonotone | src/utils/calculations.ts:17-24 | for a positive maximum, a higher score never earns fewer stars |
| Calculations.XpReward | src/utils/calculations.ts:27-37 | the reward is the floor of (floor(score/10) + 20·stars)·(10+difficulty)/10, and is non-negative for non-negative inputs |
| Calculations.CumXpMonotone | src/utils/calculations.ts:40-58 | the cumulative cost of the levels below a level never decreases |
| Calculations.CumXpStrictlyIncreasing | src/utils/calculations.ts:40-58 | from level 1 up, the cumulative cost strictly increases |
| Calculations.LevelFromXp | src/utils/calculations.ts:40-50 | the level is at least 1, its successor's cumulative cost exceeds the points, and for non-negative points the level's own cumulative cost is covered |
| Calculations.GetLevelFromXp | src/utils/calculations.ts:40-50 | the search loop returns exactly that level |
| Calculations.LevelFromXpIsLargest | src/utils/calculations.ts:40-50 | every level whose cumulative cost is covered is at most the level found: it is the largest |
| Calculations.LevelFromXpUnique | src/utils/calculations.ts:40-50 | a level whose cumulative cost is covered and whose successor's is not is the level found: the search has one answer |
| Calculations.LevelFromXpMonotone | src/utils/calculations.ts:40-50 | more points never give a lower level |
| Calculations.GetXpForCurrentLevel | src/utils/calculations.ts:52-58 | the summing loop returns the points minus the cumulative cost of the levels below |
| Calculations.XpRequiredForNextLevel | src/utils/calculations.ts:60-62 | a real level needs at least 1000 points |
| Calculations.CurrentLevelXpInRange | src/utils/calculations.ts:40-62 | for the level found, 0 ≤ points into the level < points the level needs |
| Calculations.StreakConfig | src/utils/calculations.ts:65-70 | the streak icon size is 20..32: 32 exactly from 30 days, 20 exactly below 7 |
| Calculations.StreakConfigMonotone | src/utils/calculations.ts:65-70 | a longer streak never shows a smaller icon |
| Calculations.DaysBetween | src/utils/calculations.ts:85-88 | the whole days between two times: non-negative, and the floor of the distance over one day |
| Calculations.DaysBetweenSymmetric | src/utils/calculations.ts:85-88 | the day count does not depend on the order of the two times |
| Calculations.DayOf | src/services/storage.ts:113 | the day number of a time is the whole day that contains it |
| Scoring.ReflexScore | src/services/scoring.ts:10-28 | the reflex score is never negative, is 0 with no reaction times, and is at most 1300 for a positive mean |
| Scoring.ReflexPreFloorAtMost | src/services/scoring.ts:15-22 | before flooring, the reflex score is at most 1000 × 1.3 |
| Scoring.ReflexFalseStartPenalty | src/services/scoring.ts:25 | one more false start lowers the score before flooring by exactly 50 |
| Scoring.ReflexScoreExample | src/services/scoring.ts:10-28 | three 200 ms times without a false start score 1040 |
| Scoring.AwarenessScore | src/services/scoring.ts:31-47 | 0 with no targets; otherwise max(0, 20·hits − 10·wrong), paid at 30 per hit when every target was hit without a wrong click |
| Scoring.RatioIsOne | src/services/scoring.ts:42 | a ratio equals 1.0 exactly when numerator and denominator are equal |
| Scoring.AwarenessScoreExample | src/services/scoring.ts:31-47 | 10 hits of 10 targets with no wrong click score 300 |
| Scoring.ImpulseScore | src/services/scoring.ts:50-75 | max(0, k·(100·resisted + 50·perfect − 50·early)) with k = 1.5 when every round was resisted, 1 otherwise |
| Scoring.ImpulseScoreExample | src/services/scoring.ts:50-75 | six rounds, all resisted and perfect, score 1350 |
| Scoring.FocusStreakBonus | src/services/scoring.ts:92-93 | the streak bonuses add up: 0 below 30, 100 from 30, 300 from 60 |
| Scoring.FocusScore | src/services/scoring.ts:78-100 | the focus score is never negative and is 0 when the total time is 0 |
| Scoring.FocusScoreMonotoneInFocusTime | src/services/scoring.ts:78-100 | more focus time never lowers the focus score |
| Scoring.FocusScoreBreakPenalty | src/services/scoring.ts:78-100 | one more break never raises the focus score |
| Scoring.MaxScore | src/services/scoring.ts:103-117 | at least 600 for difficulty ≥ 1, and 1000 for an unknown drill id |
| Scoring.MaxScoreTable | src/services/scoring.ts:103-117 | 1300·d for both reflex drills, 600·d for awareness, 750·d for impulse, 1500·d for focus |
| Scoring.DrillStars | src/services/scoring.ts:120-127 | a drill's star grade is 1..5 |
| Scoring.DrillStarsMonotone | src/services/scoring.ts:120-127 | for a fixed drill and difficulty ≥ 1, a higher score never earns fewer stars |
| Progression.AddXP | src/services/progression.ts:12-23 | the points grow by xp; the level is the one getLevelFromXP gives for the new total, 1 for a negative total too, and currentXP is the total less that level's threshold, with 0 ≤ currentXP < the level's cost for a non-negative total; no other field changes |
| Progression.AddXPLevelNeverDrops | src/services/progression.ts:12-23 | gaining points never lowers a consistent level |
| Progression.AddXPComposes | src/services/progression.ts:12-23 | adding a then b equals adding a + b |
| Progression.UpdateStreak | src/services/progression.ts:26-63 | same day: unchanged; next day: streak + 1 and a freeze day on every 7th; longer gap: a freeze day is spent and the streak kept, or the streak restarts at 1; longest = max(new, old); only the four streak fields change |
| Progression.UpdateStreakPreservesInvariant | src/services/progression.ts:47-59 | longest ≥ current and freeze days ≥ 0 are kept, and the longest streak never drops |
| Progression.UpdateStreakSeventhDay | src/services/progression.ts:37-44 | a 6-day streak continued the next day reaches 7 and earns a freeze day |
| Progression.UpdateStreakReset | src/services/progression.ts:45-54 | after three days away without a freeze day, the streak restarts at 1 and the record stays |
| Progression.DrillDifficulty | src/services/progression.ts:66-69 | min(10, ceil(level/2)), and 10 exactly from level 19 |
| Progression.DrillDifficultyRange | src/services/progression.ts:66-69 | every level from 1 up gives a difficulty in 1..10 |
| Progression.DrillDifficultyMonotone | src/services/progression.ts:66-69 | a higher drill level never gives a lower difficulty |
| Progression.LastN | src/services/progression.ts:77 | the last n elements, or all when there are fewer (slice(-n)) |
| Progression.ShouldLevelUpDrill | src/services/progression.ts:71-85 | true exactly when sessions ≥ 5·level, at least 5 recent scores exist, and the mean of the last 5 reaches the average |
| Progression.LevelUpDrill | src/services/progression.ts:88-94 | level + 1 and the difficulty recomputed (1..10), nothing else changed |
| Progression.PlayedDrills | src/services/progression.ts:99-102 | an entry is kept exactly when it has at least one session |
| Progression.PlayedPositions | src/services/progression.ts:99-102 | the filter is the input read at a strictly increasing list of positions that holds every played position and only played ones: order and multiplicity are kept |
| Progression.PlayedAtLeastThree | src/services/progression.ts:99-104 | the filter keeps at least three entries exactly when three different positions hold played entries |
| Progression.CheckDailyGoal | src/services/progression.ts:97-106 | true exactly when at least 3 drills were played and every played drill has at least 2 sessions |
| Progression.DailyGoalThreeDrills | src/services/progression.ts:97-106 | the goal of at least 2 sessions in 3 different drills: met exactly when three different entries have at least 2 sessions each and no played entry has fewer than 2 |
| Progression.ThreePlayedTwice | src/services/progression.ts:104-105 | when every played entry has at least 2 sessions, three played entries and three entries with 2 sessions each are the same condition |
| Progression.DailyGoalNeedsThreeDrills | src/services/progression.ts:97-106 | a met goal needs at least three drill entries |
| Progression.SessionXp | src/services/progression.ts:109-122 | reward plus min(500, 50·streak): the bonus never exceeds 500 |
| Progression.SessionXpMonotoneInStreak | src/services/progression.ts:109-122 | a longer streak never earns less for the same session |
| ReflexLogic.DelayWindow | src/components/drills/ReflexDrill/reflexLogic.ts:12-13 | the shortest delay is at least 500 ms and the window is at least 1000 ms wide |
| ReflexLogic.GenerateDelay | src/components/drills/ReflexDrill/reflexLogic.ts:10-15 | with r in [0, 1), the delay lies in [minDelay, maxDelay) |
| ReflexLogic.TargetSize | src/components/drills/ReflexDrill/reflexLogic.ts:17-20 | the size is at least 30, and exactly 30 from difficulty 10 |
| ReflexLogic.TargetSizeNonIncreasing | src/components/drills/ReflexDrill/reflexLogic.ts:17-20 | a higher difficulty never gives a larger target |
| ReflexLogic.TotalRounds | src/components/drills/ReflexDrill/reflexLogic.ts:72-74 | at most 20 rounds, exactly 20 from difficulty 10, at least 11 from difficulty 1 |
| ReflexLogic.ValidTimes | src/components/drills/ReflexDrill/reflexLogic.ts:39-42 | a time is listed exactly when some clicked, non-false-start round has it as a non-zero reaction time |
| ReflexLogic.ValidTimesAppend | src/components/drills/ReflexDrill/reflexLogic.ts:39-42 | the times of a concatenation are the concatenated times: round order is kept |
| ReflexLogic.CountFalseStarts | src/components/drills/ReflexDrill/reflexLogic.ts:51 | the count is 0 exactly when no round is a false start |
| ReflexLogic.TimedAndFalseStartsDisjoint | src/components/drills/ReflexDrill/reflexLogic.ts:39-51 | timed rounds and false starts together are at most the rounds |
| ReflexLogic.ValidTimesPositive | src/components/drills/ReflexDrill/reflexLogic.ts:39-46 | with non-negative reaction times, every listed time is positive and so is their mean |
| ReflexLogic.Consistency | src/components/drills/ReflexDrill/reflexLogic.ts:61 | for a positive average, consistency is at most 1 and is 1 exactly when the deviation is 0; otherwise it is 0 |
| ReflexLogic.CalculateReflexMetrics | src/components/drills/ReflexDrill/reflexLogic.ts:38-70 | times and false starts as above; all zeros with no times; best = min ≤ average; consistency 1 with fewer than 2 times, ≤ 1 in general, 0 when the average is not positive |
| Storage.DefaultDrillStats | src/services/storage.ts:19-29 | a fresh drill entry: no sessions, difficulty 1, level 1, no recent scores |
| Storage.DefaultUserStats | src/services/storage.ts:12-34 | level 1, all counters 0, and one fresh entry per configured drill, in order, with distinct ids |
| Storage.DefaultUserStatsLevel | src/services/storage.ts:12-34 | the default level matches the default points |
| Storage.MissingEntries | src/services/storage.ts:55-70 | the entries pushed for absent configured ids: each is a fresh entry for an absent id |
| Storage.MissingEntriesCover | src/services/storage.ts:55-70 | every configured id without an entry gets one pushed |
| Storage.MissingEntriesFromConfigs | src/services/storage.ts:56-58 | every pushed entry belongs to a configured drill |
| Storage.MissingEntriesDistinct | src/services/storage.ts:55-58 | with distinct configured ids, no id is pushed twice |
| Storage.MissingEntriesNone | src/services/storage.ts:56-57 | nothing is pushed when every configured id exists |
| Storage.BackfillDrills | src/services/storage.ts:55-70 | the pushing loop computes exactly the backfilled list |
| Storage.Backfill | src/services/storage.ts:55-70 | the existing entries are kept as they were, in front, and only absent ids are added |
| Storage.BackfillCoversAll | src/services/storage.ts:55-70 | after backfill every drill has an entry |
| Storage.BackfillNoDuplicates | src/services/storage.ts:55-58 | backfill never creates a duplicate id |
| Storage.BackfillIdempotent | src/services/storage.ts:55-70 | a second backfill changes nothing |
| Storage.LoadedStats | src/services/storage.ts:39-73 | no stored profile loads the defaults; a stored profile loads backfilled |
| Storage.LoadedStatsDistinct | src/services/storage.ts:39-73 | a stored profile with distinct ids loads with distinct ids |
| Storage.LoadedStatsCoversId | src/services/storage.ts:39-73 | a loaded profile has an entry for every drill |
| Storage.FindDrillIndex | src/services/storage.ts:89 | -1 exactly when no entry has the id, otherwise the first entry with it |
| Storage.ApplyPatch | src/services/storage.ts:92-95 | for each of the nine fields, a given value overwrites and an absent one keeps the old value |
| Storage.ApplyPatchIdempotent | src/services/storage.ts:92-95 | applying a patch twice equals once, and the empty patch changes nothing |
| Storage.FindDate | src/services/storage.ts:115 | -1 exactly when no activity has the day, otherwise the first one with it |
| Storage.Bump | src/services/storage.ts:117-122 | one more session, the points added, the drill appended only when absent |
| Storage.MergeActivity | src/services/storage.ts:112-130 | an existing day is bumped in place and the rest kept; a new day is appended as one session with the points and the drill |
| Storage.Prune | src/services/storage.ts:132-135 | exactly the entries within the last 90 days are kept |
| Storage.PruneAppend | src/services/storage.ts:135 | pruning works entry by entry, so it keeps the order |
| Storage.PruneIdempotent | src/services/storage.ts:132-135 | pruning twice equals pruning once |
| Storage.TodaySurvivesPruning | src/services/storage.ts:132-135 | today's entry is never pruned |
| Storage.RecordedDayKept | src/services/storage.ts:112-137 | after recording, today's entry holds the drill |
| Storage.ProfileStore.constructor | src/services/storage.ts:37 | a store over the given entries |
| Storage.ProfileStore.SaveUserStats | src/services/storage.ts:76-78 | the profile key is overwritten and nothing else |
| Storage.ProfileStore.GetUserStats | src/services/storage.ts:39-73 | the result is the loaded profile; the defaults are saved only when no profile was stored |
| Storage.ProfileStore.GetDrillStats | src/services/storage.ts:81-84 | the first entry of the loaded profile with the id, which always exists |
| Storage.ProfileStore.UpdateDrillStats | src/services/storage.ts:87-98 | the loaded profile always has an entry for the id; that first entry alone is patched and the profile saved |
| Storage.ProfileStore.GetDailyActivity | src/services/storage.ts:101-104 | the stored log, or empty |
| Storage.ProfileStore.SaveDailyActivity | src/services/storage.ts:107-109 | the log key is overwritten and nothing else |
| Storage.ProfileStore.RecordActivity | src/services/storage.ts:112-138 | the log becomes the pruned merge of the stored log for today's day |
| Storage.ProfileStore.ClearAllData | src/services/storage.ts:141-145 | the three keys are removed and nothing else |
| Storage.ClearedStoreLoadsDefaults | src/services/storage.ts:141-145 | after clearing, loading gives the defaults and an empty log |
| GameContext.PushScore | src/contexts/GameContext.tsx:45 | the new window is 1..10 long and ends in the score; under 10 old scores it is all of them plus the score, otherwise the last 9 plus the score |
| GameContext.RecordScore | src/contexts/GameContext.tsx:42-59 | the window is pushed as above; average × (old length + 1) = old sum + score, over all old recent scores and not only the window; sessions + 1; best = max; time + duration/1000; last played = end |
| GameContext.UpdateDrillEntry | src/contexts/GameContext.tsx:42-64 | the drill id is kept; one level-up, exactly when the recorded entry qualifies: the level grows by at most 1 |
| GameContext.FirstSessionNoLevelUp | src/contexts/GameContext.tsx:62-64 | a first session never levels a drill up |
| GameContext.ApplySession | src/contexts/GameContext.tsx:28-77 | streak first, then points with a consistent level and currentXP, then the session drill's entry alone updated (none when absent), then one more session today |
| GameContext.ApplySessionOtherDrillsUnchanged | src/contexts/GameContext.tsx:37-67 | every other drill's entry is unchanged |
| GameContext.ApplySessionKeepsIds | src/contexts/GameContext.tsx:37-67 | the drill ids stay as they were, so distinct ids stay distinct |
| GameContext.ApplySessionLevelConsistent | src/contexts/GameContext.tsx:31-34 | a level that matched the points still matches them, and does not drop |
| GameContext.DifficultyFor | src/components/drills/KeyboardReflexDrill/KeyboardReflexDrill.tsx:22-23 | the first entry's difficulty, or 1 for a missing entry or a difficulty of 0 |
| GameContext.DifficultyForRange | src/components/drills/KeyboardReflexDrill/KeyboardReflexDrill.tsx:22-23 | stored difficulties in 1..10 give a played difficulty in 1..10 |
| GameContext.SessionEntries | src/contexts/GameContext.tsx:20-22 | after a session the store stays well typed and holds the stored log merged with the session for today's day and pruned, and the new profile (with lines 69-70 of the same file) |
| GameContext.SessionEntriesOtherKeys | src/contexts/GameContext.tsx:20-22 | only the log and profile keys are added or changed; every other key keeps its value (with lines 69-70 of the same file) |
| GameContext.Replay | src/contexts/GameContext.tsx:28-77 | running queued sessions one after another keeps the store well typed |
| GameContext.ReplayTotals | src/contexts/GameContext.tsx:28-77 | running queued sessions adds up their points and counts one session today each, keeps the number of drill entries, and leaves the last profile saved |
| GameContext.ReplaySingle | src/contexts/GameContext.tsx:28-77 | running one queued session is ApplySession of the profile, with the session recorded once and the new profile saved |
| GameContext.GameProvider.constructor | src/contexts/GameContext.tsx:16-22 | the profile is loaded from the store and written back |
| GameContext.GameProvider.CompleteSession | src/contexts/GameContext.tsx:28-29 | the session is queued after the earlier ones; the profile is unchanged until the queue runs |
| GameContext.GameProvider.ApplyNextUpdate | src/contexts/GameContext.tsx:29-76 | the first queued session leaves the queue; the profile becomes ApplySession of the old one, and the store records the session once and saves the new profile (with the sync effect, lines 19-22) |
| GameContext.GameProvider.Render | src/contexts/GameContext.tsx:29-76 | the queue empties, and the profile and store are the in-order replay of every queued session (with the sync effect, lines 19-22) |
| GameContext.GameProvider.RefreshStats | src/contexts/GameContext.tsx:79-81 | the profile is reloaded from the store and written back; the queue is untouched |
| KeyboardReflexDrill.NewRound | src/components/drills/KeyboardReflexDrill/KeyboardReflexDrill.tsx:65-70 | a fresh round: unanswered, with a delay in the window |
| KeyboardReflexDrill.ResultSession | src/components/drills/KeyboardReflexDrill/KeyboardReflexDrill.tsx:143-163 | the reflex metrics of the log, a score in 0..1300, 1..5 stars, and the session experience |
| KeyboardReflexDrill.Drill.constructor | src/components/drills/KeyboardReflexDrill/KeyboardReflexDrill.tsx:22-35 | instructions, countdown 3, round 0, empty log |
| KeyboardReflexDrill.Drill.ShowResults | src/components/drills/KeyboardReflexDrill/KeyboardReflexDrill.tsx:143-163 | results phase; the session is queued once with the provider's completeSession |
| KeyboardReflexDrill.Drill.StartNextRound | src/components/drills/KeyboardReflexDrill/KeyboardReflexDrill.tsx:59-77 | past the last round: results; otherwise one fresh round appended, waiting, target hidden |
| KeyboardReflexDrill.Drill.CountdownTick | src/components/drills/KeyboardReflexDrill/KeyboardReflexDrill.tsx:38-45 | the countdown goes down by one, and at 0 the first round starts |
| KeyboardReflexDrill.Drill.DelayElapsed | src/components/drills/KeyboardReflexDrill/KeyboardReflexDrill.tsx:48-57 | waiting turns active: target visible, clock started (with lines 79-83 of the same file) |
| KeyboardReflexDrill.Drill.KeyPress | src/components/drills/KeyboardReflexDrill/KeyboardReflexDrill.tsx:85-136 | other keys and other phases change nothing; SPACE while waiting marks a false start; SPACE while active records now − start; both go to feedback and touch only the current round |
| KeyboardReflexDrill.Drill.FeedbackDone | src/components/drills/KeyboardReflexDrill/KeyboardReflexDrill.tsx:99-107 | the round index grows by one; then results at the last round, otherwise the next round (with lines 126-134 of the same file) |
| KeyboardReflexDrill.Drill.ResultsAllAnswered | src/components/drills/KeyboardReflexDrill/KeyboardReflexDrill.tsx:59-134 | at the results the log has one answered round per round |
| AwarenessDrill.TotalRounds | src/components/drills/AwarenessDrill/AwarenessDrill.tsx:33 | 12 to 30 rounds over difficulties 1..10, always even |
| AwarenessDrill.NumDistractors | src/components/drills/AwarenessDrill/AwarenessDrill.tsx:34 | at most 8 distractors, at least 3 from difficulty 1 |
| AwarenessDrill.DisplayTime | src/components/drills/AwarenessDrill/AwarenessDrill.tsx:35 | at least 800 ms, exactly 800 from difficulty 7 |
| AwarenessDrill.ChosenAttempt | src/components/drills/AwarenessDrill/AwarenessDrill.tsx:70-79 | the first attempt that is not too close, or the tenth: at most 10 attempts |
| AwarenessDrill.PlaceDistractor | src/components/drills/AwarenessDrill/AwarenessDrill.tsx:68-79 | the retry loop places the distractor at the chosen attempt |
| AwarenessDrill.PlacedAppend | src/components/drills/AwarenessDrill/AwarenessDrill.tsx:81-86 | appending the next distractor keeps the dots well formed |
| AwarenessDrill.GenerateTargets | src/components/drills/AwarenessDrill/AwarenessDrill.tsx:47-90 | numDistractors + 1 dots, ids 0.., only id 0 is the target, each distractor at its chosen attempt |
| AwarenessDrill.SlotPartition | src/components/drills/AwarenessDrill/AwarenessDrill.tsx:199-201 | on finished slots, hits + wrong clicks + misses = rounds |
| AwarenessDrill.Ratio | src/components/drills/AwarenessDrill/AwarenessDrill.tsx:203-204 | ratio × denominator = numerator (0 over an empty denominator), within 0..1 for a part of a whole |
| AwarenessDrill.AverageHitTime | src/components/drills/AwarenessDrill/AwarenessDrill.tsx:205-208 | the mean reaction time of the hit rounds: average × hits = their total time, 0 without hits |
| AwarenessDrill.MetricsOf | src/components/drills/AwarenessDrill/AwarenessDrill.tsx:196-218 | the counts of each outcome; hitRate × total = hits; the average reaction time over hit rounds only, 0 without hits |
| AwarenessDrill.FullLogMetrics | src/components/drills/AwarenessDrill/AwarenessDrill.tsx:203-204 | on a full log, accuracy equals the hit rate, which lies in 0..1 |
| AwarenessDrill.ResultSession | src/components/drills/AwarenessDrill/AwarenessDrill.tsx:196-233 | the metrics, their score and 1..5 stars, and experience equal to the score |
| AwarenessDrill.Drill.constructor | src/components/drills/AwarenessDrill/AwarenessDrill.tsx:30-45 | intro, round 0, a log of totalRounds empty slots |
| AwarenessDrill.Drill.StartGame | src/components/drills/AwarenessDrill/AwarenessDrill.tsx:92-95 | from the intro, the countdown starts at 3 |
| AwarenessDrill.Drill.CountdownTick | src/components/drills/AwarenessDrill/AwarenessDrill.tsx:97-108 | the countdown goes down by one, and at 0 the first round waits |
| AwarenessDrill.Drill.WaitElapsed | src/components/drills/AwarenessDrill/AwarenessDrill.tsx:110-115 | the dots show (one target), the clock starts, the phase is active |
| AwarenessDrill.Drill.TargetClick | src/components/drills/AwarenessDrill/AwarenessDrill.tsx:125-157 | ignored unless active; otherwise only the current slot is written, as a hit or a wrong click with its reaction time |
| AwarenessDrill.Drill.Miss | src/components/drills/AwarenessDrill/AwarenessDrill.tsx:170-183 | only the current slot is written, as a miss with reaction time 0 |
| AwarenessDrill.Drill.ShowResults | src/components/drills/AwarenessDrill/AwarenessDrill.tsx:196-233 | results phase; the session of the round log is queued once with the provider's completeSession |
| AwarenessDrill.Drill.FeedbackDone | src/components/drills/AwarenessDrill/AwarenessDrill.tsx:159-167 | the round index grows by one; then results (the session queued once) or the next round (with lines 185-193 of the same file) |
| AwarenessDrill.Drill.ResultsPartition | src/components/drills/AwarenessDrill/AwarenessDrill.tsx:199-204 | at the results the outcomes add up to the rounds and accuracy equals the hit rate |
| ImpulseDrill.TotalRounds | src/components/drills/ImpulseDrill/ImpulseDrill.tsx:37 | 6 to 15 rounds over difficulties 1..10 |
| ImpulseDrill.ResistDuration | src/components/drills/ImpulseDrill/ImpulseDrill.tsx:38 | 17 s to 35 s over difficulties 1..10 |
| ImpulseDrill.RiseSpeed | src/components/drills/ImpulseDrill/ImpulseDrill.tsx:39 | at least 1500 ms, exactly 1500 from difficulty 8 |
| ImpulseDrill.UrgeLevel | src/components/drills/ImpulseDrill/ImpulseDrill.tsx:69-71 | the urge is in 0..100, proportional to the elapsed time, and 100 exactly once the rise time has passed |
| ImpulseDrill.UrgeLevelMonotone | src/components/drills/ImpulseDrill/ImpulseDrill.tsx:69-71 | the urge never falls as time passes |
| ImpulseDrill.Remaining | src/components/drills/ImpulseDrill/ImpulseDrill.tsx:95-96 | the time left is never negative and is 0 exactly when the duration has passed |
| ImpulseDrill.RoundPartition | src/components/drills/ImpulseDrill/ImpulseDrill.tsx:192-195 | in a well-formed log, resisted + early + during-resist = rounds, and perfect = resisted |
| ImpulseDrill.MetricsOf | src/components/drills/ImpulseDrill/ImpulseDrill.tsx:192-207 | the round count, each outcome's count, and the average resist time (0 with no rounds) |
| ImpulseDrill.ResultSession | src/components/drills/ImpulseDrill/ImpulseDrill.tsx:188-224 | the metrics, their score, 1..5 stars and the session experience |
| ImpulseDrill.AllResistedScore | src/services/scoring.ts:58-74 | a log of resisted rounds only scores 225 per round |
| ImpulseDrill.Drill.constructor | src/components/drills/ImpulseDrill/ImpulseDrill.tsx:34-50 | instructions, countdown 3, round 0, empty log |
| ImpulseDrill.Drill.ShowResults | src/components/drills/ImpulseDrill/ImpulseDrill.tsx:188-224 | results phase; the session is queued once with the provider's completeSession |
| ImpulseDrill.Drill.StartNextRound | src/components/drills/ImpulseDrill/ImpulseDrill.tsx:108-121 | past the last round: results; otherwise waiting with the urge at 0 |
| ImpulseDrill.Drill.CountdownTick | src/components/drills/ImpulseDrill/ImpulseDrill.tsx:53-61 | the countdown goes down by one, and at 0 the first round waits |
| ImpulseDrill.Drill.WaitElapsed | src/components/drills/ImpulseDrill/ImpulseDrill.tsx:118-120 | waiting turns rising, with the rise clock started |
| ImpulseDrill.Drill.AnimationFrame | src/components/drills/ImpulseDrill/ImpulseDrill.tsx:64-89 | the urge follows the elapsed time; at the peak the resist period starts with the full duration on the timer (with lines 123-127 of the same file) |
| ImpulseDrill.Drill.ResistTick | src/components/drills/ImpulseDrill/ImpulseDrill.tsx:92-106 | the timer shows the time left; at 0 a resisted round of the full duration is appended and feedback follows (with lines 166-175 of the same file) |
| ImpulseDrill.Drill.Click | src/components/drills/ImpulseDrill/ImpulseDrill.tsx:129-164 | rising: an early click is appended; resisting: a lost round with the time resisted; any other phase: nothing |
| ImpulseDrill.Drill.FeedbackDone | src/components/drills/ImpulseDrill/ImpulseDrill.tsx:177-185 | the round index grows by one; then results at the last round, otherwise the next round |
| ImpulseDrill.Drill.ResultsPartition | src/components/drills/ImpulseDrill/ImpulseDrill.tsx:192-201 | at the results every round is logged once, with exactly one outcome, and perfect = resisted |
| FocusDrill.SessionDuration | src/components/drills/FocusDrill/FocusDrill.tsx:19 | 70 s to 160 s over difficulties 1..10 |
| FocusDrill.TargetRadius | src/components/drills/FocusDrill/FocusDrill.tsx:20 | at least 15, exactly 15 from difficulty 8 |
| FocusDrill.DistractorCount | src/components/drills/FocusDrill/FocusDrill.tsx:21 | at most 20, at least 2 from difficulty 1 |
| FocusDrill.MakeDistractors | src/components/drills/FocusDrill/FocusDrill.tsx:159-165 | exactly count distractors, each on screen with a speed in [0.2, 0.5) |
| FocusDrill.CentreInTarget | src/components/drills/FocusDrill/FocusDrill.tsx:175-179 | a cursor on the target's centre counts as on the target |
| FocusDrill.MetricsOf | src/components/drills/FocusDrill/FocusDrill.tsx:192-203 | total time = session length; percentage × total = focus × 100; average streak × breaks = focus time, or the focus time without breaks |
| FocusDrill.AverageStreakBounds | src/components/drills/FocusDrill/FocusDrill.tsx:71-83 | with reachable counters, the average streak is at most the focus time and at least one tick when there were breaks (with lines 194 of the same file) |
| FocusDrill.QuotientBounds | src/components/drills/FocusDrill/FocusDrill.tsx:194 | focus time per break lies between 100 and the focus time |
| FocusDrill.ResultSession | src/components/drills/FocusDrill/FocusDrill.tsx:188-220 | the metrics of the counters, their score, 1..5 stars and the session experience |
| FocusDrill.StaleResultSession | src/components/drills/FocusDrill/FocusDrill.tsx:51-58 | as written, the session reports focus time 0, no breaks and score 0 (with lines 188-203 of the same file) |
| FocusDrill.StaleResultsIgnorePlay | src/components/drills/FocusDrill/FocusDrill.tsx:51-58 | as written a whole session on target scores 0, where the intended results score at least 1000 (with lines 188-203 of the same file) |
| FocusDrill.Drill.constructor | src/components/drills/FocusDrill/FocusDrill.tsx:16-34 | instructions, countdown 3, the full time left, target at the centre |
| FocusDrill.Drill.CountdownTick | src/components/drills/FocusDrill/FocusDrill.tsx:40-48 | the countdown goes down by one, and at 0 the drill starts with its distractors (with lines 155-166 of the same file) |
| FocusDrill.Drill.ShowResults | src/components/drills/FocusDrill/FocusDrill.tsx:188-220 | results phase; the session of the current counters is queued once with the provider |
| FocusDrill.Drill.TimerTick | src/components/drills/FocusDrill/FocusDrill.tsx:51-65 | 100 ms less, never below 0; at 0 the results |
| FocusDrill.Drill.FocusTick | src/components/drills/FocusDrill/FocusDrill.tsx:68-88 | on target: focus time and streak + 100, longest = max; off target: a break when a streak ran, streak 0; reachable counters are kept, so longest ≥ current |
| FocusDrill.Drill.MouseMove | src/components/drills/FocusDrill/FocusDrill.tsx:168-186 | the cursor's on-target flag follows the hit test, and entering the target notes the streak start |
| FocusDrill.Drill.TargetMoved | src/components/drills/FocusDrill/FocusDrill.tsx:104 | the target moves to the new position; the counters are untouched |
| FocusDrill.Drill.ResultsAverageStreak | src/components/drills/FocusDrill/FocusDrill.tsx:192-203 | at the results, longest streak ≤ focus time and the average streak is bounded as above |

## Findings

| source | as written | input that shows it | evidently intended | confidence | as-written member | corrected member |
|---|---|---|---|---|---|---|
| src/components/drills/FocusDrill/FocusDrill.tsx:51-58, 188-203 | `showResults` runs inside the countdown interval. That interval is created once, when the drill turns active, so it reads `focusTime`, `breaks` and `longestStreak` as they were then, all 0. The results screen recomputes from the current counters (lines 226-236), so the score shown differs from the score saved. | A session spent wholly on the target without a break reports focus time 0 and scores 0. | The session reports the counters as they are when time runs out; the same session then scores at least 1000. | medium, not executed | FocusDrill.StaleResultSession | FocusDrill.ResultSession |

The rest of the model uses the corrected member. `FocusDrill.Drill.TimerTick` and
`FocusDrill.Drill.ShowResults` report the current counters. `FocusDrill.StaleResultsIgnorePlay`
states both halves for the same session.

## Left out

- Rendering, navigation, icons and CSS classes are not modelled. This covers the JSX of every
  screen and the display-only state: `pressedKey`, the displayed `reactionTime`, the impulse
  temptation message and the urge colour.
- `src/App.tsx`, the dashboard, the progress page and the common components are not part of this
  model.
- The `ACHIEVEMENTS` and `MOTIVATIONAL_QUOTES` lists are static data; no modelled logic reads them.
- `getToday`, `isSameDay`, `formatDuration` and `formatNumber` are display helpers and are not
  modelled.
- Timers, animation frames and React effect scheduling are not modelled: each timer firing is an
  explicit method, and the caller decides when it fires.
- Stale closures, apart from the focus finding. Five handlers read values captured in an earlier
  render, and the model follows what the handlers evidently intend instead of reproducing that:
  - The keyboard and awareness results read the round log from before the last round's answer.
  - The impulse results after a resisted last round come from the timeout of
    `handleResistSuccess` (ImpulseDrill.tsx:177-181), whose `showResults` closes over the log
    without the round appended at line 174. At difficulty 1 with all 6 rounds resisted, the source
    saves 5 rounds and a score of 1125 while the results screen shows 1350; the model saves all 6
    rounds.
  - The awareness auto-miss guard (AwarenessDrill.tsx:118) tests a captured phase. It never fires
    in round 1 and fires in later rounds even after a click.
  - `startNextRound` after an impulse click reads the index from before the increment
    (ImpulseDrill.tsx:143-144). The model ends the drill at the last round, as
    `handleResistSuccess` does.
- ImpulseDrill.Drill.ShowResults: scores the whole current log, so it includes a last resisted
  round that the saved session of the source leaves out.
- `recordActivity` runs inside the React state updater, which React may call twice. The model
  records each session exactly once.
- React may run several queued updaters in one render and then save once in the sync effect.
  The model saves after each updater; the final store is the same, since each save overwrites the
  profile key.
- All updaters of one render run at the same `now`, because `updateStreak` and `recordActivity`
  read the clock when the updater runs; the model passes that one time to `Render`.
- `refreshStats` passes a value, not an updater, to `setUserStats`. The model applies it at once,
  so it does not model an order between it and updaters still queued.
- `completeSession` also writes the new drill entry into the previous profile's array, because the
  spread copies share it. The model builds a new sequence, so this aliasing is not captured.
- `updateUserStats` in `src/contexts/GameContext.tsx` (a plain field merge) is not modelled.
- `(sessionsToday || 0) + 1` is modelled as `+ 1`. An integer field cannot be missing, and `|| 0`
  only changes a missing or non-numeric value.
- Real arithmetic:
  - Numbers are exact reals, not doubles.
  - The multiplier `1 + difficulty * 0.1` is the exact rational (10 + d)/10, so a floor taken
    exactly at an integer boundary could differ from the double result.
  - A ratio with a 0 denominator is NaN in the source. Awareness accuracy and hit rate, and the
    focus percentage, are 0 in the model instead.
- `Math.sqrt` is a parameter, of which only non-negativity and sqrt(0) = 0 are assumed.
- Scoring.ReflexScore: requires a non-zero mean when there are reaction times, because the source
  then divides by zero. The reflex drills only pass positive times (ReflexLogic.ValidTimesPositive).
- Geometry is a parameter in the model:
  - the polar placement and the `Math.hypot` distance test of `generateTargets` (the position
    oracle `spot` and the `tooClose` test);
  - the focus target path, the distractor bouncing, and the distractor direction, which is kept as
    a fraction of a turn;
  - `getTargetPosition`, which is not modelled.
- Dates:
  - `new Date()` is a parameter `now`.
  - `toISOString` day strings become UTC day numbers.
  - Pruning compares against `now` − 90 days on the UTC day grid, so the local-time `setDate` and
    daylight-saving shifts of the source are not modelled.
- `updateStreak` in the source reads the clock itself; the model passes `now`.
- `localStorage` and JSON are not modelled. The store is a map from key to a typed value, and
  JSON round-trips are taken as the identity, including the restored `Date` objects.
- The drill constructors of the awareness, impulse and focus drills require a difficulty of at
  least 1. The source takes the difficulty from the stored entry, or 1 when the entry is missing
  or holds 0, so only a corrupted negative difficulty is excluded.
- The keyboard drill accepts any difficulty.
- The difficulty is fixed when a drill screen is created. The source recomputes it on each render
  from the provider's profile, which does not change during a drill.
- The awareness `sessionTime` is computed in the source but never used, so it is not modelled.
- The comment at AwarenessDrill.tsx:34 says 3-9 distractors; the code caps the count at 8, and
  the model follows the code.
- The focus streak bonus (scoring.ts:91-93) compares `longestStreak`, a count of milliseconds,
  with 30 and 60, so any streak of 60 ms or more earns both bonuses.
- A drill's new average (GameContext.tsx:46-47) is the mean of its stored `recentScores` plus the
  new score: at most the last 10 scores and the new one, not every session ever played.
