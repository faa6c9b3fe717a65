/**
 * The records that the drills, the scoring engine, the progression engine
 * and the profile store exchange (src/types/drill.types.ts and
 * src/types/user.types.ts). Dates are milliseconds since the epoch, except
 * DailyActivity.date, which is a UTC day number.
 */
module Types {

  datatype Option<T> = None | Some(value: T)

  /** A screen position in percent of the play area. */
  datatype Point = Point(x: real, y: real)

  /** The five drills. */
  datatype DrillId = Reflex | KeyboardReflex | Awareness | Impulse | Focus

  /** The identifier string a drill is stored and scored under. */
  function IdName(id: DrillId): (s: string)
    ensures |s| > 0
  {
    match id
    case Reflex => "reflex"
    case KeyboardReflex => "keyboard-reflex"
    case Awareness => "awareness"
    case Impulse => "impulse"
    case Focus => "focus"
  }

  /** Distinct drills are stored under distinct identifier strings. */
  lemma IdNameInjective(a: DrillId, b: DrillId)
    requires a != b
    ensures IdName(a) != IdName(b)
  {
  }

  /** Per-drill part of the profile. */
  datatype DrillStats = DrillStats(
    drillId: DrillId,
    sessionsCompleted: int,
    bestScore: int,
    averageScore: real,
    totalTimeSpent: real,   // seconds
    difficulty: int,        // 1-10
    lastPlayed: int,        // ms since the epoch
    recentScores: seq<int>, // the last 10 sessions
    level: int)

  /** The user profile. */
  datatype UserStats = UserStats(
    totalPoints: int,
    level: int,
    currentXP: int,
    currentStreak: int,
    longestStreak: int,
    lastActive: int,        // ms since the epoch
    drillStats: seq<DrillStats>,
    achievements: seq<string>,
    freezeDaysAvailable: int,
    sessionsToday: int,
    dailyGoalCompleted: bool)

  datatype ReflexMetrics = ReflexMetrics(
    reactionTimes: seq<int>,
    averageTime: real,
    bestTime: int,
    consistency: real,
    falseStarts: nat)

  datatype AwarenessMetrics = AwarenessMetrics(
    targetsHit: nat,
    targetsMissed: nat,
    wrongClicks: nat,
    totalTargets: int,
    hitRate: real,
    accuracy: real,
    averageReactionTime: real)

  datatype ImpulseMetrics = ImpulseMetrics(
    totalRounds: nat,
    roundsResisted: nat,
    clickedEarly: nat,
    clickedDuringResist: nat,
    perfectResists: nat,
    averageResistTime: real)

  datatype FocusMetrics = FocusMetrics(
    focusTime: nat,
    totalTime: int,
    focusPercentage: real,
    breaks: nat,
    longestStreak: int,
    averageStreakLength: real)

  /** The metrics record a session carries, by drill kind. */
  datatype SessionMetrics =
    | ReflexResult(reflex: ReflexMetrics)
    | AwarenessResult(awareness: AwarenessMetrics)
    | ImpulseResult(impulse: ImpulseMetrics)
    | FocusResult(focus: FocusMetrics)

  /** One completed drill attempt. */
  datatype Session = Session(
    drillId: DrillId,
    startTime: int,
    endTime: int,
    score: int,
    stars: int,
    pointsEarned: int,
    metrics: SessionMetrics)

  /** One day of the activity log. */
  datatype DailyActivity = DailyActivity(
    date: int,              // UTC day number
    sessionsCompleted: int,
    pointsEarned: int,
    drillsCompleted: seq<DrillId>)
}
