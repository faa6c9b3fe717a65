/**
 * Constant tables of src/utils/constants.ts: the theme colour lookup, the
 * tiered experience-per-level curve and the drill configuration list.
 */
module Constants {
  import opened Types

  /** Theme colour names and the CSS variables they stand for. */
  const ColorMap: map<string, string> := map[
    "primary" := "var(--primary)",
    "secondary" := "var(--secondary)",
    "accent" := "var(--accent)",
    "destructive" := "var(--destructive)",
    "muted" := "var(--muted)",
    "chart-1" := "var(--chart-1)",
    "chart-2" := "var(--chart-2)",
    "chart-3" := "var(--chart-3)",
    "chart-4" := "var(--chart-4)",
    "chart-5" := "var(--chart-5)"
  ]

  /** The CSS variable for a colour name; unknown names fall back to 'primary'. */
  function ThemeColor(colorName: string): (r: string)
    ensures colorName in ColorMap ==> r == ColorMap[colorName]
    ensures colorName !in ColorMap ==> r == "var(--primary)"
    ensures r in ColorMap.Values
  {
    if colorName in ColorMap then ColorMap[colorName] else ColorMap["primary"]
  }

  /** Experience points that level `level` costs: three linear tiers. */
  function XpPerLevel(level: int): int
  {
    if level <= 5 then 1000 * level
    else if level <= 10 then 5000 + 1500 * (level - 5)
    else 12500 + 2000 * (level - 10)
  }

  /** Every real level costs at least 1000 points, so a level search advances. */
  lemma XpPerLevelPositive(level: int)
    requires level >= 1
    ensures XpPerLevel(level) >= 1000
  {
  }

  /** The cost grows strictly with the level, across both tier boundaries. */
  lemma XpPerLevelIncreasing(a: int, b: int)
    requires a < b
    ensures XpPerLevel(a) < XpPerLevel(b)
  {
  }

  const DailyGoalBonus := 100
  const StreakBonusPerDay := 50
  const MaxStreakBonus := 500

  /** A drill's registration (the icon is left out). */
  datatype DrillConfig = DrillConfig(
    id: DrillId,
    name: string,
    description: string,
    dailyRecommended: int,
    color: string)

  const DrillConfigs: seq<DrillConfig> := [
    DrillConfig(Reflex, "Reflex (Click)", "Click targets fast", 3, "primary"),
    DrillConfig(KeyboardReflex, "Keyboard Reflex", "Press SPACE fast", 3, "chart-2"),
    DrillConfig(Awareness, "Awareness", "Peripheral vision training", 3, "chart-3"),
    DrillConfig(Impulse, "Impulse Control", "Discipline & resistance", 3, "destructive"),
    DrillConfig(Focus, "Focus", "Sustained attention", 2, "chart-1")
  ]

  /** The position of a drill in the configuration list: every drill is configured. */
  function ConfigIndex(id: DrillId): (i: nat)
    ensures i < |DrillConfigs| && DrillConfigs[i].id == id
  {
    match id
    case Reflex => 0
    case KeyboardReflex => 1
    case Awareness => 2
    case Impulse => 3
    case Focus => 4
  }

  /** No drill is configured twice. */
  lemma DrillConfigIdsDistinct()
    ensures forall i, j :: 0 <= i < j < |DrillConfigs| ==> DrillConfigs[i].id != DrillConfigs[j].id
  {
  }

  /** Every configured colour has a theme colour of its own. */
  lemma DrillConfigColorsKnown()
    ensures forall i :: 0 <= i < |DrillConfigs| ==> DrillConfigs[i].color in ColorMap
  {
  }

  function TotalRecommended(cs: seq<DrillConfig>): int
  {
    if cs == [] then 0 else cs[0].dailyRecommended + TotalRecommended(cs[1..])
  }

  /** The recommended daily sessions add up to 14. */
  lemma DailyRecommendedTotal()
    ensures TotalRecommended(DrillConfigs) == 14
  {
    assert DrillConfigs[1..][1..][1..][1..][1..] == [];
  }
}
