/** The shared enumerations and records of the client. Numbers the user types
    into a form can be NaN, so age, height and weight are JsInt; step counts
    and the derived metrics are naturals; distance is kept in hundredths of a
    kilometre. */
module Types {
  import opened JsBuiltins

  datatype Option<T> = None | Some(value: T)

  datatype ActivityLevel = Low | Medium | High

  /** The string value of each ActivityLevel member. */
  function ActivityLevelLabel(level: ActivityLevel): (name: string)
    ensures name in {"Low", "Medium", "High"}
  {
    match level
    case Low => "Low"
    case Medium => "Medium"
    case High => "High"
  }

  lemma ActivityLevelLabelsDistinct(a: ActivityLevel, b: ActivityLevel)
    ensures ActivityLevelLabel(a) == ActivityLevelLabel(b) <==> a == b
  {
  }

  datatype GoalType = WeightLoss | Fitness | GeneralHealth

  /** The string value of each GoalType member. */
  function GoalTypeLabel(goal: GoalType): (name: string)
    ensures name in {"Weight Loss", "Fitness", "General Health"}
  {
    match goal
    case WeightLoss => "Weight Loss"
    case Fitness => "Fitness"
    case GeneralHealth => "General Health"
  }

  lemma GoalTypeLabelsDistinct(a: GoalType, b: GoalType)
    ensures GoalTypeLabel(a) == GoalTypeLabel(b) <==> a == b
  {
  }

  datatype UserProfile = UserProfile(
    name: string,
    age: JsInt,
    height: JsInt,          // cm
    weight: JsInt,          // kg
    goal: GoalType,
    activityLevel: ActivityLevel,
    dailyStepGoal: int,
    onboarded: bool)

  datatype ActivityDay = ActivityDay(
    date: string,
    steps: nat,
    distance: nat,          // hundredths of a km
    calories: nat,          // kcal
    activeMinutes: nat)

  datatype Challenge = Challenge(
    id: string,
    title: string,
    description: string,
    target: nat,
    current: real,
    unit: string,
    icon: string,
    completed: bool)

  datatype Badge = Badge(id: string, name: string, icon: string, earnedAt: Option<string>)

  datatype AIAdvice = AIAdvice(message: string, motivation: string, tip: string)
}
