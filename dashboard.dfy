/** The dashboard: goal progress as a percentage, the ring colour, the goal
    message, the stat boxes and the AI coach panel. Progress is computed
    exactly, with the IEEE-754 outcomes of a zero goal written out: a positive
    count over a zero goal is Infinity, which Math.min caps at 100, and 0 / 0 is
    NaN, which every comparison rejects. */
module Dashboard {
  import opened Types
  import opened ActivityMetrics
  import GeminiService

  datatype Percent = Pct(value: real) | NotANumber

  /** Math.min((steps / goal) * 100, 100). */
  function Progress(steps: nat, goal: int): (p: Percent)
    ensures p.Pct? ==> p.value <= 100.0
    ensures p.NotANumber? <==> steps == 0 && goal == 0
    ensures goal == 0 && steps > 0 ==> p == Pct(100.0)
    ensures goal != 0 && p.Pct? && p.value < 100.0 ==> p.value * (goal as real) == (steps as real) * 100.0
  {
    if goal == 0 then (if steps == 0 then NotANumber else Pct(100.0))
    else
      var raw := (steps as real) / (goal as real) * 100.0;
      Pct(if raw < 100.0 then raw else 100.0)
  }

  /** progress >= 100 (false for NaN). */
  predicate Reached(p: Percent) {
    p.Pct? && p.value >= 100.0
  }

  /** progress < 100 (false for NaN). */
  predicate Below(p: Percent) {
    p.Pct? && p.value < 100.0
  }

  datatype RingColor = Green | Blue

  function Color(steps: nat, goal: int): RingColor {
    if Reached(Progress(steps, goal)) then Green else Blue
  }

  datatype GoalMessage = StepsRemaining(count: int) | GoalAchieved

  function Message(steps: nat, goal: int): GoalMessage {
    if Below(Progress(steps, goal)) then StepsRemaining(goal - steps) else GoalAchieved
  }

  lemma RatioReaches100(steps: nat, goal: int)
    requires goal > 0
    ensures (steps as real) / (goal as real) * 100.0 >= 100.0 <==> steps >= goal
  {
    var q := (steps as real) / (goal as real);
    assert q * (goal as real) == steps as real;
    if q >= 1.0 {
      assert q * (goal as real) >= goal as real;
    } else {
      assert q * (goal as real) < goal as real;
    }
  }

  /** With a positive goal, progress reaches 100 exactly when the goal is met,
      and exactly then the ring is green and the achieved message is shown;
      otherwise the remaining count is positive. */
  lemma PositiveGoal(steps: nat, goal: int)
    requires goal > 0
    ensures Progress(steps, goal).Pct?
    ensures Reached(Progress(steps, goal)) <==> steps >= goal
    ensures Color(steps, goal) == Green <==> steps >= goal
    ensures Message(steps, goal) == GoalAchieved <==> steps >= goal
    ensures Message(steps, goal).StepsRemaining? ==> Message(steps, goal).count > 0
    ensures steps < goal ==> Message(steps, goal) == StepsRemaining(goal - steps)
  {
    RatioReaches100(steps, goal);
  }

  /** The goal is not clamped upstream. A goal of 0 with no steps yet gives
      NaN: the ring stays blue while the achieved message is shown. */
  lemma ZeroGoalNoSteps()
    ensures Progress(0, 0) == NotANumber
    ensures Color(0, 0) == Blue && Message(0, 0) == GoalAchieved
  {
  }

  /** A goal of 0 with some steps: the quotient is Infinity, which Math.min
      caps at 100, so the ring is green and the achieved message is shown. */
  lemma ZeroGoalWithSteps(steps: nat)
    requires steps > 0
    ensures Progress(steps, 0) == Pct(100.0)
    ensures Color(steps, 0) == Green && Message(steps, 0) == GoalAchieved
  {
  }

  /** A negative goal makes progress non-positive, so the message shows a
      negative number of remaining steps. */
  lemma NegativeGoal(steps: nat, goal: int)
    requires goal < 0
    ensures Color(steps, goal) == Blue
    ensures Message(steps, goal) == StepsRemaining(goal - steps) && goal - steps < 0
  {
    var q := (steps as real) / (goal as real);
    assert q * (goal as real) == steps as real;
  }

  /** What the coach card shows. */
  datatype AdvicePanel = LoadingIndicator | AdviceCard(advice: GeminiService.AdviceObject) | RefreshPrompt

  /** The coach card shows exactly one of three things: the loading indicator
      while loading, else the advice when there is some, else the prompt to
      refresh. */
  function Panel(loading: bool, advice: Option<GeminiService.AdviceObject>): (p: AdvicePanel)
    ensures p.LoadingIndicator? <==> loading
    ensures p.AdviceCard? <==> !loading && advice.Some?
    ensures p.AdviceCard? ==> p.advice == advice.value
    ensures p.RefreshPrompt? <==> !loading && advice.None?
  {
    if loading then LoadingIndicator
    else if advice.Some? then AdviceCard(advice.value)
    else RefreshPrompt
  }

  /** The refresh button's disabled flag. */
  function RefreshDisabled(loading: bool): bool {
    loading
  }

  /** The refresh button is disabled exactly while the loading indicator is
      shown, whatever advice is held. */
  lemma RefreshDisabledWhileLoading(loading: bool, advice: Option<GeminiService.AdviceObject>)
    ensures RefreshDisabled(loading) <==> Panel(loading, advice) == LoadingIndicator
  {
  }

  /** The three stat boxes: distance, calories and active minutes. */
  function StatBoxes(activity: ActivityDay): seq<nat> {
    [activity.distance, activity.calories, activity.activeMinutes]
  }

  /** For a day whose metrics were derived from its steps, the stat boxes
      show the metrics of that step count. */
  lemma StatBoxesOfDerivedDay(day: ActivityDay)
    requires MetricsConsistent(day)
    ensures StatBoxes(day) == [DistanceHundredths(day.steps), Calories(day.steps), ActiveMinutes(day.steps)]
  {
  }
}
