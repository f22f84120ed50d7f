/** The root controller: the stored profile and history, today's record that
    the step simulator advances, the coach's advice and its loading flag, the
    selected tab, and which screen all of that shows. The browser's storage,
    clock, random numbers and the service calls are inputs: saved records are
    passed in already decoded, and each call's outcome is passed in as a
    GeminiService.Reply. */
module App {
  import opened JsBuiltins
  import opened Types
  import opened ActivityMetrics
  import Onboarding
  import GeminiService
  import Analytics
  import Dashboard

  /** A tick of the simulator: up to four more steps and metrics recomputed
      from the new count; the date is kept. */
  function Advance(day: ActivityDay, increment: nat): (next: ActivityDay)
    requires increment <= 4
    ensures next.date == day.date
    ensures next.steps == day.steps + increment && day.steps <= next.steps <= day.steps + 4
    ensures MetricsConsistent(next)
  {
    Derive(day.date, day.steps + increment)
  }

  /** Ticks compose: two ticks give the same record as one tick of the summed
      increment, whatever metrics the record carried before. */
  lemma AdvanceTwice(day: ActivityDay, a: nat, b: nat)
    requires a <= 4 && b <= 4
    ensures Advance(Advance(day, a), b) == Derive(day.date, day.steps + a + b)
  {
  }

  /** The starter history when none is stored: seven days, the i-th
      dated `daysBefore(7 - i)`, with 4000 + draws[i] steps and metrics from
      the usual formulas; draws[i] stands for Math.floor(Math.random() * 5000). */
  function StarterHistory(draws: seq<nat>, daysBefore: nat -> string): (days: seq<ActivityDay>)
    requires |draws| == 7 && forall i :: 0 <= i < 7 ==> draws[i] < 5000
    ensures |days| == 7
    ensures forall i :: 0 <= i < 7 ==>
      && 4000 <= days[i].steps <= 8999
      && days[i].steps == 4000 + draws[i]
      && days[i].date == daysBefore(7 - i)
      && MetricsConsistent(days[i])
  {
    seq(7, i requires 0 <= i < 7 => Derive(daysBefore(7 - i), 4000 + draws[i]))
  }

  /** Index of the first day dated `date`, if any (Array.prototype.find). */
  function FindDate(history: seq<ActivityDay>, date: string): (r: Option<nat>)
    ensures r.Some? ==> r.value < |history| && history[r.value].date == date
    ensures r.Some? ==> forall k :: 0 <= k < r.value ==> history[k].date != date
    ensures r.None? ==> forall k :: 0 <= k < |history| ==> history[k].date != date
  {
    if history == [] then None
    else if history[0].date == date then Some(0)
    else match FindDate(history[1..], date)
      case None => None
      case Some(i) => Some(i + 1)
  }

  /** The initial "today": the first stored day dated today, or a fresh
      record with no steps. */
  function InitialToday(history: seq<ActivityDay>, today: string): (day: ActivityDay)
    ensures day.date == today
    ensures (exists k :: 0 <= k < |history| && history[k].date == today) ==>
      exists k :: 0 <= k < |history| && history[k] == day
        && forall j :: 0 <= j < k ==> history[j].date != today
    ensures (forall k :: 0 <= k < |history| ==> history[k].date != today) ==>
      day == ActivityDay(today, 0, 0, 0, 0)
  {
    match FindDate(history, today)
    case Some(i) => history[i]
    case None => ActivityDay(today, 0, 0, 0, 0)
  }

  /** A fresh day is consistent with the metric formulas, and so is a stored
      one taken from a consistent history. */
  lemma InitialTodayConsistent(history: seq<ActivityDay>, today: string)
    requires forall k :: 0 <= k < |history| ==> MetricsConsistent(history[k])
    ensures MetricsConsistent(InitialToday(history, today))
  {
  }

  /** handleOnboardingComplete: every submitted field is kept, the suggested
      goal is attached and the profile is marked onboarded. */
  function CompleteProfile(form: Onboarding.FormData, goal: int): (profile: UserProfile)
    ensures profile.name == form.name && profile.age == form.age
    ensures profile.height == form.height && profile.weight == form.weight
    ensures profile.goal == form.goal && profile.activityLevel == form.activityLevel
    ensures profile.dailyStepGoal == goal && profile.onboarded
  {
    UserProfile(form.name, form.age, form.height, form.weight, form.goal, form.activityLevel, goal, true)
  }

  /** user?.onboarded: the simulator runs, and the main screens show, only
      for an onboarded user. */
  predicate Onboarded(user: Option<UserProfile>) {
    user.Some? && user.value.onboarded
  }

  /** The request fetchAIAdvice sends: only with a user and a non-empty
      history, and then the user and the last (at most) three days. */
  datatype AdviceRequest = AdviceRequest(profile: UserProfile, recent: seq<ActivityDay>)

  function AdviceRequestFor(user: Option<UserProfile>, history: seq<ActivityDay>): (req: Option<AdviceRequest>)
    ensures req.Some? <==> user.Some? && |history| > 0
    ensures req.Some? ==> req.value.profile == user.value
    ensures req.Some? ==> |req.value.recent| == (if |history| < 3 then |history| else 3)
    ensures req.Some? ==> forall k :: 0 <= k < |req.value.recent| ==>
      req.value.recent[k] == history[|history| - |req.value.recent| + k]
  {
    if user.Some? && |history| > 0 then Some(AdviceRequest(user.value, SliceLast(history, 3))) else None
  }

  datatype Tab = HomeTab | ChallengesTab | AnalyticsTab | ProfileTab

  /** The screen shown, with the data handed to it. */
  datatype Screen =
    | OnboardingScreen
    | DashboardScreen(user: UserProfile, activity: ActivityDay, advice: Option<GeminiService.AdviceObject>, loading: bool)
    | ChallengesScreen(steps: nat)
    | AnalyticsScreen(history: seq<ActivityDay>)
    | ProfileScreen(user: UserProfile)

  /** The onboarded gate, then the tab. */
  function Route(tab: Tab, user: Option<UserProfile>, history: seq<ActivityDay>, today: ActivityDay,
                 advice: Option<GeminiService.AdviceObject>, loading: bool): (screen: Screen)
    ensures !Onboarded(user) <==> screen == OnboardingScreen
    ensures Onboarded(user) && tab == HomeTab ==> screen == DashboardScreen(user.value, today, advice, loading)
    ensures Onboarded(user) && tab == ChallengesTab ==> screen == ChallengesScreen(today.steps)
    ensures Onboarded(user) && tab == AnalyticsTab ==> screen == AnalyticsScreen(history + [today])
    ensures Onboarded(user) && tab == ProfileTab ==> screen == ProfileScreen(user.value)
    ensures screen.AnalyticsScreen? ==> screen.history == history + [today]
  {
    if !Onboarded(user) then OnboardingScreen
    else match tab
      case HomeTab => DashboardScreen(user.value, today, advice, loading)
      case ChallengesTab => ChallengesScreen(today.steps)
      case AnalyticsTab => AnalyticsScreen(history + [today])
      case ProfileTab => ProfileScreen(user.value)
  }

  /** The analytics screen always gets today appended, so its chart is never
      empty, its average is a number, and today is its last bar. */
  lemma AnalyticsNeverEmpty(tab: Tab, user: Option<UserProfile>, history: seq<ActivityDay>, today: ActivityDay,
                            advice: Option<GeminiService.AdviceObject>, loading: bool)
    requires Route(tab, user, history, today, advice, loading).AnalyticsScreen?
    ensures var points := Analytics.ChartData(Route(tab, user, history, today, advice, loading).history);
      |points| > 0 && Analytics.AvgSteps(points).Int? && points[|points| - 1].steps == today.steps
  {
  }

  class SmartWalkApp {
    var activeTab: Tab
    var user: Option<UserProfile>
    var history: seq<ActivityDay>
    var currentDay: ActivityDay
    var aiAdvice: Option<GeminiService.AdviceObject>
    var loadingAdvice: bool

    /** Start-up: the stored profile and history if present (else no user and
        the starter history), and today's record looked up in the history. */
    constructor (savedUser: Option<UserProfile>, savedHistory: Option<seq<ActivityDay>>, today: string,
                 draws: seq<nat>, daysBefore: nat -> string)
      requires |draws| == 7 && forall i :: 0 <= i < 7 ==> draws[i] < 5000
      ensures activeTab == HomeTab && user == savedUser
      ensures history == if savedHistory.Some? then savedHistory.value else StarterHistory(draws, daysBefore)
      ensures currentDay == InitialToday(history, today)
      ensures aiAdvice.None? && !loadingAdvice
    {
      activeTab := HomeTab;
      user := savedUser;
      var days := if savedHistory.Some? then savedHistory.value else StarterHistory(draws, daysBefore);
      history := days;
      currentDay := InitialToday(days, today);
      aiAdvice := None;
      loadingAdvice := false;
    }

    function CurrentScreen(): Screen
      reads this
    {
      Route(activeTab, user, history, currentDay, aiAdvice, loadingAdvice)
    }

    /** One firing of the simulator's interval. The interval exists only while
        the user is onboarded; otherwise nothing happens. */
    method SimulatorTick(increment: nat)
      requires increment <= 4
      modifies this
      ensures currentDay == if Onboarded(user) then Advance(old(currentDay), increment) else old(currentDay)
      ensures currentDay.date == old(currentDay.date) && currentDay.steps >= old(currentDay.steps)
      ensures Onboarded(user) ==> MetricsConsistent(currentDay)
      ensures user == old(user) && history == old(history) && activeTab == old(activeTab)
      ensures aiAdvice == old(aiAdvice) && loadingAdvice == old(loadingAdvice)
    {
      if Onboarded(user) {
        currentDay := Advance(currentDay, increment);
      }
    }

    /** handleOnboardingComplete: asks for a goal (its outcome is `goalReply`)
        and stores the completed profile. */
    method HandleOnboardingComplete(form: Onboarding.FormData, goalReply: GeminiService.Reply)
      modifies this`user
      ensures user == Some(CompleteProfile(form, GeminiService.SuggestDailyGoal(goalReply)))
      ensures Onboarded(user) && CurrentScreen() != OnboardingScreen
    {
      var goal := GeminiService.SuggestDailyGoal(goalReply);
      var profile := CompleteProfile(form, goal);
      assert profile.onboarded;
      user := Some(profile);
    }

    /** The synchronous part of fetchAIAdvice: without a user or history
        nothing happens; otherwise loading starts (the coach card shows its
        indicator and the refresh button is disabled) and the request goes out
        with the user and the last three days. */
    method RequestAdvice() returns (sent: Option<AdviceRequest>)
      modifies this`loadingAdvice
      ensures sent == AdviceRequestFor(user, history)
      ensures sent.Some? ==> loadingAdvice
      ensures sent.Some? ==> Dashboard.Panel(loadingAdvice, aiAdvice) == Dashboard.LoadingIndicator
      ensures sent.Some? ==> Dashboard.RefreshDisabled(loadingAdvice)
      ensures sent.None? ==> loadingAdvice == old(loadingAdvice)
    {
      sent := AdviceRequestFor(user, history);
      if sent.Some? {
        loadingAdvice := true;
      }
    }

    /** The continuation after the await: the outcome of the call becomes the
        advice and loading ends, so the card shows that advice. */
    method ReceiveAdvice(reply: GeminiService.Reply, parseJson: string -> Option<GeminiService.AdviceObject>)
      modifies this`aiAdvice, this`loadingAdvice
      ensures aiAdvice == Some(GeminiService.GetAICoachAdvice(reply, parseJson)) && !loadingAdvice
      ensures Dashboard.Panel(loadingAdvice, aiAdvice) == Dashboard.AdviceCard(GeminiService.GetAICoachAdvice(reply, parseJson))
    {
      aiAdvice := Some(GeminiService.GetAICoachAdvice(reply, parseJson));
      loadingAdvice := false;
    }

    /** fetchAIAdvice with no other event in between: the guarded request,
        then the reply (outcome `reply`) received. */
    method FetchAIAdvice(reply: GeminiService.Reply, parseJson: string -> Option<GeminiService.AdviceObject>)
      returns (sent: Option<AdviceRequest>)
      modifies this
      ensures sent == AdviceRequestFor(old(user), old(history))
      ensures sent.Some? ==> aiAdvice == Some(GeminiService.GetAICoachAdvice(reply, parseJson)) && !loadingAdvice
      ensures sent.None? ==> aiAdvice == old(aiAdvice) && loadingAdvice == old(loadingAdvice)
      ensures user == old(user) && history == old(history) && currentDay == old(currentDay)
      ensures activeTab == old(activeTab)
    {
      sent := RequestAdvice();
      if sent.Some? {
        ReceiveAdvice(reply, parseJson);
      }
    }

    /** The effect on user?.onboarded: once the user is onboarded and no
        advice is held yet, advice is fetched. */
    method OnboardedEffect(reply: GeminiService.Reply, parseJson: string -> Option<GeminiService.AdviceObject>)
      returns (sent: Option<AdviceRequest>)
      modifies this
      ensures Onboarded(old(user)) && old(aiAdvice).None? ==> sent == AdviceRequestFor(old(user), old(history))
      ensures !(Onboarded(old(user)) && old(aiAdvice).None?) ==> sent.None? && aiAdvice == old(aiAdvice)
      ensures sent.Some? ==> aiAdvice == Some(GeminiService.GetAICoachAdvice(reply, parseJson)) && !loadingAdvice
      ensures sent.None? ==> aiAdvice == old(aiAdvice) && loadingAdvice == old(loadingAdvice)
      ensures user == old(user) && history == old(history) && currentDay == old(currentDay)
      ensures activeTab == old(activeTab)
    {
      sent := None;
      if Onboarded(user) && aiAdvice.None? {
        sent := FetchAIAdvice(reply, parseJson);
      }
    }

    /** A tap on a navigation button. */
    method SelectTab(tab: Tab)
      modifies this`activeTab
      ensures activeTab == tab
    {
      activeTab := tab;
    }
  }

  /** From start-up through onboarding, with nothing stored and the starter
      days dated before today: the first screen is onboarding, the completed
      profile (goal 8000 when the goal call throws) opens the dashboard, and
      the first tick counts from a fresh zero-step day. The condition on
      `daysBefore` can fail on a real clock: the code steps back in local time
      but dates by UTC, so just after a daylight-saving change "today" and
      "one day back" can be the same date, and then the starter history
      already holds today. */
  method FirstRun(today: string, draws: seq<nat>, daysBefore: nat -> string, form: Onboarding.FormData,
                  increment: nat)
    returns (before: Screen, after: Screen, steps: nat)
    requires |draws| == 7 && forall i :: 0 <= i < 7 ==> draws[i] < 5000
    requires forall i: nat :: 1 <= i <= 7 ==> daysBefore(i) != today
    requires increment <= 4
    ensures before == OnboardingScreen
    ensures after.DashboardScreen? && after.user.dailyStepGoal == 8000 && after.user.name == form.name
    ensures steps == increment
  {
    var app := new SmartWalkApp(None, None, today, draws, daysBefore);
    before := app.CurrentScreen();
    app.HandleOnboardingComplete(form, GeminiService.Threw);
    after := app.CurrentScreen();
    var starter := StarterHistory(draws, daysBefore);
    assert forall k :: 0 <= k < |starter| ==> starter[k].date != today by {
      forall k | 0 <= k < |starter|
        ensures starter[k].date != today
      {
        assert starter[k].date == daysBefore(7 - k);
      }
    }
    assert app.currentDay == ActivityDay(today, 0, 0, 0, 0);
    app.SimulatorTick(increment);
    steps := app.currentDay.steps;
  }
}
