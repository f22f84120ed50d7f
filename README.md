# SmartWalkAI, modelled in Dafny

SmartWalkAI is a small React fitness client. A new user goes through a three-step onboarding wizard. A text-generation service then suggests a daily step goal. After that the app shows four tabs:

- a dashboard with goal progress and an "AI coach" card;
- a challenges view;
- a seven-day analytics view;
- a profile view.

Step counting is simulated: an interval adds a few steps to today's record every five seconds. Calories, active minutes and distance are recomputed from the new count.

This project models the client's logic and proves properties of it. One module per source file:

- `App` (`app.dfy`):
  - the root controller, as a class `SmartWalkApp`;
  - the pure helpers it uses: the starter history, the lookup of today's record, the simulator tick, the completed profile, the guarded advice request and the screen routing.
- `Onboarding` (`onboarding.dfy`): the wizard, as a state-machine class `Wizard`. Its invariant is that the step stays in 1..3 and that any step past the first holds a non-empty name.
- `Dashboard`, `Challenges`, `Analytics`: the views' derived values, as functions.
  - Dashboard: progress, ring colour, goal message and the coach-card choice.
  - Challenges: the challenges from a step count, bar widths and earned badges.
  - Analytics: the seven-day window, total, rounded average and highlighting.
- `GeminiService`: how the outcome of each service call becomes a step goal or an advice object, and the prompt's activity lines.
- `Types`: the shared enumerations and records.
- `ActivityMetrics`: the metric formulas shared by the tick and the starter history.
- `JsBuiltins`: the ECMAScript library behaviour the code relies on:
  - `parseInt` (section 19.2.5 of ECMA-262) and `String.prototype.trim`;
  - `Array.prototype.slice(-n)` and `Math.round` of a quotient;
  - decimal number rendering.

Outside inputs become parameters:

- today's date and the days before it;
- the random draws;
- the outcome of each service call: it threw, or it replied with text that may be absent;
- `JSON.parse` of a non-empty reply;
- the decoded contents of browser storage.

The following agree with IEEE-754 arithmetic on every comparison the code makes:

- Percentages are exact reals. A displayed value such as 1/3 of a bar is 33.333… here and 33.33333333333333 as a double; the comparisons against 100 agree.
- `Math.floor(steps * 0.04)` is written as `steps * 4 / 100`.
- The Cardio King test `steps * 0.04 >= 400` is written as `4 * steps >= 40000`.
- A zero daily goal is written out: `x / 0` is Infinity, which `Math.min` caps at 100, and `0 / 0` is NaN, which fails every comparison.

Two behaviours of the code that a reader might not expect:

- **The suggested goal is not clamped.** The prompt asks the service for an integer in 5000..15000 (geminiService.ts:67), but the reply is not clamped: whatever integer `parseInt` reads is returned (geminiService.ts:75-76) and stored as the daily goal (App.tsx:134-137). `GeminiService.GoalNotClamped` shows that "99" gives 99. The dashboard lemmas show what a zero or negative goal then displays.
- **An empty advice reply is not replaced by the fallback.** `JSON.parse("{}")` succeeds, so the result is an object with no fields. Only a thrown call or a failed parse gives the canned advice (`GeminiService.EmptyReplyIsNotFallback`).

## Model

The view helpers `JsBuiltins.ParseInt`, `Analytics.TotalSteps`, `Analytics.Highlighted`, `Dashboard.Color` and `Dashboard.Message` have no contract of their own. They are specified through the lemma rows that mention them: the parseInt lemmas, ReduceIsTotal and AvgWithinRange, SomeBarPlain and EvenWeekNothingHighlighted, and PositiveGoal, ZeroGoalWithSteps, ZeroGoalNoSteps and NegativeGoal.

| member | source | states |
|---|---|---|
| JsBuiltins.TrimStart | geminiService.ts:75 | the result is a suffix of the input; exactly a white-space prefix was removed; the result does not start with white space |
| JsBuiltins.TrimEnd | geminiService.ts:75 | the result is a prefix of the input; only trailing white space was removed; the result does not end with white space |
| JsBuiltins.DigitPrefix | geminiService.ts:75 | the longest prefix made of digits of the radix: every character in it is a digit, and the next character is not |
| JsBuiltins.DecimalStringValue | geminiService.ts:23 | reading the decimal rendering of n back as digits gives n |
| JsBuiltins.ParseIntDecimal | geminiService.ts:75 | parseInt of white space, the decimal rendering of n, then a character that does not continue the number, is n |
| JsBuiltins.ParseIntNegativeDecimal | components/Onboarding.tsx:66 | the same text with a minus sign in front parses to -n |
| JsBuiltins.ParseIntHex | geminiService.ts:75 | a "0x" or "0X" prefix makes parseInt read base-16 digits, up to the first character that is not one |
| JsBuiltins.ParseIntPlusDecimal | geminiService.ts:75 | a plus sign in front of white-space-led decimal text is removed and the value is unchanged |
| JsBuiltins.ParseIntNoDigits | geminiService.ts:75-76 | a text that starts with no digit, sign or white space parses to NaN |
| JsBuiltins.SliceLast | components/Analytics.tsx:25 | slice(-n) keeps exactly the last min(n, length) elements, in their original order |
| JsBuiltins.RoundRatio | components/Analytics.tsx:32 | Math.round(a / b): the result is within one half of a / b, and a half rounds up |
| Types.ActivityLevelLabelsDistinct | types.ts:2-6 | the three activity levels have the labels Low, Medium and High, and the labels are distinct |
| Types.GoalTypeLabelsDistinct | types.ts:8-12 | the three goals have the labels Weight Loss, Fitness and General Health, and the labels are distinct |
| ActivityMetrics.Calories | App.tsx:108 | calories is floor(steps * 0.04): 25 * c <= steps < 25 * (c + 1) |
| ActivityMetrics.ActiveMinutes | App.tsx:109 | active minutes is floor(steps / 100) |
| ActivityMetrics.DistanceHundredths | App.tsx:107 | distance is steps * 0.0007 km rounded to hundredths, with halves rounded up |
| ActivityMetrics.MetricsMonotone | App.tsx:103-110 | more steps never give fewer calories, active minutes or kilometres |
| ActivityMetrics.SevenThousandSteps | App.tsx:107-109 | 7000 steps give 4.90 km, 280 kcal and 70 active minutes |
| Challenges.DailySprint | components/Challenges.tsx:12 | target 5000; current is min(steps, 5000); completed exactly when steps >= 5000, which is exactly when current reaches the target |
| Challenges.CardioKing | components/Challenges.tsx:13 | target 400; current is min(calories, 400); completed exactly when steps >= 10000, which is exactly when current reaches the target |
| Challenges.MarathonWeek | components/Challenges.tsx:14 | never completed, and short of its target |
| Challenges.ActiveChallenges | components/Challenges.tsx:11-15 | exactly the three challenges Daily Sprint, Cardio King and Marathon Week, in that order, each with a positive target and a current value between 0 and that target |
| Challenges.BarWidth | components/Challenges.tsx:62 | the bar width never exceeds 100; it is 100 exactly when current reaches the target; short of that it is current / target × 100; it is never negative |
| Challenges.CompletedIffFullBar | components/Challenges.tsx:12-14 | each challenge is marked completed exactly when its bar is full |
| Challenges.BarWidthMonotone | components/Challenges.tsx:62 | more steps never shorten a challenge's progress bar |
| Challenges.Badges | components/Challenges.tsx:17-22 | the catalogue holds four badges |
| Challenges.OnlyFirstStepsEarned | components/Challenges.tsx:17-22 | a badge is drawn as earned exactly when it has an earned date, and of the four only First Steps has one; the first badge is First Steps and it is earned |
| Dashboard.Progress | components/Dashboard.tsx:15 | progress never exceeds 100; it is NaN exactly when both the steps and the goal are 0; it is 100 when the goal is 0 and there are steps; below 100 it is steps / goal × 100 |
| Dashboard.PositiveGoal | components/Dashboard.tsx:15-16 | with a positive goal, progress reaches 100 exactly when steps >= goal; exactly then the ring is green and the achieved message is shown; otherwise the message shows the remaining count goal − steps, which is positive |
| Dashboard.ZeroGoalWithSteps | components/Dashboard.tsx:15-16 | with goal 0 and some steps, progress is capped at 100 (Infinity), so the ring is green and the achieved message is shown |
| Dashboard.ZeroGoalNoSteps | components/Dashboard.tsx:15-16 | with goal 0 and no steps, progress is NaN: the ring stays blue while the achieved message is shown |
| Dashboard.NegativeGoal | components/Dashboard.tsx:121 | with a negative goal the ring is blue and the message shows a negative number of remaining steps |
| Dashboard.Panel | components/Dashboard.tsx:80-105 | the coach card shows exactly one of three things: the loading indicator while loading, else the advice when there is some, else the refresh prompt |
| Dashboard.RefreshDisabledWhileLoading | components/Dashboard.tsx:73 | the refresh button is disabled exactly while the loading indicator is shown |
| Dashboard.StatBoxesOfDerivedDay | components/Dashboard.tsx:58-60 | for a day with consistent metrics, the stat boxes show that day's distance, calories and active minutes |
| GeminiService.SuggestDailyGoal | geminiService.ts:75-79 | a thrown call gives 8000; a reply whose goal text parses to NaN gives 10000; otherwise the goal is the integer parseInt reads (signed, decimal or 0x) |
| GeminiService.BlankReplyGoal | geminiService.ts:75 | an absent reply text, or one that is empty after trimming, gives 10000 |
| GeminiService.GoalFromLeadingNumber | geminiService.ts:75-76 | a reply of white space, a number, then anything that does not continue it, gives that number |
| GeminiService.GoalExample | geminiService.ts:75 | "12000 steps" gives 12000 |
| GeminiService.GoalNotClamped | geminiService.ts:67-76 | "99" gives 99: the range in the prompt is not enforced |
| GeminiService.GoalFromWordReply | geminiService.ts:75-76 | a reply without a leading digit, sign or white space gives 10000 |
| GeminiService.AsObject | types.ts:51-55 | an AIAdvice, seen as an object, has all three properties, holding exactly its message, motivation and tip |
| GeminiService.GetAICoachAdvice | geminiService.ts:46-53 | a thrown call gives the fixed fallback; an absent or empty reply gives the empty object; otherwise the parsed object, or the fallback when parsing throws |
| GeminiService.EmptyReplyIsNotFallback | geminiService.ts:46 | an empty reply gives an object with none of the three properties, which differs from the fallback |
| GeminiService.ActivityLines | geminiService.ts:23 | one line per recent day, in input order, each "- date: steps steps" |
| GeminiService.RecentActivityTextLines | geminiService.ts:23 | splitting the joined activity text at newlines gives back exactly the day lines, in order |
| GeminiService.ActivityLineSteps | geminiService.ts:23 | the number in a day's line reads back, with parseInt, as that day's steps |
| Analytics.ChartData | components/Analytics.tsx:25-30 | the chart holds the last min(7, n) days, in order, each with its own steps, calories and distance |
| Analytics.ReduceIsTotal | components/Analytics.tsx:33 | the front-to-back accumulator fold that reduce runs equals the sum TotalSteps, for any start value; from 0 it is totalSteps |
| Analytics.AvgSteps | components/Analytics.tsx:32 | the average is a number exactly when the chart is not empty, and then it is within one half of totalSteps / length (Math.round) |
| Analytics.AvgWithinRange | components/Analytics.tsx:32 | the rounded average lies between the smallest and the largest daily count |
| Analytics.SomeBarPlain | components/Analytics.tsx:94 | a chart with data always has a bar not highlighted: the day with the fewest steps |
| Analytics.EvenWeekNothingHighlighted | components/Analytics.tsx:94 | when every day has the same count, the average is that count and no bar is highlighted |
| Analytics.HalfRoundsUp | components/Analytics.tsx:32 | days of 3 and 4 steps average 4 (3.5 rounded up) |
| Onboarding.Wizard.constructor | components/Onboarding.tsx:11-19 | the wizard starts on step 1 with an empty name, age 25, height 170, weight 70, General Health and Medium |
| Onboarding.Wizard.NamedPastFirstStep | components/Onboarding.tsx:164 | past step 1 the primary button is enabled and the name is non-empty |
| Onboarding.Wizard.SegmentsFilled | components/Onboarding.tsx:33-36 | progress segment i is filled exactly when i <= step |
| Onboarding.Wizard.Primary | components/Onboarding.tsx:163-164 | while disabled, nothing happens; before step 3 it moves exactly one step forward; on step 3 it submits the unchanged form, which always has a name; the step stays in 1..3 |
| Onboarding.Wizard.Back | components/Onboarding.tsx:154-156 | offered only past step 1; it moves exactly one step back and leaves the form alone |
| Onboarding.Wizard.EditName | components/Onboarding.tsx:55 | on step 1 only the name changes; elsewhere nothing does |
| Onboarding.Wizard.EditAge | components/Onboarding.tsx:66 | on step 1 only the age changes, to parseInt of the text; elsewhere nothing does |
| Onboarding.Wizard.EditHeight | components/Onboarding.tsx:98 | on step 2 only the height changes, to parseInt of the text; elsewhere nothing does |
| Onboarding.Wizard.EditWeight | components/Onboarding.tsx:110 | on step 2 only the weight changes, to parseInt of the text; elsewhere nothing does |
| Onboarding.Wizard.ChooseGoal | components/Onboarding.tsx:127 | on step 3 only the goal changes; elsewhere nothing does |
| Onboarding.Wizard.ChooseActivityLevel | components/Onboarding.tsx:141 | on step 3 only the activity level changes; elsewhere nothing does |
| Onboarding.Walkthrough | components/Onboarding.tsx:163-164 | clicking through the wizard submits exactly when a name was entered, and then with that name and the chosen goal |
| App.Advance | App.tsx:102-110 | a tick keeps the date, adds exactly the increment (at most four) to the steps, and recomputes consistent metrics |
| App.AdvanceTwice | App.tsx:102-110 | two ticks give the same record as one tick of the summed increment |
| App.StarterHistory | App.tsx:59-70 | seven days, the i-th dated 7 - i days back, with 4000 + draw steps (in 4000..8999) and consistent metrics |
| App.FindDate | App.tsx:75 | the index of the first day with the date, or none when no day has it |
| App.InitialToday | App.tsx:73-83 | dated today; the first stored day dated today when there is one, else a record with no steps and all metrics 0 |
| App.InitialTodayConsistent | App.tsx:73-83 | from a history with consistent metrics, the initial today is consistent too |
| App.CompleteProfile | App.tsx:133-141 | every submitted field is kept, the goal is the suggested one, and the profile is onboarded |
| App.AdviceRequestFor | App.tsx:117-124 | a request exists exactly when there is a user and the history is not empty; it carries that user and the last min(3, n) days, in order |
| App.Route | App.tsx:143-185 | the onboarding screen is shown exactly when there is no onboarded user, whatever tab is selected; for an onboarded user, home shows the dashboard with the user, today, the advice and the loading flag, challenges gets today's steps, analytics gets the history with today appended, and profile gets the user |
| App.AnalyticsNeverEmpty | App.tsx:180-182 | the analytics chart is never empty, so its average is a number, and its last bar is today |
| App.SmartWalkApp.constructor | App.tsx:47-86 | stored profile and history when present, else no user and the starter history; today is looked up in that history; home tab, no advice, not loading |
| App.SmartWalkApp.SimulatorTick | App.tsx:98-115 | with an onboarded user, today advances by the tick and keeps consistent metrics; otherwise nothing changes |
| App.SmartWalkApp.HandleOnboardingComplete | App.tsx:133-141 | the user becomes the completed profile with the suggested goal, so the main screens are shown |
| App.SmartWalkApp.RequestAdvice | App.tsx:117-120 | the guarded request goes out, and with it loading starts: the coach card shows the indicator and refresh is disabled |
| App.SmartWalkApp.ReceiveAdvice | App.tsx:120-122 | the call's outcome becomes the advice, loading ends, and the card shows that advice |
| App.SmartWalkApp.FetchAIAdvice | App.tsx:117-124 | without a user or history nothing changes; otherwise the advice is the call's outcome and loading has ended |
| App.SmartWalkApp.OnboardedEffect | App.tsx:126-131 | advice is fetched only for an onboarded user who has no advice yet; when nothing is sent the advice and the loading flag are unchanged, and when a request is sent the advice is the outcome and loading has ended |
| App.SmartWalkApp.SelectTab | App.tsx:190-213 | the selected tab becomes the one tapped |
| App.FirstRun | App.tsx:133-145 | a first start shows onboarding; completing it with a failed goal call opens the dashboard with goal 8000 and the entered name; the first tick counts from zero when every starter day is dated before today (a UTC date taken after a local-time daylight-saving step can break that, App.tsx:60-64) |

## Left out

- Rendering is left out: JSX layout, CSS classes, icons, the recharts charts, the header greeting and the static leaderboard card. They are presentation only.
- Persistence is left out: the localStorage reads and writes and JSON.stringify/parse of the stored records. The constructor takes the decoded records; writes have no observable effect on the logic.
- components/ProfileView.tsx is not part of this model. Its reset is browser I/O (confirm, storage removal, reload), and the rest is display.
- The service client is left out: the text-generation library, the model name and the response schema. Each call's outcome is an input, `GeminiService.Reply`. Only the activity-line part of the advice prompt is modelled; the goal prompt's text is not.
- Timers, randomness and dates are parameters:
  - the five-second interval and its clearing;
  - `Math.random` draws, as `draws` and the tick's `increment` in 0..4;
  - `Date`/`toISOString`, as `today` and `daysBefore`.
- ActivityMetrics.DistanceHundredths: distance is an integer number of hundredths of a km. It rounds the exact product steps * 0.0007 with halves up, where the code's `toFixed(2)` acts on the nearest double. The two can differ at a half, by one hundredth.
- Other floating-point values are not modelled:
  - the analytics total distance (`toFixed(1)`);
  - the ring's 628.3 dash offset;
  - the bar-width percentage strings.
- Async interleaving of overlapping advice fetches is not stated. The fetch is split into a request half (`RequestAdvice`) and a reply half (`ReceiveAdvice`); a caller may put other events between the two, but no contract speaks about such interleavings. `FetchAIAdvice` runs the two halves back to back.
- Locale formatting (`toLocaleString`, `toLocaleDateString`) and the chart's weekday label are not modelled.
- GeminiService.ParseAdviceText: the parse of a non-empty reply is left entirely to `parseJson`, even where JSON.parse's result is known. A white-space-only reply is truthy, so the code parses it, JSON.parse throws and the fallback is shown; a non-empty "{}" gives the empty object. The model does not fix `parseJson` on those texts.
- GeminiService.GetAICoachAdvice: `parseJson` yields an object or throws. A reply that parses to `null`, a number or an array, or to fields that are not strings, is not represented.
- JsBuiltins.ParseInt: results are exact integers. The code's numbers lose precision beyond 2^53, and `-0` is taken as 0. This has a visible effect: a goal reply of "-0" gives the goal -0 in the code, so any positive step count makes progress -Infinity (a blue ring and a negative remaining count). In the model the goal is 0, which gives 100, a green ring and the achieved message.
- Strings are sequences of Unicode scalar values, not UTF-16 code units; this only matters for the white-space set and emoji.
- App.SmartWalkApp.constructor: the stored records are taken as already decoded and well-typed.
- Onboarding.Wizard: the optional gender selector on step 1 is not modelled; it is not bound to the form.
