/** The two calls to the text-generation service, seen from the client: the
    service itself is outside the model, so each call's outcome is an input
    (the call threw, or it returned a reply whose text may be absent), and
    JSON.parse of a non-trivial reply is a parameter. What is modelled is how
    the outcome becomes a step goal or an advice object, and the activity lines
    the advice prompt is built from. */
module GeminiService {
  import opened JsBuiltins
  import opened Types

  /** Outcome of one call to the service. */
  datatype Reply = Threw | Replied(text: Option<string>)

  /** parseInt(response.text?.trim() || "10000"): an absent or blank reply
      falls back to the string "10000". */
  function GoalText(text: Option<string>): string {
    if text.None? || Trim(text.value) == "" then "10000" else Trim(text.value)
  }

  /** suggestDailyGoal: 8000 when the call throws, 10000 when the reply has no
      leading integer, otherwise that integer, unclamped. */
  function SuggestDailyGoal(reply: Reply): (goal: int)
    ensures reply == Threw ==> goal == 8000
    ensures reply.Replied? && ParseInt(GoalText(reply.text)) == NaN ==> goal == 10000
    ensures reply.Replied? && ParseInt(GoalText(reply.text)).Int? ==> goal == ParseInt(GoalText(reply.text)).value
  {
    match reply
    case Threw => 8000
    case Replied(text) =>
      match ParseInt(GoalText(text))
      case NaN => 10000
      case Int(v) => v
  }

  lemma TenThousandText()
    ensures ParseInt("10000") == Int(10000)
  {
    assert DecimalString(10000) == "10000" by {
      assert DecimalString(1) == "1";
      assert DecimalString(10) == "10";
      assert DecimalString(100) == "100";
      assert DecimalString(1000) == "1000";
    }
    ParseIntDecimal("", 10000, "");
    assert "" + ("10000" + "") == "10000";
  }

  /** An absent reply text, or one that is empty after trimming, gives 10000. */
  lemma BlankReplyGoal(text: Option<string>)
    requires text.None? || Trim(text.value) == ""
    ensures SuggestDailyGoal(Replied(text)) == 10000
  {
    assert GoalText(text) == "10000";
    TenThousandText();
  }

  /** Trimming white space, a number and a tail that does not continue it
      keeps the number and the trimmed tail. */
  lemma TrimAroundNumber(w: string, n: nat, rest: string)
    requires AllWhiteSpace(w)
    ensures Trim(w + (DecimalString(n) + rest)) == DecimalString(n) + TrimEnd(rest)
  {
    var d := DecimalString(n);
    TrimStartSkipsWhiteSpace(w, d + rest);
    assert (d + rest)[0] == d[0];
    TrimStartKeepsNonWhiteSpace(d + rest);
    TrimEndKeepsHead(d, rest);
  }

  lemma EndsNumberTrimmed(rest: string, n: nat)
    requires EndsNumber(rest, n)
    ensures EndsNumber(TrimEnd(rest), n)
  {
    var r := TrimEnd(rest);
    assert r == [] || r[0] == rest[0];
  }

  /** A reply made of white space, a number, and then anything that does not
      continue the number, gives that number. */
  lemma GoalFromLeadingNumber(w: string, n: nat, rest: string)
    requires AllWhiteSpace(w) && EndsNumber(rest, n)
    ensures SuggestDailyGoal(Replied(Some(w + (DecimalString(n) + rest)))) == n
  {
    var d := DecimalString(n);
    var r := TrimEnd(rest);
    TrimAroundNumber(w, n, rest);
    EndsNumberTrimmed(rest, n);
    DecimalUnsigned(n, r);
    assert d + r != [];
    assert GoalText(Some(w + (d + rest))) == d + r;
    ParseIntUnsigned(d + r, d + r);
  }

  /** "12000 steps" gives 12000. */
  lemma GoalExample()
    ensures SuggestDailyGoal(Replied(Some("12000 steps"))) == 12000
  {
    var d := DecimalString(12000);
    assert d == "12000" by {
      assert DecimalString(1) == "1";
      assert DecimalString(12) == "12";
      assert DecimalString(120) == "120";
      assert DecimalString(1200) == "1200";
    }
    var text := "" + (d + " steps");
    assert text == "12000 steps";
    GoalFromLeadingNumber("", 12000, " steps");
  }

  /** The 5000..15000 range is only asked for in the prompt: a reply of "99"
      gives a goal of 99. */
  lemma GoalNotClamped()
    ensures SuggestDailyGoal(Replied(Some("99"))) == 99
  {
    var d := DecimalString(99);
    assert d == "99" by {
      assert DecimalString(9) == "9";
    }
    var text := "" + (d + "");
    assert text == "99";
    GoalFromLeadingNumber("", 99, "");
  }

  /** A reply without a leading digit, sign or white space gives 10000. */
  lemma GoalFromWordReply(t: string)
    requires t != [] && !IsRadixDigit(t[0], 10) && !IsStrWhiteSpace(t[0]) && t[0] != '-' && t[0] != '+'
    ensures SuggestDailyGoal(Replied(Some(t))) == 10000
  {
    TrimStartKeepsNonWhiteSpace(t);
    var u := TrimEnd(t);
    assert |u| > 0;
    assert u[0] == t[0];
    assert GoalText(Some(t)) == u;
    ParseIntNoDigits(u);
  }

  /** The parsed reply as a JavaScript object: each of the three advice
      properties is present (a string) or missing. */
  datatype AdviceObject = AdviceObject(message: Option<string>, motivation: Option<string>, tip: Option<string>)

  /** An object with every property of an AIAdvice. */
  predicate IsComplete(obj: AdviceObject) {
    obj.message.Some? && obj.motivation.Some? && obj.tip.Some?
  }

  function AsObject(advice: AIAdvice): (obj: AdviceObject)
    ensures IsComplete(obj)
    ensures obj.message == Some(advice.message) && obj.motivation == Some(advice.motivation)
    ensures obj.tip == Some(advice.tip)
  {
    AdviceObject(Some(advice.message), Some(advice.motivation), Some(advice.tip))
  }

  /** The canned advice substituted when the call or JSON.parse throws. */
  const FallbackAdvice: AIAdvice := AIAdvice(
    "Keep up the great work! Consistency is key to achieving your fitness goals.",
    "Every step is progress.",
    "Drinking water before a walk can boost your metabolism.")

  /** The object JSON.parse("{}") gives. */
  const EmptyObject: AdviceObject := AdviceObject(None, None, None)

  /** JSON.parse(response.text || "{}") with the parse of a non-empty text left
      to `parseJson` (None: it throws). */
  function ParseAdviceText(text: Option<string>, parseJson: string -> Option<AdviceObject>): Option<AdviceObject> {
    if text.None? || text.value == "" then Some(EmptyObject) else parseJson(text.value)
  }

  /** getAICoachAdvice: the parsed reply, or the fallback when the call or the
      parse throws. */
  function GetAICoachAdvice(reply: Reply, parseJson: string -> Option<AdviceObject>): (advice: AdviceObject)
    ensures reply == Threw ==> advice == AsObject(FallbackAdvice)
    ensures reply.Replied? && (reply.text.None? || reply.text.value == "") ==> advice == EmptyObject
    ensures reply.Replied? && reply.text.Some? && reply.text.value != "" ==>
      advice == (if parseJson(reply.text.value).Some? then parseJson(reply.text.value).value else AsObject(FallbackAdvice))
  {
    match reply
    case Threw => AsObject(FallbackAdvice)
    case Replied(text) =>
      match ParseAdviceText(text, parseJson)
      case None => AsObject(FallbackAdvice)
      case Some(obj) => obj
  }

  /** An empty reply is not replaced by the fallback: it yields an object with
      none of the three properties. */
  lemma EmptyReplyIsNotFallback(parseJson: string -> Option<AdviceObject>)
    ensures GetAICoachAdvice(Replied(Some("")), parseJson) == EmptyObject
    ensures GetAICoachAdvice(Replied(None), parseJson) == EmptyObject
    ensures !IsComplete(EmptyObject) && EmptyObject != AsObject(FallbackAdvice)
  {
  }

  /** One prompt line per day: "- <date>: <steps> steps". */
  function ActivityLine(day: ActivityDay): string {
    "- " + day.date + ": " + DecimalString(day.steps) + " steps"
  }

  /** lines.join(sep). */
  function Join(lines: seq<string>, sep: string): string {
    if |lines| == 0 then ""
    else if |lines| == 1 then lines[0]
    else lines[0] + sep + Join(lines[1..], sep)
  }

  function ActivityLines(days: seq<ActivityDay>): (lines: seq<string>)
    ensures |lines| == |days|
    ensures forall k :: 0 <= k < |days| ==> lines[k] == ActivityLine(days[k])
  {
    if days == [] then [] else [ActivityLine(days[0])] + ActivityLines(days[1..])
  }

  /** recentActivity.map(day => `- ${day.date}: ${day.steps} steps`).join('\n') */
  function RecentActivityText(days: seq<ActivityDay>): string {
    Join(ActivityLines(days), "\n")
  }

  /** Splitting a text at every occurrence of c. */
  function Split(s: string, c: char): (parts: seq<string>)
    ensures |parts| > 0
  {
    if s == [] then [""]
    else
      var rest := Split(s[1..], c);
      if s[0] == c then [""] + rest else [[s[0]] + rest[0]] + rest[1..]
  }

  lemma {:induction false} SplitWithout(s: string, c: char, t: string)
    requires c !in s
    ensures Split(s + [c] + t, c) == [s] + Split(t, c)
    ensures Split(s, c) == [s]
  {
    if s == [] {
      assert s + [c] + t == [c] + t;
      assert ([c] + t)[1..] == t;
    } else {
      assert (s + [c] + t)[1..] == s[1..] + [c] + t;
      SplitWithout(s[1..], c, t);
      assert [s[0]] + s[1..] == s;
    }
  }

  lemma {:induction false} SplitJoin(lines: seq<string>, c: char)
    requires |lines| > 0
    requires forall k :: 0 <= k < |lines| ==> c !in lines[k]
    ensures Split(Join(lines, [c]), c) == lines
  {
    if |lines| == 1 {
      SplitWithout(lines[0], c, "");
    } else {
      SplitJoin(lines[1..], c);
      SplitWithout(lines[0], c, Join(lines[1..], [c]));
    }
  }

  /** The activity text is one line per day, in input order, separated by
      newlines: splitting it at '\n' gives back exactly the day lines, provided
      no date contains a newline. */
  lemma RecentActivityTextLines(days: seq<ActivityDay>)
    requires |days| > 0
    requires forall k :: 0 <= k < |days| ==> '\n' !in days[k].date
    ensures Split(RecentActivityText(days), '\n') == ActivityLines(days)
  {
    var lines := ActivityLines(days);
    forall k | 0 <= k < |lines|
      ensures '\n' !in lines[k]
    {
      LineHasNoNewline(days[k]);
    }
    SplitJoin(lines, '\n');
  }

  lemma LineHasNoNewline(day: ActivityDay)
    requires '\n' !in day.date
    ensures '\n' !in ActivityLine(day)
  {
    var d := DecimalString(day.steps);
    assert forall k :: 0 <= k < |d| ==> IsRadixDigit(d[k], 10);
    assert '\n' !in d;
  }

  /** The number in a day's line reads back, with parseInt, as its steps. */
  lemma ActivityLineSteps(day: ActivityDay)
    ensures ParseInt(ActivityLine(day)[|day.date| + 4..]) == Int(day.steps)
  {
    var d := DecimalString(day.steps);
    assert ActivityLine(day) == ("- " + day.date + ": ") + (d + " steps");
    assert ActivityLine(day)[|day.date| + 4..] == d + " steps";
    ParseIntDecimal("", day.steps, " steps");
    assert "" + (d + " steps") == d + " steps";
  }
}
