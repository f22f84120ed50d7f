/** The onboarding wizard: a three-step form. Step 1 asks for the name and the
    age, step 2 for height and weight, step 3 for the goal and the activity
    level. Each input exists only on its own step, and the primary button is
    disabled on step 1 while the name is empty, so a wizard past step 1 always
    holds a name. */
module Onboarding {
  import opened JsBuiltins
  import opened Types

  /** The Partial<UserProfile> the wizard collects. Numeric inputs are read
      with parseInt, so a cleared field holds NaN. */
  datatype FormData = FormData(
    name: string,
    age: JsInt,
    height: JsInt,
    weight: JsInt,
    goal: GoalType,
    activityLevel: ActivityLevel)

  const DefaultForm: FormData := FormData("", Int(25), Int(170), Int(70), GeneralHealth, Medium)

  class Wizard {
    var step: int
    var form: FormData

    /** The wizard's invariant: step stays in 1..3 and a wizard past step 1
        holds a non-empty name. */
    predicate Valid()
      reads this
    {
      1 <= step <= 3 && (step >= 2 ==> form.name != "")
    }

    constructor ()
      ensures Valid()
      ensures step == 1 && form == DefaultForm
    {
      step := 1;
      form := DefaultForm;
    }

    /** disabled={step === 1 && !formData.name} */
    function PrimaryDisabled(): bool
      reads this
    {
      step == 1 && form.name == ""
    }

    /** The Back button is rendered only after step 1. */
    function BackOffered(): bool
      reads this
    {
      step > 1
    }

    /** Progress segment i (1..3) is filled when i <= step. */
    function SegmentFilled(i: int): bool
      reads this
    {
      i <= step
    }

    /** After the first step, the name has been entered. */
    lemma NamedPastFirstStep()
      requires Valid() && step >= 2
      ensures !PrimaryDisabled() && form.name != ""
    {
    }

    /** The filled segments are exactly the first `step` ones. */
    lemma SegmentsFilled()
      requires Valid()
      ensures SegmentFilled(1)
      ensures forall i :: 1 <= i <= 3 ==> (SegmentFilled(i) <==> i <= step)
      ensures SegmentFilled(3) <==> step == 3
    {
    }

    /** The primary button: ignored while disabled; before step 3 it moves one
        step forward (nextStep); on step 3 it hands the form, unchanged, to the
        completion handler (handleFinish) and stays where it is. */
    method Primary() returns (submitted: Option<FormData>)
      requires Valid()
      modifies this
      ensures Valid()
      ensures form == old(form)
      ensures old(PrimaryDisabled()) ==> step == old(step) && submitted.None?
      ensures !old(PrimaryDisabled()) && old(step) < 3 ==> step == old(step) + 1 && submitted.None?
      ensures !old(PrimaryDisabled()) && old(step) == 3 ==> step == 3 && submitted == Some(old(form))
      ensures submitted.Some? ==> submitted.value.name != ""
    {
      submitted := None;
      if !PrimaryDisabled() {
        if step < 3 {
          step := step + 1;
        } else {
          submitted := Some(form);
        }
      }
    }

    /** The Back button (prevStep): one step back; there is no button on step 1. */
    method Back()
      requires Valid()
      modifies this
      ensures Valid()
      ensures form == old(form)
      ensures step == if old(step) > 1 then old(step) - 1 else old(step)
    {
      if BackOffered() {
        step := step - 1;
      }
    }

    /** Typing in the name field, which exists only on step 1. */
    method EditName(name: string)
      requires Valid()
      modifies this
      ensures Valid() && step == old(step)
      ensures form == if old(step) == 1 then old(form).(name := name) else old(form)
    {
      if step == 1 {
        form := form.(name := name);
      }
    }

    /** Typing in the age field (step 1): the field holds parseInt of the text. */
    method EditAge(text: string)
      requires Valid()
      modifies this
      ensures Valid() && step == old(step)
      ensures form == if old(step) == 1 then old(form).(age := ParseInt(text)) else old(form)
    {
      if step == 1 {
        form := form.(age := ParseInt(text));
      }
    }

    /** Moving the height slider (step 2). */
    method EditHeight(text: string)
      requires Valid()
      modifies this
      ensures Valid() && step == old(step)
      ensures form == if old(step) == 2 then old(form).(height := ParseInt(text)) else old(form)
    {
      if step == 2 {
        form := form.(height := ParseInt(text));
      }
    }

    /** Moving the weight slider (step 2). */
    method EditWeight(text: string)
      requires Valid()
      modifies this
      ensures Valid() && step == old(step)
      ensures form == if old(step) == 2 then old(form).(weight := ParseInt(text)) else old(form)
    {
      if step == 2 {
        form := form.(weight := ParseInt(text));
      }
    }

    /** Choosing a goal (step 3): only that field changes. */
    method ChooseGoal(goal: GoalType)
      requires Valid()
      modifies this
      ensures Valid() && step == old(step)
      ensures form == if old(step) == 3 then old(form).(goal := goal) else old(form)
    {
      if step == 3 {
        form := form.(goal := goal);
      }
    }

    /** Choosing an activity level (step 3): only that field changes. */
    method ChooseActivityLevel(level: ActivityLevel)
      requires Valid()
      modifies this
      ensures Valid() && step == old(step)
      ensures form == if old(step) == 3 then old(form).(activityLevel := level) else old(form)
    {
      if step == 3 {
        form := form.(activityLevel := level);
      }
    }
  }

  /** Walking through the wizard: the name gate holds on every path, so no
      sequence of clicks submits a form without a name. */
  method Walkthrough(name: string, age: string) returns (submitted: Option<FormData>)
    ensures submitted.Some? ==> submitted.value.name == name && name != ""
    ensures name != "" ==> submitted.Some?
    ensures submitted.Some? ==> submitted.value.goal == Fitness && submitted.value.activityLevel == Medium
  {
    var w := new Wizard();
    w.EditName(name);
    w.EditAge(age);
    var r1 := w.Primary();
    w.ChooseGoal(Fitness);
    var r2 := w.Primary();
    w.ChooseGoal(Fitness);
    submitted := w.Primary();
  }
}
