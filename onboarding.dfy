/**
 The onboarding wizard (src/app/onboarding/page.js): seven steps, a form of five answers,
 Back and Next buttons that stay within the steps, and a completion that saves the answers
 with `hasOnboarded: true` through the settings store.
 */
module Onboarding {

  import opened Wrappers
  import Seqs
  import opened Settings

  /** The ids of `STEPS`, in order. */
  const StepIds: seq<string> := ["welcome", "language", "interests", "community", "reading", "output", "complete"]

  const StepCount: nat := |StepIds|

  /** The answers collected so far. */
  datatype FormData = FormData(
    language: string,
    interests: seq<string>,
    community: string,
    defaultReadingLevel: string,
    outputStyle: string)

  /** The form before any answer. */
  const InitialForm := FormData("English", [], "General", "simple", "paragraphs")

  /** The fields edited through a `select`. */
  datatype SelectField = Language | Community | ReadingLevel | OutputStyle

  /** `formData[fieldName]` for a select field. */
  function FieldValue(f: FormData, field: SelectField): string
  {
    match field
    case Language => f.language
    case Community => f.community
    case ReadingLevel => f.defaultReadingLevel
    case OutputStyle => f.outputStyle
  }

  /** `handleFieldChange(fieldName, value)`: exactly that field takes the value. */
  function WithField(f: FormData, field: SelectField, value: string): (r: FormData)
    ensures FieldValue(r, field) == value
    ensures forall g :: g != field ==> FieldValue(r, g) == FieldValue(f, g)
    ensures r.interests == f.interests
  {
    match field
    case Language => f.(language := value)
    case Community => f.(community := value)
    case ReadingLevel => f.(defaultReadingLevel := value)
    case OutputStyle => f.(outputStyle := value)
  }

  /** `handleMultiSelect("interests", value, checked)`: checking appends the value, unchecking
      removes every copy of it; the other interests keep their order. */
  function WithInterest(f: FormData, value: string, checked: bool): (r: FormData)
    ensures checked ==> r.interests == f.interests + [value]
    ensures !checked ==> value !in r.interests
    ensures !checked ==> forall x :: x != value ==> (x in r.interests <==> x in f.interests)
    ensures !checked ==> multiset(r.interests) == multiset(f.interests)[value := 0]
    ensures forall g :: FieldValue(r, g) == FieldValue(f, g)
  {
    if checked then f.(interests := f.interests + [value])
    else
      var kept := Seqs.Filter(f.interests, x => x != value);
      assert multiset(kept) == multiset(f.interests)[value := 0] by {
        forall y ensures multiset(kept)[y] == multiset(f.interests)[value := 0][y] {
          Seqs.FilterMultiset(f.interests, x => x != value, y);
        }
      }
      f.(interests := kept)
  }

  /** Unchecking keeps the other interests in their order: any two that remain stand at
      positions `a < b` of the interests before. */
  lemma UncheckKeepsOrder(f: FormData, value: string, i: nat, j: nat) returns (a: nat, b: nat)
    requires i < j < |WithInterest(f, value, false).interests|
    ensures a < b < |f.interests|
    ensures f.interests[a] == WithInterest(f, value, false).interests[i]
    ensures f.interests[b] == WithInterest(f, value, false).interests[j]
  {
    a, b := Seqs.FilterKeepsOrder(f.interests, x => x != value, i, j);
  }

  /** Unchecking a box just checked gives back the interests from before, when the value was
      not among them (a checkbox is checked only when its value is absent). */
  lemma CheckThenUncheck(f: FormData, value: string)
    requires value !in f.interests
    ensures WithInterest(WithInterest(f, value, true), value, false) == f
  {
    Seqs.FilterAppend(f.interests, [value], x => x != value);
    Seqs.FilterAll(f.interests, x => x != value);
  }

  /** `{ ...formData, hasOnboarded: true }`, as a patch of the settings. */
  function CompletionPatch(f: FormData): (p: Patch)
    ensures p.hasOnboarded == Some(true)
  {
    EmptyPatch.(language := Some(f.language), interests := Some(f.interests),
                community := Some(f.community), defaultReadingLevel := Some(f.defaultReadingLevel),
                outputStyle := Some(f.outputStyle), hasOnboarded := Some(true))
  }

  /** Completing saves the five answers and marks the learner onboarded; everything else of
      the settings is kept. */
  lemma CompletionEffect(prev: Settings, f: FormData)
    ensures var s := Merge(prev, CompletionPatch(f));
            && s.language == f.language && s.interests == f.interests && s.community == f.community
            && s.defaultReadingLevel == f.defaultReadingLevel && s.outputStyle == f.outputStyle
            && s.hasOnboarded
            && s == prev.(language := f.language, interests := f.interests, community := f.community,
                          defaultReadingLevel := f.defaultReadingLevel, outputStyle := f.outputStyle,
                          hasOnboarded := true)
  {
  }

  /** `handleNext`: one step on, never past the last. */
  function NextStep(step: nat): (r: nat)
    ensures step < StepCount - 1 ==> r == step + 1
    ensures step >= StepCount - 1 ==> r == step
  {
    if step < StepCount - 1 then step + 1 else step
  }

  /** `handleBack`: one step back, never below the first. */
  function BackStep(step: nat): (r: nat)
    ensures step > 0 ==> r == step - 1
    ensures step == 0 ==> r == 0
  {
    if step > 0 then step - 1 else step
  }

  /** Whether the primary button completes (on the next-to-last step) rather than advancing. */
  predicate PrimaryCompletes(step: nat)
    ensures PrimaryCompletes(step) ==> step + 1 < StepCount && StepIds[step + 1] == "complete"
  {
    step == StepCount - 2
  }

  /** The buttons of the wizard: "Get Started" and "Next"/"Complete" are the primary button. */
  datatype Button = Primary | Back

  /** The step after pressing a button; a completing press leaves the step as it is. */
  function Press(step: nat, b: Button): (r: nat)
    ensures b == Back ==> r <= step
    ensures b == Primary ==> step <= r <= step + 1
    ensures step < StepCount - 1 ==> r < StepCount - 1
  {
    match b
    case Primary => if PrimaryCompletes(step) then step else NextStep(step)
    case Back => BackStep(step)
  }

  function PressAll(step: nat, bs: seq<Button>): nat
    decreases |bs|
  {
    if bs == [] then step else PressAll(Press(step, bs[0]), bs[1..])
  }

  /** The buttons keep the step below the completion screen: from any earlier step, no
      sequence of presses reaches `"complete"`, the last step. */
  lemma {:induction false} CompleteScreenUnreachable(step: nat, bs: seq<Button>)
    requires step < StepCount - 1
    ensures PressAll(step, bs) < StepCount - 1
    decreases |bs|
  {
    if bs != [] {
      CompleteScreenUnreachable(Press(step, bs[0]), bs[1..]);
    }
  }

  /** Every earlier step is reachable from the first one by pressing the primary button. */
  lemma {:induction false} EarlierStepsReachable(n: nat)
    requires n < StepCount - 1
    ensures PressAll(0, seq(n, _ => Primary)) == n
  {
    if n > 0 {
      EarlierStepsReachable(n - 1);
      PressAllSnoc(0, seq(n - 1, _ => Primary), Primary);
      assert seq(n, _ => Primary) == seq(n - 1, _ => Primary) + [Primary];
    }
  }

  lemma {:induction false} PressAllSnoc(step: nat, bs: seq<Button>, b: Button)
    ensures PressAll(step, bs + [b]) == Press(PressAll(step, bs), b)
    decreases |bs|
  {
    if bs == [] {
      assert [] + [b] == [b];
    } else {
      assert (bs + [b])[1..] == bs[1..] + [b];
      PressAllSnoc(Press(step, bs[0]), bs[1..], b);
    }
  }

  /** What the page shows. */
  datatype Screen = LoadingScreen | Welcome | CompleteScreen | FormStep(index: nat)

  /** The loading guard, then the welcome and completion screens, then the form steps. */
  function ScreenFor(settingsLoading: bool, status: SessionStatus, step: nat): (r: Screen)
    requires step < StepCount
    ensures (settingsLoading || status == Loading) <==> r == LoadingScreen
    ensures r.FormStep? ==> r.index == step && 0 < step < StepCount - 1
  {
    if settingsLoading || status == Loading then LoadingScreen
    else if StepIds[step] == "welcome" then Welcome
    else if StepIds[step] == "complete" then CompleteScreen
    else
      assert step != 0 && step != StepCount - 1 by {
        assert StepIds[0] == "welcome" && StepIds[StepCount - 1] == "complete";
      }
      FormStep(step)
  }

  /** The redirect effect: a learner already onboarded is sent to the home page, judged on
      what the settings context hands out. */
  predicate RedirectsHome(v: ContextView, status: SessionStatus)
  {
    !v.isLoading && status != Loading && v.settings.hasOnboarded
  }

  /** On the context as written, only a signed-in learner whose held settings say
      `hasOnboarded` is sent home: the defaults handed to everyone else have not onboarded. */
  lemma RedirectsHomeAsWritten(status: SessionStatus, userId: Option<string>, s: Settings)
    ensures RedirectsHome(ExposedViewAsWritten(status, userId, s), status) <==>
              status == Authenticated && s.hasOnboarded
  {
  }

  class Wizard {

    var step: nat
    var form: FormData

    predicate Valid()
      reads this
    {
      step < StepCount
    }

    constructor ()
      ensures Valid() && step == 0 && form == InitialForm
    {
      step := 0;
      form := InitialForm;
    }

    method HandleNext()
      requires Valid()
      modifies this`step
      ensures Valid() && step == NextStep(old(step))
    {
      if step < StepCount - 1 {
        step := step + 1;
      }
    }

    method HandleBack()
      requires Valid()
      modifies this`step
      ensures Valid() && step == BackStep(old(step))
    {
      if step > 0 {
        step := step - 1;
      }
    }

    method HandleFieldChange(field: SelectField, value: string)
      modifies this`form
      ensures form == WithField(old(form), field, value)
    {
      form := WithField(form, field, value);
    }

    method HandleMultiSelect(value: string, checked: bool)
      modifies this`form
      ensures form == WithInterest(old(form), value, checked)
    {
      form := WithInterest(form, value, checked);
    }

    /** `handleCompleteOnboarding`: one `updateSettings` with the answers; the redirect to
        the home page is left to the caller. */
    method HandleComplete(store: SettingsStore)
      requires store.Valid()
      modifies store`settings, store`writes
      ensures store.Valid()
      ensures store.settings == Merge(old(store.settings), CompletionPatch(form))
      ensures store.settings.hasOnboarded
      ensures |store.writes| == |old(store.writes)| + 1
    {
      store.UpdateSettings(CompletionPatch(form));
    }

    /** The redirect effect run against the settings context. */
    method RedirectEffect(store: SettingsStore) returns (redirect: bool)
      ensures redirect <==> store.status == Authenticated && store.settings.hasOnboarded
    {
      redirect := RedirectsHome(store.View(), store.status);
      RedirectsHomeAsWritten(store.status, store.userId, store.settings);
    }

    /** The primary button: "Complete" on the next-to-last step, "Next" before it. */
    method PressPrimary(store: SettingsStore) returns (completed: bool)
      requires Valid() && store.Valid()
      modifies this`step, store`settings, store`writes
      ensures Valid() && step == Press(old(step), Primary) && store.Valid()
      ensures completed <==> PrimaryCompletes(old(step))
      ensures completed ==> store.settings == Merge(old(store.settings), CompletionPatch(form))
      ensures !completed ==> store.settings == old(store.settings) && store.writes == old(store.writes)
    {
      completed := step == StepCount - 2;
      if completed {
        HandleComplete(store);
      } else {
        HandleNext();
      }
    }
  }

}
