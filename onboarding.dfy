/** The onboarding wizard of src/pages/Onboarding.jsx: the `step` and `formData` state cells,
    the events the page offers, and what it hands to its collaborators.

    The guards live in the rendering, not in the handlers: Next is a button whose `disabled`
    attribute is `!isStepValid()`, Back and Skip are alternative buttons of the navigation row,
    the navigation row exists only before step 6, the Enter Workspace button only at step 6,
    and each answer card only on its own step. No handler checks these rendered guards itself
    (`handleBack`'s own `step > 1` test repeats the rendering's condition, and `BackStep` keeps
    it). `Enabled` collects the guards, and each method of `OnboardingPage` first checks
    `Enabled` and then does what its handler does. */
module Onboarding {
  import opened Sequences
  import opened OnboardingForm
  import opened Strings

  /** What `completeOnboarding` receives: either `{ skipped: true }` or the accumulated answers. */
  datatype Payload = Skipped | Answers(form: FormData)

  /** A call the page makes into code outside it. */
  datatype Effect = CompleteOnboarding(payload: Payload) | Navigate(path: string)

  /** A user interaction with the page. */
  datatype Event =
    | Next
    | Back
    | Skip
    | Finish
    | Select(key: SingleKey, value: string)
    | Toggle(listKey: ListKey, choice: string)

  /** The page's state: `step`, `formData`, whether the page is still shown (navigating to "/"
      replaces it) and the calls it has made so far. */
  datatype Wizard = Wizard(step: int, form: FormData, mounted: bool, effects: seq<Effect>)

  /** The state on arrival: step 1, every answer empty. */
  const START := Wizard(1, EMPTY_FORM, true, [])

  /** The step that `handleNext` moves to. */
  function NextStep(step: int): (r: int)
    ensures step < 5 ==> r == step + 1
    ensures 5 <= step ==> r == 6
    ensures 1 <= step <= 5 ==> 2 <= r <= 6 && BackStep(r) == step
  {
    if step < 5 then step + 1 else 6
  }

  /** The step that `handleBack` moves to. */
  function BackStep(step: int): (r: int)
    ensures step > 1 ==> r == step - 1
    ensures step <= 1 ==> r == step
  {
    if step > 1 then step - 1 else step
  }

  /** Whether the page offers the event in state `w` (the control is rendered and enabled). */
  predicate Enabled(w: Wizard, e: Event)
    ensures Enabled(w, e) ==> w.mounted
    ensures w.mounted && w.step == 6 ==> (Enabled(w, e) <==> e == Finish)
    ensures w.mounted && 1 <= w.step <= 5 && (e == Back || e == Skip) ==> (Enabled(w, e) <==> (e == Back) == (w.step > 1))
    ensures (e.Select? || e.Toggle?) && Enabled(w, e) ==> 1 <= w.step <= 5
  {
    w.mounted &&
    match e
    case Next => w.step < 6 && IsStepValid(w.step, w.form)
    case Back => w.step < 6 && w.step > 1
    case Skip => w.step < 6 && w.step == 1
    case Finish => w.step == 6
    case Select(k, v) => w.step == StepOf(k) && v in Options(k)
    case Toggle(k, v) => w.step == ListStepOf(k) && v in ListOptions(k)
  }

  /** The effect of one interaction; an interaction the page does not offer changes nothing. */
  function Apply(w: Wizard, e: Event): (r: Wizard)
    ensures !Enabled(w, e) ==> r == w
  {
    if !Enabled(w, e) then w
    else
      match e
      case Next => w.(step := NextStep(w.step))
      case Back => w.(step := BackStep(w.step))
      case Skip =>
        w.(mounted := false, effects := w.effects + [CompleteOnboarding(Skipped), Navigate("/")])
      case Finish =>
        w.(mounted := false, effects := w.effects + [CompleteOnboarding(Answers(w.form)), Navigate("/")])
      case Select(k, v) => w.(form := UpdateData(w.form, k, v))
      case Toggle(k, v) => w.(form := ToggleList(w.form, k, v))
  }

  /** A sequence of interactions, applied in order. */
  function Run(w: Wizard, es: seq<Event>): Wizard
    decreases |es|
  {
    if es == [] then w else Run(Apply(w, es[0]), es[1..])
  }

  /** Every answer is empty or one of the offered choices; no list repeats a choice. */
  ghost predicate FromCatalog(d: FormData) {
    && (forall k: SingleKey :: Single(d, k) == "" || Single(d, k) in Options(k))
    && (forall k: ListKey :: Distinct(List(d, k)))
    && (forall k: ListKey, x :: x in List(d, k) ==> x in ListOptions(k))
  }

  /** The page invariant: the step is in 1..6, every step before the current one has a valid
      answer, answers come from the catalogs, and `completeOnboarding` followed by a navigation
      to "/" has happened exactly when the page is no longer shown. */
  ghost predicate Inv(w: Wizard) {
    && 1 <= w.step <= 6
    && (forall s :: 1 <= s < w.step ==> IsStepValid(s, w.form))
    && FromCatalog(w.form)
    && (w.mounted <==> w.effects == [])
    && (!w.mounted ==> |w.effects| == 2 && w.effects[0].CompleteOnboarding? && w.effects[1] == Navigate("/"))
  }

  lemma StartInv()
    ensures Inv(START)
  {
  }

  /** Selecting an offered answer keeps the answers within the catalogs. */
  lemma UpdateFromCatalog(d: FormData, k: SingleKey, v: string)
    requires FromCatalog(d) && v in Options(k)
    ensures FromCatalog(UpdateData(d, k, v))
  {
  }

  /** Toggling an offered choice keeps the lists within the catalogs and free of repetitions. */
  lemma ToggleFromCatalog(d: FormData, k: ListKey, v: string)
    requires FromCatalog(d) && v in ListOptions(k)
    ensures FromCatalog(ToggleList(d, k, v))
  {
    ToggleKeepsDistinct(List(d, k), v);
  }

  /** Every interaction preserves the page invariant. */
  lemma ApplyPreservesInv(w: Wizard, e: Event)
    requires Inv(w)
    ensures Inv(Apply(w, e))
  {
    if Enabled(w, e) {
      var r := Apply(w, e);
      match e
      case Next =>
        forall s | 1 <= s < r.step ensures IsStepValid(s, r.form) {
          if s < w.step { assert IsStepValid(s, w.form); }
        }
      case Back =>
      case Skip =>
      case Finish =>
      case Select(k, v) =>
        UpdateFromCatalog(w.form, k, v);
        forall s | 1 <= s < r.step ensures IsStepValid(s, r.form) {
          UpdateKeepsOtherSteps(w.form, k, v, s);
        }
      case Toggle(k, v) =>
        ToggleFromCatalog(w.form, k, v);
        forall s | 1 <= s < r.step ensures IsStepValid(s, r.form) {
          ToggleKeepsOtherSteps(w.form, k, v, s);
        }
    }
  }

  /** Any sequence of interactions preserves the page invariant. */
  lemma {:induction false} RunPreservesInv(w: Wizard, es: seq<Event>)
    requires Inv(w)
    ensures Inv(Run(w, es))
    decreases |es|
  {
    if es != [] {
      ApplyPreservesInv(w, es[0]);
      RunPreservesInv(Apply(w, es[0]), es[1..]);
    }
  }

  /** In every state the page can reach, the step lies in 1..6 and each earlier step's gate holds. */
  lemma Reachable(es: seq<Event>)
    ensures Inv(Run(START, es))
    ensures var w := Run(START, es);
      1 <= w.step <= 6 && forall s :: 1 <= s < w.step ==> IsStepValid(s, w.form)
  {
    StartInv();
    RunPreservesInv(START, es);
  }

  /** Next is offered exactly when the current step's gate holds, before the completion screen. */
  lemma NextGate(w: Wizard)
    requires w.mounted
    ensures Enabled(w, Next) <==> w.step < 6 && IsStepValid(w.step, w.form)
    ensures Enabled(w, Next) ==> Apply(w, Next).step == NextStep(w.step)
  {
  }

  /** Finish hands over the accumulated answers unchanged, only from step 6, and by then every
      one of the five steps has a valid answer. */
  lemma FinishHandsOverAnswers(w: Wizard)
    requires Inv(w) && Enabled(w, Finish)
    ensures w.step == 6
    ensures Apply(w, Finish).effects == [CompleteOnboarding(Answers(w.form)), Navigate("/")]
    ensures forall s :: 1 <= s <= 5 ==> IsStepValid(s, w.form)
    ensures w.form.role != "" && w.form.education != "" && w.form.fields != [] && w.form.interests != []
    ensures w.form.goal != "" && w.form.pace != "" && w.form.dailyTime != ""
  {
    assert IsStepValid(1, w.form) && IsStepValid(2, w.form) && IsStepValid(3, w.form);
    assert IsStepValid(4, w.form) && IsStepValid(5, w.form);
  }

  /** Skip is offered only at step 1 and hands over exactly `{ skipped: true }`. */
  lemma SkipHandsOverSkipped(w: Wizard)
    requires Inv(w) && Enabled(w, Skip)
    ensures w.step == 1
    ensures Apply(w, Skip).effects == [CompleteOnboarding(Skipped), Navigate("/")]
    ensures !Apply(w, Skip).mounted
  {
  }

  /** Once the answers are handed over, the page is gone: nothing further happens. */
  lemma HandoverIsFinal(w: Wizard, es: seq<Event>)
    requires !w.mounted
    ensures Run(w, es) == w
    decreases |es|
  {
    if es != [] {
      HandoverIsFinal(Apply(w, es[0]), es[1..]);
    }
  }

  /** Back is offered only after step 1 and undoes the most recent Next. */
  lemma BackUndoesNext(w: Wizard)
    requires Inv(w) && Enabled(w, Next) && w.step < 5
    ensures Enabled(Apply(w, Next), Back)
    ensures Apply(Apply(w, Next), Back) == w
  {
  }

  /** Running two sequences of interactions one after the other is running their concatenation. */
  lemma {:induction false} RunConcat(w: Wizard, a: seq<Event>, b: seq<Event>)
    ensures Run(w, a + b) == Run(Run(w, a), b)
    decreases |a|
  {
    if a == [] {
      assert a + b == b;
    } else {
      assert (a + b)[0] == a[0];
      assert (a + b)[1..] == a[1..] + b;
      RunConcat(Apply(w, a[0]), a[1..], b);
    }
  }

  /** The answers of the happy path, as they accumulate screen by screen. */
  const HAPPY_1 := EMPTY_FORM.(role := "Student")
  const HAPPY_2 := HAPPY_1.(education := "Undergraduate", fields := ["IT / Computer Science"])
  const HAPPY_3 := HAPPY_2.(interests := ["Problem Solving"])
  const HAPPY_4 := HAPPY_3.(goal := "Build strong fundamentals")
  const HAPPY_5 := HAPPY_4.(pace := "Balanced", dailyTime := "1 hour")

  /** The interactions of the happy path, screen by screen. */
  const SCREEN_1 := [Select(Role, "Student"), Next]
  const SCREEN_2 := [Select(Education, "Undergraduate"), Toggle(Fields, "IT / Computer Science"), Next]
  const SCREEN_3 := [Toggle(Interests, "Problem Solving"), Next]
  const SCREEN_4 := [Select(Goal, "Build strong fundamentals"), Next]
  const SCREEN_5 := [Select(Pace, "Balanced"), Select(DailyTime, "1 hour"), Next]

  lemma HappyScreen1()
    ensures Run(START, SCREEN_1) == Wizard(2, HAPPY_1, true, [])
  {
    var w1 := Apply(START, Select(Role, "Student"));
    assert w1 == START.(form := HAPPY_1);
    RunHead(START, SCREEN_1, 0);
    RunHead(w1, SCREEN_1, 1);
  }

  lemma HappyScreen2()
    ensures Run(Wizard(2, HAPPY_1, true, []), SCREEN_2) == Wizard(3, HAPPY_2, true, [])
  {
    var es := SCREEN_2;
    var w0 := Wizard(2, HAPPY_1, true, []);
    assert "Undergraduate" == Options(Education)[1];
    var w1 := Apply(w0, es[0]);
    assert w1 == w0.(form := HAPPY_1.(education := "Undergraduate"));
    assert "IT / Computer Science" == ListOptions(Fields)[0];
    var w2 := Apply(w1, es[1]);
    assert w2 == w0.(form := HAPPY_2);
    RunHead(w0, es, 0);
    RunHead(w1, es, 1);
    RunHead(w2, es, 2);
  }

  lemma HappyScreen3()
    ensures Run(Wizard(3, HAPPY_2, true, []), SCREEN_3) == Wizard(4, HAPPY_3, true, [])
  {
    var es := SCREEN_3;
    var w0 := Wizard(3, HAPPY_2, true, []);
    assert "Problem Solving" == ListOptions(Interests)[4];
    var w1 := Apply(w0, es[0]);
    assert w1 == w0.(form := HAPPY_3);
    RunHead(w0, es, 0);
    RunHead(w1, es, 1);
  }

  lemma HappyScreen4()
    ensures Run(Wizard(4, HAPPY_3, true, []), SCREEN_4) == Wizard(5, HAPPY_4, true, [])
  {
    var es := SCREEN_4;
    var w0 := Wizard(4, HAPPY_3, true, []);
    var w1 := Apply(w0, es[0]);
    assert w1 == w0.(form := HAPPY_4);
    RunHead(w0, es, 0);
    RunHead(w1, es, 1);
  }

  lemma HappyScreen5()
    ensures Run(Wizard(5, HAPPY_4, true, []), SCREEN_5) == Wizard(6, HAPPY_5, true, [])
  {
    var es := SCREEN_5;
    var w0 := Wizard(5, HAPPY_4, true, []);
    assert "Balanced" == Options(Pace)[1];
    var w1 := Apply(w0, es[0]);
    assert w1 == w0.(form := HAPPY_4.(pace := "Balanced"));
    assert Options(DailyTime)[1] == "1 hour";
    var w2 := Apply(w1, es[1]);
    assert w2 == w0.(form := HAPPY_5);
    RunHead(w0, es, 0);
    RunHead(w1, es, 1);
    RunHead(w2, es, 2);
  }

  /** The answers the happy path collects, field by field. */
  lemma HappyAnswers()
    ensures HAPPY_5 == FormData("Student", "Undergraduate", ["IT / Computer Science"],
      ["Problem Solving"], "Build strong fundamentals", "Balanced", "1 hour")
  {
  }

  /** The full happy path: one answer per question, Next after each screen, then Finish hands
      over exactly the answers given (`HappyAnswers` spells them out). */
  lemma HappyPath()
    ensures Run(START, SCREEN_1 + SCREEN_2 + SCREEN_3 + SCREEN_4 + SCREEN_5 + [Finish]).effects
      == [CompleteOnboarding(Answers(HAPPY_5)), Navigate("/")]
  {
    HappyScreen1();
    HappyScreen2();
    HappyScreen3();
    HappyScreen4();
    HappyScreen5();
    RunConcat(START, SCREEN_1 + SCREEN_2 + SCREEN_3 + SCREEN_4 + SCREEN_5, [Finish]);
    RunConcat(START, SCREEN_1 + SCREEN_2 + SCREEN_3 + SCREEN_4, SCREEN_5);
    RunConcat(START, SCREEN_1 + SCREEN_2 + SCREEN_3, SCREEN_4);
    RunConcat(START, SCREEN_1 + SCREEN_2, SCREEN_3);
    RunConcat(START, SCREEN_1, SCREEN_2);
    assert [Finish][1..] == [];
  }

  /** Running the interactions from index `i` on is applying interaction `i`, then running the rest. */
  lemma RunHead(w: Wizard, es: seq<Event>, i: int)
    requires 0 <= i < |es|
    ensures Run(w, es[i..]) == Run(Apply(w, es[i]), es[i + 1..])
  {
    assert es[i..][0] == es[i];
    assert es[i..][1..] == es[i + 1..];
  }

  /** Choosing an interest twice removes it again; two different interests keep their order. */
  lemma InterestToggleExamples(w: Wizard)
    requires w.mounted && w.step == 3 && w.form.interests == []
    ensures Run(w, [Toggle(Interests, "AI & Technology"), Toggle(Interests, "AI & Technology")]).form.interests == []
    ensures Run(w, [Toggle(Interests, "AI & Technology"), Toggle(Interests, "Economics")]).form.interests
      == ["AI & Technology", "Economics"]
  {
  }

  /** The progress bar: `[1, 2, 3, 4, 5].map(s => s <= step)`, true for a filled marker. */
  function ProgressMarkers(step: int): (r: seq<bool>)
    ensures |r| == 5
  {
    seq(5, i => i + 1 <= step)
  }

  /** The number of filled markers. */
  function CountFilled(bar: seq<bool>): nat {
    if bar == [] then 0 else (if bar[0] then 1 else 0) + CountFilled(bar[1..])
  }

  /** Filled markers are a prefix of the bar whose length is the current step. */
  lemma ProgressShowsStep(step: int)
    requires 1 <= step <= 5
    ensures forall i :: 0 <= i < 5 ==> (ProgressMarkers(step)[i] <==> i < step)
    ensures CountFilled(ProgressMarkers(step)) == step
  {
    CountFilledPrefix(ProgressMarkers(step), step);
  }

  /** A bar whose markers are filled exactly before index `n` has `n` filled markers. */
  lemma {:induction false} CountFilledPrefix(bar: seq<bool>, n: int)
    requires 0 <= n <= |bar|
    requires forall i :: 0 <= i < |bar| ==> (bar[i] <==> i < n)
    ensures CountFilled(bar) == n
  {
    if bar != [] {
      CountFilledPrefix(bar[1..], if n > 0 then n - 1 else 0);
    }
  }

  /** The `title` each step's `StepContainer` is given (for steps 1 to 5). */
  function StepTitle(step: int): string
    requires 1 <= step <= 5
  {
    match step
    case 1 => "What best describes you?"
    case 2 => "Academic & Background"
    case 3 => "What are you curious about?"
    case 4 => "What is your primary goal?"
    case 5 => "Learning Preferences"
  }

  /** The number in the "Step N of 5" label, derived from the title's text. */
  function StepLabel(title: string): (r: int)
    ensures 1 <= r <= 5
  {
    if Contains(title, "Preference") then 5
    else if Contains(title, "goal") then 4
    else if Contains(title, "curious") then 3
    else if Contains(title, "Academic") then 2
    else 1
  }

  /** "Preference" occurs in the title of step 5 only. */
  lemma PreferenceKeyword(step: int)
    requires 1 <= step <= 5
    ensures Contains(StepTitle(step), "Preference") <==> step == 5
  {
    if step == 5 {
      ContainsAt("Learning Preferences", "Preference", 9);
    } else {
      NotContainsByChar(StepTitle(step), "Preference", 0);
    }
  }

  /** Among the titles of steps 1 to 4, "goal" occurs in that of step 4 only. */
  lemma GoalKeyword(step: int)
    requires 1 <= step <= 4
    ensures Contains(StepTitle(step), "goal") <==> step == 4
  {
    if step == 4 {
      ContainsAt("What is your primary goal?", "goal", 21);
    } else if step == 2 {
      NotContainsByChar(StepTitle(step), "goal", 3);
    } else {
      NotContainsByChar(StepTitle(step), "goal", 0);
    }
  }

  /** Among the titles of steps 1 to 3, "curious" occurs in that of step 3 only. */
  lemma CuriousKeyword(step: int)
    requires 1 <= step <= 3
    ensures Contains(StepTitle(step), "curious") <==> step == 3
  {
    var t := StepTitle(step);
    if step == 3 {
      ContainsAt("What are you curious about?", "curious", 13);
    } else if step == 2 {
      NotContainsByChar(t, "curious", 6);
    } else {
      assert t[13..][..7][1] == 'r';
      NotContainsAt(t, "curious", 13);
    }
  }

  /** Of the titles of steps 1 and 2, "Academic" occurs in that of step 2 only. */
  lemma AcademicKeyword(step: int)
    requires 1 <= step <= 2
    ensures Contains(StepTitle(step), "Academic") <==> step == 2
  {
    if step == 2 {
      ContainsAt("Academic & Background", "Academic", 0);
    } else {
      NotContainsByChar(StepTitle(step), "Academic", 0);
    }
  }

  /** For each of the five screens, the derived label is the screen's own step number. */
  lemma StepLabelMatchesStep(step: int)
    requires 1 <= step <= 5
    ensures StepLabel(StepTitle(step)) == step
  {
    PreferenceKeyword(step);
    if step <= 4 { GoalKeyword(step); }
    if step <= 3 { CuriousKeyword(step); }
    if step <= 2 { AcademicKeyword(step); }
  }

  /** The page's state cells and their event handlers. Each method is one interaction: it
      returns whether the page offered it and then does what the source's handler does. */
  class OnboardingPage {
    var step: int
    var formData: FormData
    var mounted: bool
    var effects: seq<Effect>

    /** The page's state as a value. */
    function State(): Wizard
      reads this
    {
      Wizard(step, formData, mounted, effects)
    }

    ghost predicate Valid()
      reads this
    {
      Inv(State())
    }

    constructor ()
      ensures Valid() && State() == START
    {
      step := 1;
      formData := EMPTY_FORM;
      mounted := true;
      effects := [];
    }

    /** The Next button: `handleNext`, offered only while `isStepValid()` holds. */
    method HandleNext() returns (fired: bool)
      requires Valid()
      modifies this
      ensures Valid()
      ensures fired == Enabled(old(State()), Next)
      ensures State() == Apply(old(State()), Next)
    {
      ghost var before := State();
      ApplyPreservesInv(before, Next);
      fired := mounted && step < 6 && IsStepValid(step, formData);
      if fired {
        if step < 5 {
          step := step + 1;
        } else {
          step := 6;
        }
      }
    }

    /** The Back button: `handleBack`, shown only after step 1. */
    method HandleBack() returns (fired: bool)
      requires Valid()
      modifies this
      ensures Valid()
      ensures fired == Enabled(old(State()), Back)
      ensures State() == Apply(old(State()), Back)
    {
      ghost var before := State();
      ApplyPreservesInv(before, Back);
      fired := mounted && step < 6 && step > 1;
      if fired {
        if step > 1 {
          step := step - 1;
        }
      }
    }

    /** The "Skip to workspace" button: `handleSkip`, shown only at step 1. */
    method HandleSkip() returns (fired: bool)
      requires Valid()
      modifies this
      ensures Valid()
      ensures fired == Enabled(old(State()), Skip)
      ensures State() == Apply(old(State()), Skip)
    {
      ghost var before := State();
      ApplyPreservesInv(before, Skip);
      fired := mounted && step < 6 && step == 1;
      if fired {
        effects := effects + [CompleteOnboarding(Skipped)];
        effects := effects + [Navigate("/")];
        mounted := false;
      }
    }

    /** The "Enter Workspace" button: `handleFinish`, shown only at step 6. */
    method HandleFinish() returns (fired: bool)
      requires Valid()
      modifies this
      ensures Valid()
      ensures fired == Enabled(old(State()), Finish)
      ensures State() == Apply(old(State()), Finish)
    {
      ghost var before := State();
      ApplyPreservesInv(before, Finish);
      fired := mounted && step == 6;
      if fired {
        effects := effects + [CompleteOnboarding(Answers(formData))];
        effects := effects + [Navigate("/")];
        mounted := false;
      }
    }

    /** A single-select card: `updateData(key, value)`, shown only on the key's step. */
    method SelectOption(k: SingleKey, v: string) returns (fired: bool)
      requires Valid()
      modifies this
      ensures Valid()
      ensures fired == Enabled(old(State()), Select(k, v))
      ensures State() == Apply(old(State()), Select(k, v))
    {
      ghost var before := State();
      ApplyPreservesInv(before, Select(k, v));
      fired := mounted && step == StepOf(k) && v in Options(k);
      if fired {
        formData := UpdateData(formData, k, v);
      }
    }

    /** A multi-select card or chip: `toggleList(key, value)`, shown only on the key's step. */
    method ToggleOption(k: ListKey, v: string) returns (fired: bool)
      requires Valid()
      modifies this
      ensures Valid()
      ensures fired == Enabled(old(State()), Toggle(k, v))
      ensures State() == Apply(old(State()), Toggle(k, v))
    {
      ghost var before := State();
      ApplyPreservesInv(before, Toggle(k, v));
      fired := mounted && step == ListStepOf(k) && v in ListOptions(k);
      if fired {
        formData := ToggleList(formData, k, v);
      }
    }
  }
}
