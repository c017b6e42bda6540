/** The onboarding answer record (`formData` in src/pages/Onboarding.jsx), its two update
    primitives and the per-step validity gate. */
module OnboardingForm {
  import opened Sequences

  /** Five single-select answers and two multi-select lists. */
  datatype FormData = FormData(
    role: string,
    education: string,
    fields: seq<string>,
    interests: seq<string>,
    goal: string,
    pace: string,
    dailyTime: string)

  /** The keys `updateData` is called with. */
  datatype SingleKey = Role | Education | Goal | Pace | DailyTime

  /** The keys `toggleList` is called with. */
  datatype ListKey = Fields | Interests

  /** The record the wizard starts with: every answer empty. */
  const EMPTY_FORM := FormData("", "", [], [], "", "", "")

  /** `formData[key]` for a single-select key. */
  function Single(d: FormData, k: SingleKey): string {
    match k
    case Role => d.role
    case Education => d.education
    case Goal => d.goal
    case Pace => d.pace
    case DailyTime => d.dailyTime
  }

  /** `formData[key]` for a multi-select key. */
  function List(d: FormData, k: ListKey): seq<string> {
    match k
    case Fields => d.fields
    case Interests => d.interests
  }

  /** `updateData(key, value)`: `{ ...prev, [key]: value }`. */
  function UpdateData(d: FormData, k: SingleKey, v: string): (r: FormData)
    ensures Single(r, k) == v
    ensures forall k' :: k' != k ==> Single(r, k') == Single(d, k')
    ensures forall k' :: List(r, k') == List(d, k')
  {
    match k
    case Role => d.(role := v)
    case Education => d.(education := v)
    case Goal => d.(goal := v)
    case Pace => d.(pace := v)
    case DailyTime => d.(dailyTime := v)
  }

  /** Selecting the answer that is already selected keeps it selected: there is no toggle-off. */
  lemma SelectAgainKeepsSelection(d: FormData, k: SingleKey, v: string)
    ensures UpdateData(UpdateData(d, k, v), k, v) == UpdateData(d, k, v)
    ensures Single(d, k) == v ==> UpdateData(d, k, v) == d
  {
  }

  /** The filter callback `item => item !== value`. */
  function Differs(v: string): string -> bool {
    x => x != v
  }

  /** The list update of `toggleList`: drop every occurrence of a value that is present,
      append a value that is absent. */
  function Toggled(s: seq<string>, v: string): (r: seq<string>)
    ensures v in r <==> v !in s
    ensures forall x :: x != v ==> (x in r <==> x in s)
    ensures v in s ==> IsSubsequence(r, s) && |r| < |s|
    ensures v in s ==> forall x :: x != v ==> multiset(r)[x] == multiset(s)[x]
    ensures v !in s ==> |r| == |s| + 1 && r[..|s|] == s && r[|s|] == v
  {
    if v in s then
      FilterIsSubsequence(s, Differs(v));
      FilterCount(s, Differs(v), v);
      DropShortens(s, v);
      DropKeepsOthers(s, v);
      Filter(s, Differs(v))
    else
      s + [v]
  }

  /** Dropping `v` keeps every copy of every other value. */
  lemma DropKeepsOthers(s: seq<string>, v: string)
    ensures forall x :: x != v ==> multiset(Filter(s, Differs(v)))[x] == multiset(s)[x]
  {
    forall x | x != v ensures multiset(Filter(s, Differs(v)))[x] == multiset(s)[x] {
      FilterCount(s, Differs(v), x);
    }
  }

  /** Removing every copy of a present value makes the list strictly shorter. */
  lemma DropShortens(s: seq<string>, v: string)
    requires v in s
    ensures |Filter(s, Differs(v))| < |s|
  {
    FilterCount(s, Differs(v), v);
    var r := Filter(s, Differs(v));
    assert multiset(r)[v] == 0 < multiset(s)[v];
    assert multiset(r) <= multiset(s) by {
      forall x ensures multiset(r)[x] <= multiset(s)[x] { FilterCount(s, Differs(v), x); }
    }
    assert multiset(r) < multiset(s);
    assert |multiset(r)| < |multiset(s)|;
  }

  /** `toggleList(key, value)`: `{ ...prev, [key]: Toggled(prev[key], value) }`. */
  function ToggleList(d: FormData, k: ListKey, v: string): (r: FormData)
    ensures List(r, k) == Toggled(List(d, k), v)
    ensures forall k' :: k' != k ==> List(r, k') == List(d, k')
    ensures forall k' :: Single(r, k') == Single(d, k')
  {
    match k
    case Fields => d.(fields := Toggled(d.fields, v))
    case Interests => d.(interests := Toggled(d.interests, v))
  }

  /** Toggling an absent value twice gives back the original list. */
  lemma ToggleAbsentTwice(s: seq<string>, v: string)
    requires v !in s
    ensures Toggled(Toggled(s, v), v) == s
  {
    assert v in s + [v];
    FilterAppend(s, v, Differs(v));
    FilterKeepsAll(s, Differs(v));
  }

  /** Toggling keeps a list without repetitions. */
  lemma ToggleKeepsDistinct(s: seq<string>, v: string)
    requires Distinct(s)
    ensures Distinct(Toggled(s, v))
  {
    if v in s {
      FilterDistinct(s, Differs(v));
    } else {
      DistinctSnoc(s, v);
    }
  }

  /** Toggling a record field twice with an absent value restores the record. */
  lemma ToggleListAbsentTwice(d: FormData, k: ListKey, v: string)
    requires v !in List(d, k)
    ensures ToggleList(ToggleList(d, k, v), k, v) == d
  {
    ToggleAbsentTwice(List(d, k), v);
  }

  /** The answer choices offered for each single-select key. */
  function Options(k: SingleKey): seq<string> {
    match k
    case Role =>
      ["Student", "Working Professional", "Career Switcher", "Government Exam Aspirant", "Lifelong Learner"]
    case Education => ["School", "Undergraduate", "Postgraduate", "Self-learning"]
    case Goal =>
      ["Build strong fundamentals", "Prepare for future-ready skills", "Improve academic performance",
       "Explore domains before choosing a path", "Long-term career clarity"]
    case Pace => ["Slow & Deep", "Balanced", "Fast & Goal-Driven"]
    case DailyTime => ["30 mins", "1 hour", "2+ hours"]
  }

  /** The answer choices offered for each multi-select key. */
  function ListOptions(k: ListKey): seq<string> {
    match k
    case Fields =>
      ["IT / Computer Science", "Core Engineering", "Government & Policy", "Science & Research", "Other"]
    case Interests =>
      ["AI & Technology", "Core Engineering Concepts", "Public Policy & Governance", "Research & Innovation",
       "Problem Solving", "General Knowledge", "Economics", "History"]
  }

  /** Every offered choice is a non-empty string, and the catalogs have the sizes the screens show. */
  lemma OptionsNonEmpty(k: SingleKey, v: string)
    requires v in Options(k)
    ensures v != ""
    ensures |Options(k)| == match k
      case Role => 5 case Education => 4 case Goal => 5 case Pace => 3 case DailyTime => 3
  {
  }

  /** The wizard step on whose screen a single-select question is asked. */
  function StepOf(k: SingleKey): int {
    match k
    case Role => 1
    case Education => 2
    case Goal => 4
    case Pace => 5
    case DailyTime => 5
  }

  /** The wizard step on whose screen a multi-select question is asked. */
  function ListStepOf(k: ListKey): int {
    match k
    case Fields => 2
    case Interests => 3
  }

  /** `isStepValid()`: the gate on the Next button of `step`. */
  predicate IsStepValid(step: int, d: FormData)
    ensures d == EMPTY_FORM ==> (IsStepValid(step, d) <==> !(1 <= step <= 5))
  {
    match step
    case 1 => d.role != ""
    case 2 => d.education != "" && |d.fields| > 0
    case 3 => |d.interests| > 0
    case 4 => d.goal != ""
    case 5 => d.pace != "" && d.dailyTime != ""
    case _ => true
  }

  /** Every question asked on the screen of `step` has been answered. */
  predicate Answered(step: int, d: FormData) {
    && (forall k: SingleKey :: StepOf(k) == step ==> Single(d, k) != "")
    && (forall k: ListKey :: ListStepOf(k) == step ==> List(d, k) != [])
  }

  /** The gate of each step holds exactly when every question of that step is answered. */
  lemma StepValidIffAnswered(step: int, d: FormData)
    ensures IsStepValid(step, d) <==> Answered(step, d)
  {
    if IsStepValid(step, d) {
      forall k: SingleKey | StepOf(k) == step ensures Single(d, k) != "" {
        match k
        case Role =>
        case Education =>
        case Goal =>
        case Pace =>
        case DailyTime =>
      }
      forall k: ListKey | ListStepOf(k) == step ensures List(d, k) != [] {
        match k
        case Fields =>
        case Interests =>
      }
    } else {
      if step == 1 { assert Single(d, Role) == ""; }
      else if step == 2 {
        if d.education == "" { assert Single(d, Education) == ""; } else { assert List(d, Fields) == []; }
      }
      else if step == 3 { assert List(d, Interests) == []; }
      else if step == 4 { assert Single(d, Goal) == ""; }
      else if d.pace == "" { assert Single(d, Pace) == ""; }
      else { assert Single(d, DailyTime) == ""; }
    }
  }

  /** Changing an answer cannot affect the gate of any other step. */
  lemma UpdateKeepsOtherSteps(d: FormData, k: SingleKey, v: string, step: int)
    requires step != StepOf(k)
    ensures IsStepValid(step, UpdateData(d, k, v)) == IsStepValid(step, d)
  {
    StepValidIffAnswered(step, d);
    StepValidIffAnswered(step, UpdateData(d, k, v));
  }

  /** Toggling a choice cannot affect the gate of any other step. */
  lemma ToggleKeepsOtherSteps(d: FormData, k: ListKey, v: string, step: int)
    requires step != ListStepOf(k)
    ensures IsStepValid(step, ToggleList(d, k, v)) == IsStepValid(step, d)
  {
    StepValidIffAnswered(step, d);
    StepValidIffAnswered(step, ToggleList(d, k, v));
  }
}
