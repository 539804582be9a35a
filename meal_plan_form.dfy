/**
 * The three-step preferences form (src/components/MealPlanForm.tsx): its `formData` and
 * `step` state, the setters its controls call, the allergy toggle, the calorie-input
 * fallback and the progress indicator.
 */
module MealPlanForm {
  import Js
  import opened Wrappers

  datatype FormData = FormData(
    country: string,
    dietaryPreference: string,
    healthGoal: string,
    budget: string,
    allergies: seq<string>,
    mealsPerDay: int,
    calorieTarget: int)

  const Countries: seq<string> := [
    "India", "USA", "UK", "Mexico", "Italy", "Japan", "China", "Thailand",
    "France", "Germany", "Spain", "Brazil", "Australia", "Canada",
    "South Korea", "Vietnam", "Greece", "Turkey", "Indonesia", "Pakistan"]
  const DietaryPreferences: seq<string> := ["vegetarian", "vegan", "non-vegetarian", "pescatarian", "keto", "paleo"]
  const HealthGoals: seq<string> := ["weight_loss", "muscle_gain", "maintenance", "energy_boost", "heart_health", "diabetes_friendly"]
  const BudgetOptions: seq<string> := ["low", "medium", "high"]
  const CommonAllergies: seq<string> := ["Nuts", "Dairy", "Gluten", "Eggs", "Soy", "Shellfish", "Fish", "Sesame"]
  const MealsPerDayOptions: seq<int> := [3, 4, 5, 6]

  /** The value the calorie input falls back to. */
  const DefaultCalories: int := 2000

  const InitialFormData: FormData :=
    FormData("India", "vegetarian", "maintenance", "medium", [], 4, DefaultCalories)

  // ------------------------------------------------------------ allergies

  /** `allergies.filter(x => x !== a)`. */
  function Remove(xs: seq<string>, a: string): (r: seq<string>)
    ensures |r| <= |xs|
    ensures forall x :: x in r <==> x in xs && x != a
  {
    if xs == [] then [] else (if xs[0] == a then [] else [xs[0]]) + Remove(xs[1..], a)
  }

  /**
   * The updater `toggleAllergy` passes to `setFormData`, on the allergy list: `a` flips
   * between selected and not, every other allergy stays as it was, and a new one goes last.
   */
  function Toggle(allergies: seq<string>, a: string): (r: seq<string>)
    ensures a in r <==> a !in allergies
    ensures forall x :: x != a ==> (x in r <==> x in allergies)
    ensures a !in allergies ==> r == allergies + [a]
  {
    if a in allergies then Remove(allergies, a) else allergies + [a]
  }

  predicate NoDuplicates(xs: seq<string>) {
    forall x :: x in xs ==> multiset(xs)[x] <= 1
  }

  /** Filtering drops every occurrence of `a` and keeps every other entry as often as it was there. */
  lemma {:induction false} RemoveCounts(xs: seq<string>, a: string)
    ensures multiset(Remove(xs, a)) == multiset(xs)[a := 0]
    ensures a !in Remove(xs, a)
  {
    if xs != [] {
      RemoveCounts(xs[1..], a);
      assert xs == [xs[0]] + xs[1..];
      assert multiset(xs) == multiset{xs[0]} + multiset(xs[1..]);
    }
  }

  /** Filtering works entry by entry, so the kept entries stay in their original order. */
  lemma {:induction false} RemoveDistributes(xs: seq<string>, ys: seq<string>, a: string)
    ensures Remove(xs + ys, a) == Remove(xs, a) + Remove(ys, a)
  {
    if xs == [] {
      assert xs + ys == ys;
    } else {
      assert (xs + ys)[1..] == xs[1..] + ys;
      RemoveDistributes(xs[1..], ys, a);
    }
  }

  /** Filtering out an absent entry changes nothing. */
  lemma {:induction false} RemoveAbsent(xs: seq<string>, a: string)
    requires a !in xs
    ensures Remove(xs, a) == xs
  {
    if xs != [] {
      assert a !in xs[1..];
      RemoveAbsent(xs[1..], a);
    }
  }

  /** Toggling a present allergy removes all of its occurrences and keeps the rest in order. */
  lemma ToggleRemovesPresent(xs: seq<string>, a: string)
    requires a in xs
    ensures a !in Toggle(xs, a)
    ensures forall x :: x != a ==> multiset(Toggle(xs, a))[x] == multiset(xs)[x]
    ensures forall i :: 0 <= i <= |xs| ==> Toggle(xs, a) == Remove(xs[..i], a) + Remove(xs[i..], a)
  {
    RemoveCounts(xs, a);
    forall i | 0 <= i <= |xs| ensures Toggle(xs, a) == Remove(xs[..i], a) + Remove(xs[i..], a) {
      assert xs == xs[..i] + xs[i..];
      RemoveDistributes(xs[..i], xs[i..], a);
    }
  }

  /** Toggling an absent allergy twice restores the list exactly. */
  lemma ToggleTwiceRestores(xs: seq<string>, a: string)
    requires a !in xs
    ensures Toggle(Toggle(xs, a), a) == xs
  {
    assert a in xs + [a];
    RemoveDistributes(xs, [a], a);
    RemoveAbsent(xs, a);
  }

  /** A list without duplicates keeps none after a toggle. */
  lemma ToggleKeepsNoDuplicates(xs: seq<string>, a: string)
    requires NoDuplicates(xs)
    ensures NoDuplicates(Toggle(xs, a))
  {
    if a in xs {
      RemoveCounts(xs, a);
    } else {
      assert multiset(xs + [a]) == multiset(xs) + multiset{a};
    }
  }

  // -------------------------------------------------------------- calories

  /** `parseInt(value) || 2000`: NaN and 0 both fall back to the default. */
  function CalorieInput(value: string): (n: int)
    ensures n != 0
    ensures Js.ParseInt(value).Some? && Js.ParseInt(value).value != 0 ==> n == Js.ParseInt(value).value
    ensures Js.ParseInt(value).None? || Js.ParseInt(value) == Some(0) ==> n == DefaultCalories
  {
    match Js.ParseInt(value)
    case Some(n) => if n != 0 then n else DefaultCalories
    case None => DefaultCalories
  }

  /** A typed positive number is taken as it is. */
  lemma CalorieInputReadsNumber(n: nat)
    requires n > 0
    ensures CalorieInput(Js.Decimal(n)) == n
  {
    Js.ParseIntDecimal(n);
  }

  /** A cleared input and a typed 0 both give 2000. */
  lemma CalorieInputDefaults()
    ensures CalorieInput("") == DefaultCalories
    ensures CalorieInput("0") == DefaultCalories
  {
    Js.ParseIntDecimal(0);
    assert Js.Decimal(0) == "0";
  }

  // -------------------------------------------------------------- progress

  datatype Phase = Done | Current | Upcoming

  /** `s === step ? current : s < step ? done : upcoming`. */
  function Indicator(s: int, step: int): (p: Phase)
    ensures p == Current <==> s == step
    ensures p == Done <==> s < step
    ensures p == Upcoming <==> s > step
  {
    if s == step then Current else if s < step then Done else Upcoming
  }

  /** `[1, 2, 3].map(...)`. */
  function Indicators(step: int): seq<Phase> {
    [Indicator(1, step), Indicator(2, step), Indicator(3, step)]
  }

  /** On every step exactly one indicator is current, the earlier ones are done and the later upcoming. */
  lemma IndicatorsAgreeWithStep(step: int)
    requires 1 <= step <= 3
    ensures |Indicators(step)| == 3
    ensures forall i :: 0 <= i < 3 ==> (Indicators(step)[i] == Current <==> i == step - 1)
    ensures forall i :: 0 <= i < 3 ==> (Indicators(step)[i] == Done <==> i < step - 1)
    ensures forall i :: 0 <= i < 3 ==> (Indicators(step)[i] == Upcoming <==> i > step - 1)
  {
  }

  // ----------------------------------------------------------------- steps

  /** The wizard's navigation buttons: "Next" on step 1, "Back" and "Next" on step 2, "Back" on step 3. */
  datatype StepButton = ToGoals | BackToCountry | ToDetails | BackToGoals

  /** The step whose panel renders the button. */
  function Panel(b: StepButton): int {
    match b
    case ToGoals => 1
    case BackToCountry => 2
    case ToDetails => 2
    case BackToGoals => 3
  }

  /** The constant the button passes to `setStep`. */
  function Target(b: StepButton): int {
    match b
    case ToGoals => 2
    case BackToCountry => 1
    case ToDetails => 3
    case BackToGoals => 2
  }

  /** The only moves are 1 -> 2, 2 -> 1, 2 -> 3 and 3 -> 2. */
  lemma StepMoves(b: StepButton)
    ensures (Panel(b), Target(b)) in {(1, 2), (2, 1), (2, 3), (3, 2)}
    ensures 1 <= Target(b) <= 3
  {
  }

  /** Every value a control can put into the form is one of its options. */
  predicate WellFormed(d: FormData) {
    d.country in Countries && d.dietaryPreference in DietaryPreferences &&
    d.healthGoal in HealthGoals && d.budget in BudgetOptions &&
    (forall x :: x in d.allergies ==> x in CommonAllergies) && NoDuplicates(d.allergies) &&
    d.mealsPerDay in MealsPerDayOptions && d.calorieTarget != 0
  }

  class MealPlanForm {
    var formData: FormData
    var step: int

    ghost predicate Valid()
      reads this
    {
      1 <= step <= 3 && WellFormed(formData)
    }

    /** `useState` for `formData` and `useState(1)` for `step`. */
    constructor ()
      ensures Valid()
      ensures formData == InitialFormData && formData.allergies == [] && step == 1
    {
      formData := InitialFormData;
      step := 1;
      assert NoDuplicates([]);
    }

    /** A navigation button: it exists only on its own panel and sets the step it names. */
    method Click(b: StepButton)
      requires Valid() && Panel(b) == step
      modifies this
      ensures Valid()
      ensures step == Target(b) && formData == old(formData)
    {
      step := Target(b);
    }

    method ToggleAllergy(a: string)
      requires Valid() && a in CommonAllergies
      modifies this
      ensures Valid()
      ensures formData == old(formData).(allergies := Toggle(old(formData).allergies, a)) && step == old(step)
    {
      var prev := formData;
      ToggleKeepsNoDuplicates(prev.allergies, a);
      if a in prev.allergies {
        RemoveCounts(prev.allergies, a);
        assert forall x :: x in Remove(prev.allergies, a) ==> x in prev.allergies by {
          forall x | x in Remove(prev.allergies, a) ensures x in prev.allergies {
            assert multiset(Remove(prev.allergies, a))[x] > 0;
          }
        }
      }
      formData := prev.(allergies := Toggle(prev.allergies, a));
    }

    /** The calorie input's `onChange` with the input's text. */
    method SetCalorieTarget(value: string)
      requires Valid()
      modifies this
      ensures Valid()
      ensures formData == old(formData).(calorieTarget := CalorieInput(value)) && step == old(step)
    {
      formData := formData.(calorieTarget := CalorieInput(value));
    }

    /** The meals-per-day select: `parseInt` of the chosen option's text. */
    method SetMealsPerDay(option: int)
      requires Valid() && option in MealsPerDayOptions
      modifies this
      ensures Valid()
      ensures formData == old(formData).(mealsPerDay := option) && step == old(step)
    {
      Js.ParseIntDecimal(option);
      var parsed := Js.ParseInt(Js.Decimal(option));
      formData := formData.(mealsPerDay := parsed.value);
    }

    method SetCountry(country: string)
      requires Valid() && country in Countries
      modifies this
      ensures Valid()
      ensures formData == old(formData).(country := country) && step == old(step)
    {
      formData := formData.(country := country);
    }

    method SetDietaryPreference(preference: string)
      requires Valid() && preference in DietaryPreferences
      modifies this
      ensures Valid()
      ensures formData == old(formData).(dietaryPreference := preference) && step == old(step)
    {
      formData := formData.(dietaryPreference := preference);
    }

    method SetHealthGoal(goal: string)
      requires Valid() && goal in HealthGoals
      modifies this
      ensures Valid()
      ensures formData == old(formData).(healthGoal := goal) && step == old(step)
    {
      formData := formData.(healthGoal := goal);
    }

    method SetBudget(budget: string)
      requires Valid() && budget in BudgetOptions
      modifies this
      ensures Valid()
      ensures formData == old(formData).(budget := budget) && step == old(step)
    {
      formData := formData.(budget := budget);
    }

    /** `handleSubmit`: hands the form data to `onGenerate` as it is. */
    method Submit() returns (data: FormData)
      ensures data == formData
    {
      data := formData;
    }
  }
}
