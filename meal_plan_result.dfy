/**
 * The generated-plan view (src/components/MealPlanResult.tsx): the `selectedDayIndex`,
 * `selectedMeal` and `activeTab` state with its click handlers, and the pure expressions
 * the view is built from (the present-meals filter, the day and category labels, the
 * meal-type badge and icon).
 */
module MealPlanResult {
  import Js
  import opened Wrappers

  datatype Meal = Meal(
    name: string,
    description: string,
    calories: int,
    protein: int,
    carbs: int,
    fats: int,
    prepTime: string,
    ingredients: seq<string>,
    instructions: seq<string>)

  /** One entry of `Object.entries(day.meals)`: a meal-type key whose meal may be absent. */
  datatype Slot = Slot(mealType: string, meal: Option<Meal>)

  /** A day of the plan; both fields may be missing from the generated data. */
  datatype DayPlan = DayPlan(dayName: Option<string>, meals: Option<seq<Slot>>)

  /** One key of `data.mealPlan`, in `Object.keys` order, with the value stored under it. */
  datatype DayEntry = DayEntry(key: string, day: Option<DayPlan>)

  /** One entry of `Object.entries(data.groceryList)`. */
  datatype Category = Category(key: string, items: Option<seq<string>>)

  /** The `{ type, meal }` pair a meal card puts into `selectedMeal`. */
  datatype Choice = Choice(mealType: string, meal: Meal)

  datatype Tab = PlanTab | GroceryTab | MacrosTab

  // ----------------------------------------------------------------- meals

  /** What one slot contributes to the filter: its meal when present, nothing otherwise. */
  function Listed(s: Slot): seq<Choice> {
    if s.meal.Some? then [Choice(s.mealType, s.meal.value)] else []
  }

  /** `Object.entries(meals).filter(([_, meal]) => meal)`. */
  function PresentMeals(slots: seq<Slot>): (r: seq<Choice>)
    ensures |r| <= |slots|
    ensures r == [] <==> forall j :: 0 <= j < |slots| ==> slots[j].meal.None?
  {
    if slots == [] then [] else Listed(slots[0]) + PresentMeals(slots[1..])
  }

  /** The `meals` list of a day: empty when the day or its meals are missing. */
  function MealsOf(day: Option<DayPlan>): (r: seq<Choice>)
    ensures day.None? || day.value.meals.None? ==> r == []
    ensures day.Some? && day.value.meals.Some? ==> r == PresentMeals(day.value.meals.value)
  {
    match day
    case None => []
    case Some(d) => if d.meals.Some? then PresentMeals(d.meals.value) else []
  }

  /** A meal is listed exactly when its slot is present. */
  lemma {:induction false} PresentMealMember(slots: seq<Slot>, t: string, m: Meal)
    ensures Choice(t, m) in PresentMeals(slots) <==> Slot(t, Some(m)) in slots
  {
    if slots != [] {
      PresentMealMember(slots[1..], t, m);
      assert slots == [slots[0]] + slots[1..];
    }
  }

  /** The filter works slot by slot, so the listed meals keep the slots' order. */
  lemma {:induction false} PresentMealsAppend(xs: seq<Slot>, ys: seq<Slot>)
    ensures PresentMeals(xs + ys) == PresentMeals(xs) + PresentMeals(ys)
  {
    if xs == [] {
      assert xs + ys == ys;
    } else {
      var zs := xs + ys;
      assert zs[0] == xs[0] && zs[1..] == xs[1..] + ys;
      PresentMealsAppend(xs[1..], ys);
      calc {
        PresentMeals(zs);
        Listed(xs[0]) + PresentMeals(xs[1..] + ys);
        Listed(xs[0]) + (PresentMeals(xs[1..]) + PresentMeals(ys));
        (Listed(xs[0]) + PresentMeals(xs[1..])) + PresentMeals(ys);
      }
    }
  }

  /** An absent slot contributes nothing and a present one contributes exactly itself. */
  lemma PresentMealsOne(s: Slot)
    ensures s.meal.None? ==> PresentMeals([s]) == []
    ensures s.meal.Some? ==> PresentMeals([s]) == [Choice(s.mealType, s.meal.value)]
  {
    assert [s][1..] == [];
  }

  // ---------------------------------------------------------------- labels

  predicate IsUpper(c: char) {
    'A' <= c <= 'Z'
  }

  /** The only white space in `s`, if any, is the plain space. */
  predicate SpacesOnly(s: string) {
    forall i :: 0 <= i < |s| && Js.IsWhiteSpace(s[i]) ==> s[i] == ' '
  }

  /** What the replacement makes of one character. */
  function Spaced(c: char): string {
    if IsUpper(c) then [' ', c] else [c]
  }

  /** `s.replace(/([A-Z])/g, ' $1')`: a space in front of every upper-case letter. */
  function InsertSpaces(s: string): (r: string)
    ensures SpacesOnly(s) ==> SpacesOnly(r)
    ensures forall i :: 0 <= i < |r| && IsUpper(r[i]) ==> 0 < i && r[i - 1] == ' '
  {
    if s == [] then []
    else
      var head := Spaced(s[0]);
      var tail := InsertSpaces(s[1..]);
      assert SpacesOnly(s) ==> SpacesOnly(s[1..]) by {
        if SpacesOnly(s) {
          forall i | 0 <= i < |s[1..]| && Js.IsWhiteSpace(s[1..][i]) ensures s[1..][i] == ' ' {
            assert s[1..][i] == s[i + 1];
          }
        }
      }
      assert forall i :: |head| <= i < |head + tail| ==> (head + tail)[i] == tail[i - |head|];
      head + tail
  }

  /**
   * The grocery category heading: `key.replace(/([A-Z])/g, ' $1').trim()`. For a key
   * without white space that does not start with a capital, `trim` has nothing to remove.
   */
  function CategoryLabel(key: string): (r: string)
    ensures key != [] && Js.NoWhiteSpace(key) && !IsUpper(key[0]) ==> r == InsertSpaces(key)
  {
    SpacedKeyEnds(key);
    Js.Trim(InsertSpaces(key))
  }

  /** The spaced key starts with the key's first character and ends with its last one. */
  lemma SpacedKeyEnds(key: string)
    ensures key != [] && !IsUpper(key[0]) ==> InsertSpaces(key)[0] == key[0]
    ensures key != [] ==> |InsertSpaces(key)| > 0 && InsertSpaces(key)[|InsertSpaces(key)| - 1] == key[|key| - 1]
  {
    if key != [] {
      var n := |key|;
      assert key == key[..n - 1] + [key[n - 1]];
      InsertSpacesAppend(key[..n - 1], [key[n - 1]]);
      assert [key[n - 1]][1..] == [];
      assert InsertSpaces([key[n - 1]]) == Spaced(key[n - 1]);
    }
  }

  /** What deleting spaces keeps of one character. */
  function Kept(c: char): string {
    if c == ' ' then [] else [c]
  }

  /** `s` with every space deleted. */
  function Unspaced(s: string): string {
    if s == [] then [] else Kept(s[0]) + Unspaced(s[1..])
  }

  lemma {:induction false} UnspacedAppend(a: string, b: string)
    ensures Unspaced(a + b) == Unspaced(a) + Unspaced(b)
  {
    if a == [] {
      assert a + b == b;
    } else {
      assert (a + b)[1..] == a[1..] + b;
      UnspacedAppend(a[1..], b);
    }
  }

  lemma {:induction false} UnspacedOfSpaces(s: string)
    requires forall i :: 0 <= i < |s| ==> s[i] == ' '
    ensures Unspaced(s) == []
  {
    if s != [] {
      UnspacedOfSpaces(s[1..]);
    }
  }

  lemma {:induction false} UnspacedWithoutSpaces(s: string)
    requires ' ' !in s
    ensures Unspaced(s) == s
  {
    if s != [] {
      assert ' ' !in s[1..];
      UnspacedWithoutSpaces(s[1..]);
    }
  }

  lemma UnspacedSpaced(c: char)
    ensures Unspaced(Spaced(c)) == Kept(c)
  {
    if IsUpper(c) {
      assert Spaced(c) == [' '] + [c];
      UnspacedAppend([' '], [c]);
      assert [c][1..] == [];
    } else {
      assert [c][1..] == [];
    }
  }

  /** The inserted spaces are the only difference `InsertSpaces` makes. */
  lemma {:induction false} UnspacedInsertSpaces(s: string)
    ensures Unspaced(InsertSpaces(s)) == Unspaced(s)
  {
    if s != [] {
      UnspacedInsertSpaces(s[1..]);
      UnspacedAppend(Spaced(s[0]), InsertSpaces(s[1..]));
      UnspacedSpaced(s[0]);
    }
  }

  lemma {:induction false} UnspacedTrimStart(t: string)
    requires SpacesOnly(t)
    ensures Unspaced(Js.TrimStart(t)) == Unspaced(t)
  {
    if t != [] && Js.IsWhiteSpace(t[0]) {
      assert t[0] == ' ';
      assert SpacesOnly(t[1..]) by {
        forall i | 0 <= i < |t[1..]| && Js.IsWhiteSpace(t[1..][i]) ensures t[1..][i] == ' ' {
          assert t[1..][i] == t[i + 1];
        }
      }
      UnspacedTrimStart(t[1..]);
    }
  }

  lemma {:induction false} UnspacedTrimEnd(t: string)
    requires SpacesOnly(t)
    ensures Unspaced(Js.TrimEnd(t)) == Unspaced(t)
  {
    if t != [] && Js.IsWhiteSpace(t[|t| - 1]) {
      var init := t[..|t| - 1];
      assert t[|t| - 1] == ' ';
      assert SpacesOnly(init) by {
        forall i | 0 <= i < |init| && Js.IsWhiteSpace(init[i]) ensures init[i] == ' ' {
          assert init[i] == t[i];
        }
      }
      UnspacedTrimEnd(init);
      assert t == init + [' '];
      UnspacedAppend(init, [' ']);
    }
  }

  /** Trimming a string whose only white space is spaces deletes nothing but spaces. */
  lemma UnspacedTrim(t: string)
    requires SpacesOnly(t)
    ensures Unspaced(Js.Trim(t)) == Unspaced(t)
  {
    var u := Js.TrimStart(t);
    UnspacedTrimStart(t);
    assert SpacesOnly(u) by {
      forall i | 0 <= i < |u| && Js.IsWhiteSpace(u[i]) ensures u[i] == ' ' {
        assert u[i] == t[|t| - |u| + i];
      }
    }
    UnspacedTrimEnd(u);
  }

  /** Deleting the spaces of a category heading gives back its key, for a key without white space. */
  lemma CategoryLabelRecoversKey(key: string)
    requires Js.NoWhiteSpace(key)
    ensures Unspaced(CategoryLabel(key)) == key
  {
    assert ' ' !in key by {
      forall i | 0 <= i < |key| ensures key[i] != ' ' {
        assert !Js.IsWhiteSpace(key[i]);
      }
    }
    UnspacedTrim(InsertSpaces(key));
    UnspacedInsertSpaces(key);
    UnspacedWithoutSpaces(key);
  }

  lemma {:induction false} InsertSpacesAppend(a: string, b: string)
    ensures InsertSpaces(a + b) == InsertSpaces(a) + InsertSpaces(b)
  {
    if a == [] {
      assert a + b == b;
    } else {
      assert (a + b)[1..] == a[1..] + b;
      InsertSpacesAppend(a[1..], b);
    }
  }

  lemma {:induction false} InsertSpacesLower(s: string)
    requires forall i :: 0 <= i < |s| ==> !IsUpper(s[i])
    ensures InsertSpaces(s) == s
  {
    if s != [] {
      InsertSpacesLower(s[1..]);
      assert s == [s[0]] + s[1..];
    }
  }

  lemma InsertSpacesCapital(c: char)
    requires IsUpper(c)
    ensures InsertSpaces([c]) == [' ', c]
  {
    assert [c][1..] == [];
  }

  /** A trimmed string is left alone by `trim`. */
  lemma TrimUntouched(t: string)
    requires t != [] && !Js.IsWhiteSpace(t[0]) && !Js.IsWhiteSpace(t[|t| - 1])
    ensures Js.Trim(t) == t
  {
  }

  /**
   * A camel-case key with one capital, such as `grainsAndMore`, gets one space in
   * front of its capital and nothing else.
   */
  lemma CamelCaseHeading(first: string, c: char, rest: string)
    requires first != [] && IsUpper(c)
    requires forall i :: 0 <= i < |first| ==> !IsUpper(first[i]) && !Js.IsWhiteSpace(first[i])
    requires forall i :: 0 <= i < |rest| ==> !IsUpper(rest[i]) && !Js.IsWhiteSpace(rest[i])
    ensures CategoryLabel(first + [c] + rest) == first + [' ', c] + rest
  {
    InsertSpacesAppend(first + [c], rest);
    InsertSpacesAppend(first, [c]);
    InsertSpacesCapital(c);
    InsertSpacesLower(first);
    InsertSpacesLower(rest);
    var t := first + [' ', c] + rest;
    assert InsertSpaces(first + [c] + rest) == t;
    assert t[0] == first[0];
    assert t[|t| - 1] == if rest == [] then c else rest[|rest| - 1];
    TrimUntouched(t);
  }

  /** Grocery categories shown: those whose item list is present and non-empty. */
  function VisibleCategories(cats: seq<Category>): (r: seq<Category>)
    ensures |r| <= |cats|
    ensures forall c :: c in r ==> c.items.Some? && |c.items.value| > 0
  {
    if cats == [] then []
    else
      var head := if cats[0].items.Some? && |cats[0].items.value| > 0 then [cats[0]] else [];
      head + VisibleCategories(cats[1..])
  }

  /** A category is shown exactly when it has items. */
  lemma {:induction false} VisibleCategoryMember(cats: seq<Category>, c: Category)
    ensures c in VisibleCategories(cats) <==> c in cats && c.items.Some? && |c.items.value| > 0
  {
    if cats != [] {
      VisibleCategoryMember(cats[1..], c);
      assert cats == [cats[0]] + cats[1..];
    }
  }

  /** A day button's label: `data.mealPlan[day]?.dayName || day`. */
  function DayLabel(e: DayEntry): (r: string)
    ensures e.day.Some? && e.day.value.dayName.Some? && e.day.value.dayName.value != "" ==> r == e.day.value.dayName.value
    ensures e.day.None? || e.day.value.dayName.None? || e.day.value.dayName.value == "" ==> r == e.key
  {
    match e.day
    case Some(DayPlan(Some(name), _)) => if name != "" then name else e.key
    case _ => e.key
  }

  /** The meal-type badge: `type.charAt(0).toUpperCase() + type.slice(1)`. */
  function TypeLabel(mealType: string): (r: string)
    ensures |r| == |mealType|
    ensures mealType != "" ==> r[0] == Js.ToUpper(mealType[0]) && r[1..] == mealType[1..]
  {
    Js.Capitalize(mealType)
  }

  const Plate: string := "\U{1F37D}\U{FE0F}"

  /** `mealTypeIcons[type] || "🍽️"`. */
  function MealIcon(mealType: string): (r: string)
    ensures mealType !in {"breakfast", "lunch", "snack", "dinner"} ==> r == Plate
  {
    if mealType == "breakfast" then "\U{1F373}"
    else if mealType == "lunch" then "\U{1F957}"
    else if mealType == "snack" then "\U{1F34E}"
    else Plate
  }

  // ------------------------------------------------------------ day index

  /**
   * The values `selectedDayIndex` can take: a day of a non-empty plan, and 0 or -1 for an
   * empty one (Next there computes `Math.min(-1, 1)`).
   */
  predicate IndexInRange(len: nat, i: int) {
    if len > 0 then 0 <= i < len else i == 0 || i == -1
  }

  /** The Prev handler's new index: never below 0, one day back, and `i` itself only at 0. */
  function PrevIndex(i: int): (r: int)
    ensures 0 <= r && i - 1 <= r <= Js.Max(i, 0)
    ensures r == i <==> i == 0
  {
    Js.Max(0, i - 1)
  }

  /** The Next handler's new index: never past the last day, one day on, and `i` itself only there. */
  function NextIndex(len: nat, i: int): (r: int)
    ensures r <= len - 1 && r <= i + 1 && (r == len - 1 || r == i + 1)
    ensures r == i <==> i == len - 1
  {
    Js.Min(len - 1, i + 1)
  }

  /** Prev and Next keep the index in range, and on a non-empty plan Next moves it by at most one day. */
  lemma NavigationStaysInRange(len: nat, i: int)
    requires IndexInRange(len, i)
    ensures IndexInRange(len, PrevIndex(i)) && IndexInRange(len, NextIndex(len, i))
    ensures len > 0 ==> i <= NextIndex(len, i) <= i + 1
  {
  }

  class ResultView {
    const days: seq<DayEntry>
    const groceries: seq<Category>
    var selectedDayIndex: int
    var selectedMeal: Option<Choice>
    var activeTab: Tab

    ghost predicate Valid()
      reads this
    {
      IndexInRange(|days|, selectedDayIndex)
    }

    constructor (days: seq<DayEntry>, groceries: seq<Category>)
      ensures Valid()
      ensures this.days == days && this.groceries == groceries
      ensures selectedDayIndex == 0 && selectedMeal.None? && activeTab == PlanTab
    {
      this.days := days;
      this.groceries := groceries;
      selectedDayIndex := 0;
      selectedMeal := None;
      activeTab := PlanTab;
    }

    /** `data.mealPlan[days[selectedDayIndex]]`: missing when the index names no day. */
    function CurrentDay(): (r: Option<DayPlan>)
      reads this
      ensures !(0 <= selectedDayIndex < |days|) ==> r.None?
    {
      if 0 <= selectedDayIndex < |days| then days[selectedDayIndex].day else None
    }

    /** The meal cards of the selected day. */
    function CurrentMeals(): seq<Choice>
      reads this
    {
      MealsOf(CurrentDay())
    }

    function PrevDisabled(): bool
      reads this
    {
      selectedDayIndex == 0
    }

    function NextDisabled(): bool
      reads this
    {
      selectedDayIndex == |days| - 1
    }

    /** Whether day button `index` is drawn as the selected one. */
    function DaySelected(index: int): bool
      reads this
    {
      index == selectedDayIndex
    }

    method Prev()
      requires Valid() && !PrevDisabled()
      modifies this
      ensures Valid()
      ensures selectedDayIndex == PrevIndex(old(selectedDayIndex))
      ensures old(selectedDayIndex) > 0 ==> selectedDayIndex == old(selectedDayIndex) - 1
      ensures selectedMeal == old(selectedMeal) && activeTab == old(activeTab)
    {
      NavigationStaysInRange(|days|, selectedDayIndex);
      selectedDayIndex := Js.Max(0, selectedDayIndex - 1);
    }

    method Next()
      requires Valid() && !NextDisabled()
      modifies this
      ensures Valid()
      ensures selectedDayIndex == NextIndex(|days|, old(selectedDayIndex))
      ensures |days| > 0 ==> selectedDayIndex == old(selectedDayIndex) + 1
      ensures selectedMeal == old(selectedMeal) && activeTab == old(activeTab)
    {
      NavigationStaysInRange(|days|, selectedDayIndex);
      selectedDayIndex := Js.Min(|days| - 1, selectedDayIndex + 1);
    }

    /** Day button `index` selects exactly that day. */
    method SelectDay(index: int)
      requires Valid() && 0 <= index < |days|
      modifies this
      ensures Valid()
      ensures selectedDayIndex == index && DaySelected(index)
      ensures selectedMeal == old(selectedMeal) && activeTab == old(activeTab)
    {
      selectedDayIndex := index;
    }

    method SetTab(tab: Tab)
      requires Valid()
      modifies this
      ensures Valid()
      ensures activeTab == tab
      ensures selectedDayIndex == old(selectedDayIndex) && selectedMeal == old(selectedMeal)
    {
      activeTab := tab;
    }

    /** A meal card opens the recipe of that card's meal; cards exist only on the plan tab. */
    method OpenRecipe(choice: Choice)
      requires Valid() && activeTab == PlanTab && choice in CurrentMeals()
      modifies this
      ensures Valid()
      ensures selectedMeal == Some(choice)
      ensures selectedDayIndex == old(selectedDayIndex) && activeTab == old(activeTab)
    {
      selectedMeal := Some(choice);
    }

    /** A click on the backdrop closes the recipe. */
    method CloseRecipe()
      requires Valid() && selectedMeal.Some?
      modifies this
      ensures Valid()
      ensures selectedMeal.None?
      ensures selectedDayIndex == old(selectedDayIndex) && activeTab == old(activeTab)
    {
      selectedMeal := None;
    }

    /** The headings of the grocery tab, in the list's order, skipping empty categories. */
    method GroceryHeadings() returns (headings: seq<string>)
      ensures |headings| == |VisibleCategories(groceries)|
      ensures forall k :: 0 <= k < |headings| ==> headings[k] == CategoryLabel(VisibleCategories(groceries)[k].key)
    {
      var shown := VisibleCategories(groceries);
      headings := seq(|shown|, k requires 0 <= k < |shown| => CategoryLabel(shown[k].key));
    }
  }
}
