/**
 * The stateless weekly view (src/components/MealPlanDisplay.tsx): what it renders for a
 * week and a selected day, and the day each of its controls asks the parent for.
 */
module MealPlanDisplay {
  import Js
  import opened Wrappers

  datatype MealType = Breakfast | Lunch | Dinner | Snack

  datatype Meal = Meal(id: string, name: string, mealType: MealType, calories: int, prepTime: int)

  datatype DayPlan = DayPlan(day: string, meals: seq<Meal>)

  function TypeName(t: MealType): string {
    match t
    case Breakfast => "breakfast"
    case Lunch => "lunch"
    case Dinner => "dinner"
    case Snack => "snack"
  }

  const Egg: string := "\U{1F373}"
  const Salad: string := "\U{1F957}"
  const Plate: string := "\U{1F37D}\U{FE0F}"
  const Apple: string := "\U{1F34E}"

  /** The card's picture: a chain of three tests with the apple as the fall-through. */
  function Emoji(t: MealType): (e: string)
    ensures e in {Egg, Salad, Plate, Apple}
    ensures e == Apple <==> t == Snack
  {
    if TypeName(t) == "breakfast" then Egg
    else if TypeName(t) == "lunch" then Salad
    else if TypeName(t) == "dinner" then Plate
    else Apple
  }

  /** Every meal type has its own picture. */
  lemma EmojiDistinct(t: MealType, u: MealType)
    ensures Emoji(t) == Emoji(u) <==> t == u
  {
  }

  /** The badge: `type.charAt(0).toUpperCase() + type.slice(1)`. */
  function TypeLabel(t: MealType): string {
    Js.Capitalize(TypeName(t))
  }

  /** The badges read Breakfast, Lunch, Dinner and Snack. */
  lemma TypeLabels()
    ensures TypeLabel(Breakfast) == "Breakfast" && TypeLabel(Lunch) == "Lunch"
    ensures TypeLabel(Dinner) == "Dinner" && TypeLabel(Snack) == "Snack"
  {
    assert "breakfast"[1..] == "reakfast";
    assert "lunch"[1..] == "unch";
    assert "dinner"[1..] == "inner";
    assert "snack"[1..] == "nack";
  }

  // ------------------------------------------------------------- controls

  datatype Control = PrevButton | NextButton | DayButton(index: int)

  /**
   * The day a control passes to `onDayChange`: Prev never asks for less than 0 and
   * Next never for more than the last day, and each asks for `d` itself only at its end.
   */
  function Request(len: nat, d: int, c: Control): (r: int)
    ensures c == PrevButton ==> 0 <= r && d - 1 <= r && (r == d <==> d == 0)
    ensures c == NextButton ==> r <= len - 1 && r <= d + 1 && (r == d <==> d == len - 1)
    ensures c.DayButton? ==> r == c.index
  {
    match c
    case PrevButton => Js.Max(0, d - 1)
    case NextButton => Js.Min(len - 1, d + 1)
    case DayButton(index) => index
  }

  /** Prev and Next are disabled exactly when they would ask for the day already shown. */
  function Disabled(len: nat, d: int, c: Control): (b: bool)
    ensures b <==> !c.DayButton? && Request(len, d, c) == d
  {
    match c
    case PrevButton => d == 0
    case NextButton => d == len - 1
    case DayButton(_) => false
  }

  /** From a rendered day, every control asks for a day of the week, at most one step away for Prev and Next. */
  lemma RequestInWeek(len: nat, d: int, c: Control)
    requires 0 <= d < len
    requires c.DayButton? ==> 0 <= c.index < len
    ensures 0 <= Request(len, d, c) < len
    ensures c == PrevButton ==> Request(len, d, c) <= d && d - 1 <= Request(len, d, c)
    ensures c == NextButton ==> d <= Request(len, d, c) <= d + 1
    ensures c.DayButton? ==> Request(len, d, c) == c.index
  {
  }

  // ------------------------------------------------------------------ view

  datatype DayTab = DayTab(caption: string, selected: bool)

  datatype MealCard = MealCard(emoji: string, badge: string, name: string, calories: int, prepTime: int)

  datatype View = View(prevDisabled: bool, nextDisabled: bool, days: seq<DayTab>, cards: seq<MealCard>)

  function CardOf(m: Meal): MealCard {
    MealCard(Emoji(m.mealType), TypeLabel(m.mealType), m.name, m.calories, m.prepTime)
  }

  /** What the component returns: nothing when `weekPlan[selectedDay]` is undefined. */
  function Render(weekPlan: seq<DayPlan>, selectedDay: int): (r: Option<View>)
    ensures r.None? <==> !(0 <= selectedDay < |weekPlan|)
    ensures r.Some? ==>
              && r.value.prevDisabled == Disabled(|weekPlan|, selectedDay, PrevButton)
              && r.value.nextDisabled == Disabled(|weekPlan|, selectedDay, NextButton)
              && |r.value.days| == |weekPlan|
              && (forall i :: 0 <= i < |weekPlan| ==>
                    r.value.days[i].caption == weekPlan[i].day && (r.value.days[i].selected <==> i == selectedDay))
              && |r.value.cards| == |weekPlan[selectedDay].meals|
              && (forall k :: 0 <= k < |r.value.cards| ==> r.value.cards[k] == CardOf(weekPlan[selectedDay].meals[k]))
  {
    if 0 <= selectedDay < |weekPlan| then
      var meals := weekPlan[selectedDay].meals;
      Some(View(
        selectedDay == 0,
        selectedDay == |weekPlan| - 1,
        seq(|weekPlan|, i requires 0 <= i < |weekPlan| => DayTab(weekPlan[i].day, i == selectedDay)),
        seq(|meals|, k requires 0 <= k < |meals| => CardOf(meals[k]))))
    else
      None
  }

  /** A rendered view highlights exactly one day button, the selected one. */
  lemma OneDaySelected(weekPlan: seq<DayPlan>, selectedDay: int, i: int, j: int)
    requires Render(weekPlan, selectedDay).Some?
    requires 0 <= i < |weekPlan| && 0 <= j < |weekPlan|
    requires Render(weekPlan, selectedDay).value.days[i].selected
    requires Render(weekPlan, selectedDay).value.days[j].selected
    ensures i == j == selectedDay
  {
  }
}
