/**
 * The weekly planner page (src/pages/MealPlanner.jsx): the meals shown
 * under each weekday, the day index handed on when a meal is opened, the
 * colour of a meal-type label, and the swap started from the meal modal.
 */
module MealPlanner {
  import opened Common
  import opened Text
  import opened Domain
  import opened WebApp

  /** The plan's day name equals the given weekday name, ignoring case. */
  predicate IsDay(d: DailyPlan, dayName: string)
  {
    EqualsIgnoreCase(d.day, dayName)
  }

  /** `dailyPlans.findIndex(d => d.day.toLowerCase() === dayName.toLowerCase())`. */
  function DayIndexOf(plans: seq<DailyPlan>, dayName: string): (r: int)
    ensures -1 <= r < |plans|
    ensures r == -1 <==> forall i :: 0 <= i < |plans| ==> !IsDay(plans[i], dayName)
    ensures r >= 0 ==> IsDay(plans[r], dayName) && forall i :: 0 <= i < r ==> !IsDay(plans[i], dayName)
  {
    FindFirst(plans, (d: DailyPlan) => IsDay(d, dayName))
  }

  /** `getMealsForDay`: the meals of the first plan for that weekday, else none. */
  function MealsForDay(plans: seq<DailyPlan>, dayName: string): (r: seq<PlannedMeal>)
    ensures DayIndexOf(plans, dayName) >= 0 ==> r == MealsOf(plans[DayIndexOf(plans, dayName)])
    ensures DayIndexOf(plans, dayName) == -1 ==> r == []
  {
    var k := DayIndexOf(plans, dayName);
    if k >= 0 then MealsOf(plans[k]) else []
  }

  /**
   * The day a clicked meal opens with is the day whose meals the planner
   * shows under that weekday; and the lookup does not depend on the case
   * of the weekday name.
   */
  lemma {:induction false} ClickedDayShowsSameMeals(plans: seq<DailyPlan>, dayName: string, other: string)
    requires EqualsIgnoreCase(dayName, other)
    ensures DayIndexOf(plans, dayName) == DayIndexOf(plans, other)
    ensures MealsForDay(plans, dayName) == MealsForDay(plans, other)
    ensures 0 <= DayIndexOf(plans, dayName) ==> MealsOf(plans[DayIndexOf(plans, dayName)]) == MealsForDay(plans, dayName)
  {
    var p := (d: DailyPlan) => IsDay(d, dayName);
    var q := (d: DailyPlan) => IsDay(d, other);
    forall d ensures p(d) == q(d) {
    }
    FindFirstMapped(plans, plans, p, q);
  }

  /** A day holds a meal with the same name and type: `d.meals?.some(...)`. */
  predicate HoldsMeal(d: DailyPlan, meal: PlannedMeal)
  {
    d.meals.Some? && exists i :: 0 <= i < |d.meals.value| && SameMeal(d.meals.value[i], meal)
  }

  /** The swap target: the first day holding a meal with the same name and type, or -1. */
  function SwapTargetDay(plans: seq<DailyPlan>, meal: PlannedMeal): (r: int)
    ensures -1 <= r < |plans|
    ensures r == -1 <==> forall i :: 0 <= i < |plans| ==> !HoldsMeal(plans[i], meal)
    ensures r >= 0 ==> HoldsMeal(plans[r], meal) && forall i :: 0 <= i < r ==> !HoldsMeal(plans[i], meal)
  {
    FindFirst(plans, (d: DailyPlan) => HoldsMeal(d, meal))
  }

  /**
   * Whenever the planner requests a swap, the application's rewrite of
   * that day succeeds and leaves no meal matching the old one (unless the
   * new meal has the same name and type).
   */
  lemma {:induction false} SwapTargetIsRewritten(plan: WeeklyPlan, meal: PlannedMeal, newMeal: PlannedMeal)
    requires SwapTargetDay(plan.dailyPlans, meal) >= 0
    ensures var k := SwapTargetDay(plan.dailyPlans, meal);
            var r := SwapInPlan(plan, k, meal, newMeal);
            r.Some? && (!SameMeal(newMeal, meal) ==> !HoldsMeal(r.value.dailyPlans[k], meal))
  {
    var k := SwapTargetDay(plan.dailyPlans, meal);
    var meals := plan.dailyPlans[k].meals.value;
    SwapInMealsReplacesAll(meals, meal, newMeal);
  }

  /** The text colour class of a meal-type label. */
  function MealTypeColor(mealType: Option<string>): (r: string)
    ensures mealType.Some? && Lower(mealType.value) == "breakfast" ==> r == "text-yellow-400"
    ensures mealType.Some? && Lower(mealType.value) == "lunch" ==> r == "text-green-400"
    ensures mealType.Some? && Lower(mealType.value) == "dinner" ==> r == "text-orange-400"
    ensures r == "text-zinc-400" <==> mealType.None? || Lower(mealType.value) !in {"breakfast", "lunch", "dinner"}
  {
    if mealType.None? then "text-zinc-400"
    else
      var t := Lower(mealType.value);
      if t == "breakfast" then "text-yellow-400"
      else if t == "lunch" then "text-green-400"
      else if t == "dinner" then "text-orange-400"
      else "text-zinc-400"
  }

  /** Labels that differ only in case share their colour. */
  lemma {:induction false} MealTypeColorIgnoresCase(a: string, b: string)
    requires EqualsIgnoreCase(a, b)
    ensures MealTypeColor(Some(a)) == MealTypeColor(Some(b))
  {
  }

  /** The extra "add meal" button under a day: shown for one or two meals. */
  predicate ShowAddMealButton(meals: seq<PlannedMeal>)
  {
    0 < |meals| < 3
  }

  /** A weekday without a plan shows neither meals nor the extra button. */
  lemma {:induction false} UnplannedDayHasNoButton(plans: seq<DailyPlan>, dayName: string)
    requires forall i :: 0 <= i < |plans| ==> !IsDay(plans[i], dayName)
    ensures MealsForDay(plans, dayName) == [] && !ShowAddMealButton(MealsForDay(plans, dayName))
  {
  }

  class MealPlannerPage {
    const plans: seq<DailyPlan>
    var selectedMeal: Option<PlannedMeal>
    var isSwapping: bool

    /** The planner over `profile?.weeklyPlan?.dailyPlans || []`. */
    constructor(profile: Option<UserProfile>)
      ensures plans == (if profile.Some? && profile.value.weeklyPlan.Some? then profile.value.weeklyPlan.value.dailyPlans else [])
      ensures selectedMeal.None? && !isSwapping
    {
      plans := if profile.Some? && profile.value.weeklyPlan.Some? then profile.value.weeklyPlan.value.dailyPlans else [];
      selectedMeal := None;
      isSwapping := false;
    }

    /** The start of `handleSwapMeal`: nothing without a meal or while a swap is in flight. */
    method StartSwap(meal: Option<PlannedMeal>) returns (started: bool)
      modifies this
      ensures started <==> meal.Some? && !old(isSwapping)
      ensures isSwapping == (old(isSwapping) || started)
      ensures selectedMeal == old(selectedMeal)
    {
      if meal.None? || isSwapping {
        return false;
      }
      isSwapping := true;
      started := true;
    }

    /**
     * The end of `handleSwapMeal` for `meal`, given the generated meal
     * (`None` on failure): with a new meal and a swap callback, the swap is
     * requested for the first day holding the meal (if any) and the modal
     * shows the new meal; the flag always comes down.
     */
    method FinishSwap(meal: PlannedMeal, newMeal: Option<PlannedMeal>, hasCallback: bool) returns (request: Option<SwapRequest>)
      requires isSwapping
      modifies this
      ensures !isSwapping
      ensures request.Some? <==> newMeal.Some? && hasCallback && SwapTargetDay(plans, meal) >= 0
      ensures request.Some? ==> request.value == SwapRequest(SwapTargetDay(plans, meal), meal, newMeal.value)
      ensures selectedMeal == (if newMeal.Some? && hasCallback then newMeal else old(selectedMeal))
    {
      request := None;
      if newMeal.Some? && hasCallback {
        var dayIndex := SwapTargetDay(plans, meal);
        if dayIndex >= 0 {
          request := Some(SwapRequest(dayIndex, meal, newMeal.value));
        }
        selectedMeal := newMeal;
      }
      isSwapping := false;
    }
  }
}
