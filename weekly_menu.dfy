/**
 * The weekly menu of the profile app (components/Dashboard.tsx): the meal
 * count under each day, the grocery list grouped by category, the text of
 * a swap request handed to the chef chat, and the tab and meal selection.
 */
module WeeklyMenu {
  import opened Common
  import opened Domain

  /** `(day.meals || []).length`. */
  function MealCount(d: DailyPlan): (r: nat)
    ensures d.meals.None? ==> r == 0
    ensures d.meals.Some? ==> r == |d.meals.value|
  {
    |MealsOf(d)|
  }

  /** "No meals scheduled." is shown exactly when the day's count reads 0. */
  lemma {:induction false} EmptyDayMessage(d: DailyPlan)
    ensures (d.meals.None? || |d.meals.value| == 0) <==> MealCount(d) == 0
  {
  }

  /** `i.category`: the category of a generated item; a bare string has none. */
  function CategoryOf(e: GroceryEntry): Option<string>
  {
    match e
    case ItemEntry(_, _, category, _) => category
    case _ => None
  }

  /** The test `i => i.category === category`. */
  function InCategory(category: Option<string>): GroceryEntry -> bool
  {
    e => CategoryOf(e) == category
  }

  /** `plan.groceryList.filter(i => i.category === category).length`: the count shown beside a category. */
  function CategoryCount(list: seq<GroceryEntry>, category: Option<string>): nat
  {
    Count(list, InCategory(category))
  }

  /** The index of the first item of a category, or -1. */
  function FirstOfCategory(list: seq<GroceryEntry>, category: Option<string>): int
  {
    FindFirst(list, InCategory(category))
  }

  /**
   * `r` lists the categories of `list` each once, in the order of their
   * first items.
   */
  predicate FirstAppearanceOrder(list: seq<GroceryEntry>, r: seq<Option<string>>)
  {
    && Distinct(r)
    && (forall i :: 0 <= i < |list| ==> CategoryOf(list[i]) in r)
    && (forall k :: 0 <= k < |r| ==> FirstOfCategory(list, r[k]) >= 0)
    && (forall k, m :: 0 <= k < m < |r| ==> FirstOfCategory(list, r[k]) < FirstOfCategory(list, r[m]))
  }

  /**
   * `Array.from(new Set(plan.groceryList.map(i => i.category)))`: each
   * category once, in the order of its first item.
   */
  function CategoryList(list: seq<GroceryEntry>): (r: seq<Option<string>>)
    ensures FirstAppearanceOrder(list, r)
    decreases |list|
  {
    if list == [] then []
    else
      var d := CategoryList(list[..|list| - 1]);
      CategoryListSnoc(list, d);
      if CategoryOf(list[|list| - 1]) in d then d else d + [CategoryOf(list[|list| - 1])]
  }

  /** An item added at the end keeps the first items of the categories before it, or is the first of a new one. */
  lemma {:induction false} FirstOfCategorySnoc(list: seq<GroceryEntry>, c: Option<string>)
    requires |list| > 0
    ensures FirstOfCategory(list[..|list| - 1], c) >= 0 ==> FirstOfCategory(list, c) == FirstOfCategory(list[..|list| - 1], c)
    ensures FirstOfCategory(list[..|list| - 1], c) < 0 && CategoryOf(list[|list| - 1]) == c ==> FirstOfCategory(list, c) == |list| - 1
  {
    var prefix := list[..|list| - 1];
    assert list == prefix + [list[|list| - 1]];
    FindFirstSnoc(prefix, list[|list| - 1], InCategory(c));
  }

  /** One more item keeps the order, adding its category at the end when it is new. */
  lemma {:induction false} CategoryListSnoc(list: seq<GroceryEntry>, d: seq<Option<string>>)
    requires |list| > 0 && FirstAppearanceOrder(list[..|list| - 1], d)
    ensures FirstAppearanceOrder(list, if CategoryOf(list[|list| - 1]) in d then d else d + [CategoryOf(list[|list| - 1])])
  {
    var c := CategoryOf(list[|list| - 1]);
    if c in d {
      KnownCategorySnoc(list, d);
    } else {
      NewCategorySnoc(list, d);
    }
  }

  /** The first items of the categories already listed stay where they were. */
  lemma {:induction false} ListedFirstsStay(list: seq<GroceryEntry>, d: seq<Option<string>>)
    requires |list| > 0 && FirstAppearanceOrder(list[..|list| - 1], d)
    ensures forall k :: 0 <= k < |d| ==> FirstOfCategory(list, d[k]) == FirstOfCategory(list[..|list| - 1], d[k])
  {
    forall k | 0 <= k < |d|
      ensures FirstOfCategory(list, d[k]) == FirstOfCategory(list[..|list| - 1], d[k])
    {
      FirstOfCategorySnoc(list, d[k]);
    }
  }

  lemma {:induction false} KnownCategorySnoc(list: seq<GroceryEntry>, d: seq<Option<string>>)
    requires |list| > 0 && FirstAppearanceOrder(list[..|list| - 1], d)
    requires CategoryOf(list[|list| - 1]) in d
    ensures FirstAppearanceOrder(list, d)
  {
    var prefix := list[..|list| - 1];
    ListedFirstsStay(list, d);
    forall i | 0 <= i < |list|
      ensures CategoryOf(list[i]) in d
    {
      if i < |prefix| {
        assert list[i] == prefix[i];
      }
    }
  }

  lemma {:induction false} NewCategorySnoc(list: seq<GroceryEntry>, d: seq<Option<string>>)
    requires |list| > 0 && FirstAppearanceOrder(list[..|list| - 1], d)
    requires CategoryOf(list[|list| - 1]) !in d
    ensures FirstAppearanceOrder(list, d + [CategoryOf(list[|list| - 1])])
  {
    var prefix := list[..|list| - 1];
    var c := CategoryOf(list[|list| - 1]);
    var r := d + [c];
    ListedFirstsStay(list, d);
    forall i | 0 <= i < |prefix|
      ensures !InCategory(c)(prefix[i])
    {
      assert CategoryOf(prefix[i]) in d;
    }
    FirstOfCategorySnoc(list, c);
    assert FirstOfCategory(list, r[|d|]) == |prefix|;
    assert forall k :: 0 <= k < |d| ==> r[k] == d[k];
    forall k, m | 0 <= k < m < |r|
      ensures FirstOfCategory(list, r[k]) < FirstOfCategory(list, r[m])
    {
      if m == |d| {
        assert FirstOfCategory(prefix, d[k]) < |prefix|;
      }
    }
    forall i | 0 <= i < |list|
      ensures CategoryOf(list[i]) in r
    {
      if i < |prefix| {
        assert list[i] == prefix[i];
        assert CategoryOf(prefix[i]) in d;
      }
    }
  }

  /** The counts shown beside the given categories, added up. */
  function GroupSizes(list: seq<GroceryEntry>, categories: seq<Option<string>>): nat
  {
    if categories == [] then 0
    else GroupSizes(list, categories[..|categories| - 1]) + CategoryCount(list, categories[|categories| - 1])
  }

  /** One more item adds one to the sizes of distinct categories exactly when its category is among them. */
  lemma {:induction false} GroupSizesSnoc(list: seq<GroceryEntry>, e: GroceryEntry, categories: seq<Option<string>>)
    requires Distinct(categories)
    ensures GroupSizes(list + [e], categories) == GroupSizes(list, categories) + (if CategoryOf(e) in categories then 1 else 0)
  {
    if categories != [] {
      var front := categories[..|categories| - 1];
      var last := categories[|categories| - 1];
      assert categories == front + [last];
      GroupSizesSnoc(list, e, front);
      CountSnoc(list, e, InCategory(last));
      assert CategoryOf(e) in categories <==> CategoryOf(e) in front || CategoryOf(e) == last;
      assert last !in front;
    }
  }

  /**
   * The category groups partition the grocery list: the counts shown beside
   * the categories add up to the length of the list.
   */
  lemma {:induction false} CategoryGroupsPartition(list: seq<GroceryEntry>)
    ensures GroupSizes(list, CategoryList(list)) == |list|
    decreases |list|
  {
    if list != [] {
      var prefix := list[..|list| - 1];
      var e := list[|list| - 1];
      assert list == prefix + [e];
      var d := CategoryList(prefix);
      CategoryGroupsPartition(prefix);
      GroupSizesSnoc(prefix, e, d);
      if CategoryOf(e) !in d {
        assert CategoryList(list) == d + [CategoryOf(e)];
        assert (d + [CategoryOf(e)])[..|d|] == d;
        CountNone(prefix, InCategory(CategoryOf(e)));
        CountSnoc(prefix, e, InCategory(CategoryOf(e)));
      }
    }
  }

  /** The text a swap asks the chef chat with. */
  function SwapRequestText(day: string, mealName: string): (r: string)
    ensures |r| == |SwapPrefix| + |day| + |SwapMiddle| + |mealName| + |SwapSuffix|
  {
    SwapPrefix + day + SwapMiddle + mealName + SwapSuffix
  }

  const SwapPrefix := "I want to swap the "
  const SwapMiddle := " meal \""
  const SwapSuffix := "\". I'm looking for something different."

  /** For a given day, the request text determines the meal it names. */
  lemma {:induction false} SwapRequestDeterminesMeal(day: string, a: string, b: string)
    requires SwapRequestText(day, a) == SwapRequestText(day, b)
    ensures a == b
  {
    var n := |SwapPrefix| + |day| + |SwapMiddle|;
    var ta := SwapRequestText(day, a);
    var tb := SwapRequestText(day, b);
    assert |a| == |b|;
    assert ta[n..n + |a|] == a;
    assert tb[n..n + |b|] == b;
  }

  datatype Tab = MenuTab | PrepTab | GroceryTab

  /** The meal whose details are open, with the day it was opened from. */
  datatype Selection = Selection(day: string, meal: PlannedMeal)

  class WeeklyMenuView {
    const plan: WeeklyPlan
    var activeTab: Tab
    var selectedMeal: Option<Selection>

    /** The menu opens on the menu tab with nothing selected. */
    constructor(plan: WeeklyPlan)
      ensures this.plan == plan && activeTab == MenuTab && selectedMeal.None?
    {
      this.plan := plan;
      activeTab := MenuTab;
      selectedMeal := None;
    }

    method SelectTab(tab: Tab)
      modifies this
      ensures activeTab == tab && selectedMeal == old(selectedMeal)
    {
      activeTab := tab;
    }

    /** Opening a meal card (or its details and instructions buttons) selects it with its day. */
    method OpenMeal(day: string, meal: PlannedMeal)
      modifies this
      ensures selectedMeal == Some(Selection(day, meal)) && activeTab == old(activeTab)
    {
      selectedMeal := Some(Selection(day, meal));
    }

    /** The backdrop and the close buttons clear the selection. */
    method CloseMeal()
      modifies this
      ensures selectedMeal.None? && activeTab == old(activeTab)
    {
      selectedMeal := None;
    }

    /** The swap button on a card: the request text for that day and meal; nothing else changes. */
    method HandleSwapRequest(day: string, mealName: string) returns (text: string)
      ensures text == SwapRequestText(day, mealName)
    {
      text := SwapRequestText(day, mealName);
    }

    /** The swap button in the open meal's details: the request for the selected meal, then the details close. */
    method SwapSelected() returns (text: string)
      requires selectedMeal.Some?
      modifies this
      ensures text == SwapRequestText(old(selectedMeal).value.day, old(selectedMeal).value.meal.name)
      ensures selectedMeal.None? && activeTab == old(activeTab)
    {
      text := HandleSwapRequest(selectedMeal.value.day, selectedMeal.value.meal.name);
      selectedMeal := None;
    }
  }
}
