/**
 * The routed application shell (src/App.jsx): the signed-in user, the
 * loaded profile and the current path, the handlers that rewrite the
 * weekly plan and the saved recipes through the profile store, and the
 * helpers that derive the highlighted view from the path.
 */
module WebApp {
  import opened Common
  import opened Text
  import opened Domain
  import opened DatabaseService

  /** `meal.name === oldMeal.name && meal.type === oldMeal.type` (two missing types are equal). */
  predicate SameMeal(meal: PlannedMeal, oldMeal: PlannedMeal)
  {
    meal.name == oldMeal.name && meal.mealType == oldMeal.mealType
  }

  /** `meals.map(meal => SameMeal(meal, oldMeal) ? newMeal : meal)`. */
  function SwapInMeals(meals: seq<PlannedMeal>, oldMeal: PlannedMeal, newMeal: PlannedMeal): (r: seq<PlannedMeal>)
    ensures |r| == |meals|
    ensures forall i :: 0 <= i < |meals| && !SameMeal(meals[i], oldMeal) ==> r[i] == meals[i]
    ensures forall i :: 0 <= i < |meals| && SameMeal(meals[i], oldMeal) ==> r[i] == newMeal
  {
    seq(|meals|, i requires 0 <= i < |meals| => if SameMeal(meals[i], oldMeal) then newMeal else meals[i])
  }

  /**
   * After a swap to a different meal, no meal of the day still matches
   * the old one; swapping the same pair again changes nothing.
   */
  lemma {:induction false} SwapInMealsReplacesAll(meals: seq<PlannedMeal>, oldMeal: PlannedMeal, newMeal: PlannedMeal)
    ensures !SameMeal(newMeal, oldMeal) ==> forall i :: 0 <= i < |meals| ==> !SameMeal(SwapInMeals(meals, oldMeal, newMeal)[i], oldMeal)
    ensures SwapInMeals(SwapInMeals(meals, oldMeal, newMeal), oldMeal, newMeal) == SwapInMeals(meals, oldMeal, newMeal)
  {
    var once := SwapInMeals(meals, oldMeal, newMeal);
    var twice := SwapInMeals(once, oldMeal, newMeal);
    forall i | 0 <= i < |meals| ensures twice[i] == once[i] {
      if SameMeal(meals[i], oldMeal) {
        assert once[i] == newMeal;
      }
    }
  }

  /**
   * The plan after `handleSwapMeal` rewrites day `dayIndex`; `None` when
   * the rewrite throws (no such day, or a day without a meal array), which
   * the handler catches and ignores.
   */
  function SwapInPlan(plan: WeeklyPlan, dayIndex: int, oldMeal: PlannedMeal, newMeal: PlannedMeal): (r: Option<WeeklyPlan>)
    ensures r.Some? <==> 0 <= dayIndex < |plan.dailyPlans| && plan.dailyPlans[dayIndex].meals.Some?
    ensures r.Some? ==> r.value.weekTitle == plan.weekTitle && r.value.theme == plan.theme
                        && r.value.groceryList == plan.groceryList && r.value.sundayPrep == plan.sundayPrep
                        && r.value.sustainabilityTip == plan.sustainabilityTip
    ensures r.Some? ==> |r.value.dailyPlans| == |plan.dailyPlans|
                        && (forall d :: 0 <= d < |plan.dailyPlans| && d != dayIndex ==> r.value.dailyPlans[d] == plan.dailyPlans[d])
                        && r.value.dailyPlans[dayIndex].day == plan.dailyPlans[dayIndex].day
                        && r.value.dailyPlans[dayIndex].meals == Some(SwapInMeals(plan.dailyPlans[dayIndex].meals.value, oldMeal, newMeal))
  {
    if 0 <= dayIndex < |plan.dailyPlans| && plan.dailyPlans[dayIndex].meals.Some? then
      var day := plan.dailyPlans[dayIndex];
      var swapped := day.(meals := Some(SwapInMeals(day.meals.value, oldMeal, newMeal)));
      Some(plan.(dailyPlans := plan.dailyPlans[dayIndex := swapped]))
    else None
  }

  /** `{ ...weeklyPlan, groceryList: newGroceryList }`. */
  function WithGroceries(plan: WeeklyPlan, groceries: seq<GroceryEntry>): (r: WeeklyPlan)
    ensures r.groceryList == groceries
    ensures r.(groceryList := plan.groceryList) == plan
  {
    plan.(groceryList := groceries)
  }

  /** Replacing the grocery list twice keeps only the second list, and putting the old list back restores the plan. */
  lemma {:induction false} WithGroceriesLastWins(plan: WeeklyPlan, first: seq<GroceryEntry>, second: seq<GroceryEntry>)
    ensures WithGroceries(WithGroceries(plan, first), second) == WithGroceries(plan, second)
    ensures WithGroceries(WithGroceries(plan, first), plan.groceryList) == plan
  {
  }

  /** The views highlighted in the sidebar and the mobile navigation. */
  datatype NavView = DashboardView | PlannerView | GroceriesView | DiscoverView | CookbookView

  function ViewId(v: NavView): string
  {
    match v
    case DashboardView => "dashboard"
    case PlannerView => "planner"
    case GroceriesView => "groceries"
    case DiscoverView => "discover"
    case CookbookView => "cookbook"
  }

  /** The order in which `getCurrentView` tests the path. */
  function Rank(v: NavView): nat
  {
    match v
    case DashboardView => 0
    case PlannerView => 1
    case GroceriesView => 2
    case DiscoverView => 3
    case CookbookView => 4
  }

  /** `getCurrentView`: the first view whose id occurs in the path, in the fixed order, else the dashboard. */
  function CurrentView(path: string): (r: NavView)
    ensures r != DashboardView ==> Contains(path, ViewId(r))
    ensures forall v :: Rank(v) < Rank(r) ==> !Contains(path, ViewId(v))
    ensures r == DashboardView ==> Contains(path, "dashboard") || forall v :: !Contains(path, ViewId(v))
  {
    if Contains(path, "dashboard") then DashboardView
    else if Contains(path, "planner") then PlannerView
    else if Contains(path, "groceries") then GroceriesView
    else if Contains(path, "discover") then DiscoverView
    else if Contains(path, "cookbook") then CookbookView
    else DashboardView
  }

  /** `handleNavigate`: the route for each of the five view ids, and no navigation for any other id. */
  function NavigateTarget(viewId: string): (r: Option<string>)
    ensures r.Some? <==> exists v :: ViewId(v) == viewId
    ensures r.Some? ==> r.value == "/" + viewId
  {
    if viewId in {"dashboard", "planner", "groceries", "discover", "cookbook"} then
      assert viewId == ViewId(DashboardView) || viewId == ViewId(PlannerView) || viewId == ViewId(GroceriesView)
             || viewId == ViewId(DiscoverView) || viewId == ViewId(CookbookView);
      Some("/" + viewId)
    else None
  }

  lemma {:induction false} NotContainsLonger(s: string, t: string)
    requires |s| < |t|
    ensures !Contains(s, t)
  {
  }

  lemma {:induction false} NotContainsAt(s: string, t: string)
    requires |t| > 0
    requires forall i :: 0 <= i <= |s| - |t| ==> s[i] != t[0]
    ensures !Contains(s, t)
  {
    forall i | 0 <= i <= |s| - |t| ensures !OccursAt(s, t, i) {
      assert s[i..i + |t|][0] == s[i];
    }
  }

  /** Navigating to a view and deriving the view from the new path gives that view back. */
  lemma {:induction false} NavigateThenCurrentView(v: NavView)
    ensures NavigateTarget(ViewId(v)).Some?
    ensures CurrentView(NavigateTarget(ViewId(v)).value) == v
  {
    var path := "/" + ViewId(v);
    ContainsSelf(ViewId(v));
    assert OccursAt(path, ViewId(v), 1);
    match v
    case DashboardView =>
    case PlannerView =>
      NotContainsLonger(path, "dashboard");
    case GroceriesView =>
      NotContainsAt(path, "dashboard");
      NotContainsAt(path, "planner");
    case DiscoverView =>
      NotContainsAt(path, "dashboard");
      NotContainsAt(path, "planner");
      NotContainsAt(path, "groceries");
    case CookbookView =>
      NotContainsAt(path, "dashboard");
      NotContainsAt(path, "planner");
      NotContainsAt(path, "groceries");
      NotContainsAt(path, "discover");
  }

  /** `needsOnboarding`: a signed-in user whose profile is loaded but has no weekly plan. */
  function NeedsOnboarding(user: Option<string>, profile: Option<UserProfile>): (r: bool)
    ensures r <==> user.Some? && profile.Some? && profile.value.weeklyPlan.None?
  {
    user.Some? && profile.Some? && profile.value.weeklyPlan.None?
  }

  /** The paths on which the sidebar, header and navigation are hidden. */
  const ChromelessPaths: seq<string> := ["/onboarding", "/", "/login"]

  /** `showAppChrome`: a signed-in user on any path but the onboarding, landing and login pages. */
  function ShowAppChrome(user: Option<string>, path: string): (r: bool)
    ensures r ==> user.Some?
    ensures r <==> user.Some? && path != "/onboarding" && path != "/" && path != "/login"
  {
    user.Some? && path !in ChromelessPaths
  }

  /** Every route `handleNavigate` goes to shows the application chrome to a signed-in user. */
  lemma {:induction false} NavigatedPagesShowChrome(uid: string, v: NavView)
    ensures ShowAppChrome(Some(uid), NavigateTarget(ViewId(v)).value)
  {
    NavigateThenCurrentView(v);
    var path := NavigateTarget(ViewId(v)).value;
    assert |path| > 1 && path[1] == ViewId(v)[0];
    assert path != "/onboarding" by {
      assert "/onboarding"[1] == 'o';
    }
    assert path != "/login" by {
      assert "/login"[1] == 'l';
    }
  }

  /** `{ weeklyPlan: plan }`. */
  function PlanUpdate(plan: WeeklyPlan): ProfileUpdate
  {
    ProfileUpdate(Absent, Absent, Present(Some(plan)), Absent)
  }

  /** The profile returned by the store's `updateProfile` for `uid`. */
  function Updated(profiles: seq<UserProfile>, uid: string, u: ProfileUpdate): Option<UserProfile>
  {
    if FindProfile(profiles, uid).Some? then Some(Merge(FindProfile(profiles, uid).value, u)) else None
  }

  /** The state of the App component, with the profile store it writes through. */
  class App {
    var user: Option<string>
    var profile: Option<UserProfile>
    var path: string
    const store: LocalProfileStore

    constructor(store: LocalProfileStore, path: string)
      ensures this.store == store && this.path == path
      ensures user.None? && profile.None?
    {
      this.store := store;
      this.path := path;
      user := None;
      profile := None;
    }

    /**
     * `handleProfileComplete`: the onboarding answers and plan are stored
     * with an empty saved-recipe list, the returned profile becomes the
     * loaded one, and the dashboard is shown.
     */
    method HandleProfileComplete(data: UserProfile)
      modifies this, store
      ensures old(user).None? ==> unchanged(this) && unchanged(store)
      ensures old(user).Some? ==>
                var u := ProfileUpdate(Absent, Present(data.answers), Present(data.weeklyPlan), Present(Some([])));
                && store.profiles == MapProfile(old(store.profiles), old(user).value, (p: UserProfile) => Merge(p, u))
                && profile == Updated(old(store.profiles), old(user).value, u)
                && path == "/dashboard" && user == old(user)
    {
      if user.None? {
        return;
      }
      var u := ProfileUpdate(Absent, Present(data.answers), Present(data.weeklyPlan), Present(Some([])));
      var saved := store.UpdateProfile(user.value, u);
      profile := saved;
      path := "/dashboard";
    }

    /** `handleSaveRecipe`: save through the store and load the profile it returns, if any. */
    method HandleSaveRecipe(recipe: Recipe)
      modifies this, store
      ensures old(user).None? ==> unchanged(this) && unchanged(store)
      ensures user == old(user) && path == old(path)
      ensures old(user).Some? && FindProfile(old(store.profiles), old(user).value).None?
              ==> profile == old(profile) && store.profiles == old(store.profiles)
      ensures old(user).Some? && FindProfile(old(store.profiles), old(user).value).Some?
              ==> profile == Some(ProfileWithRecipe(FindProfile(old(store.profiles), old(user).value).value, recipe))
      ensures old(user).Some? && FindProfile(old(store.profiles), old(user).value).Some?
              && HasRecipeNamed(SavedOf(FindProfile(old(store.profiles), old(user).value).value), recipe.name)
              ==> store.profiles == old(store.profiles)
      ensures old(user).Some? && FindProfile(old(store.profiles), old(user).value).Some?
              && !HasRecipeNamed(SavedOf(FindProfile(old(store.profiles), old(user).value).value), recipe.name)
              ==> var saved := [recipe] + SavedOf(FindProfile(old(store.profiles), old(user).value).value);
                  store.profiles == MapProfile(old(store.profiles), old(user).value, (p: UserProfile) => Merge(p, SavedUpdate(saved)))
    {
      if user.None? {
        return;
      }
      var updated := store.SaveRecipe(user.value, recipe);
      if updated.Some? {
        profile := updated;
      }
    }

    /** `handleDeleteRecipe`: delete through the store and load the profile it returns, if any. */
    method HandleDeleteRecipe(recipeId: string)
      modifies this, store
      ensures old(user).None? ==> unchanged(this) && unchanged(store)
      ensures user == old(user) && path == old(path)
      ensures old(user).Some? && FindProfile(old(store.profiles), old(user).value).None?
              ==> profile == old(profile) && store.profiles == old(store.profiles)
      ensures old(user).Some? && FindProfile(old(store.profiles), old(user).value).Some?
              ==> profile == Some(ProfileWithoutRecipe(FindProfile(old(store.profiles), old(user).value).value, recipeId))
      ensures old(user).Some? && FindProfile(old(store.profiles), old(user).value).Some?
              ==> var kept := WithoutRecipe(SavedOf(FindProfile(old(store.profiles), old(user).value).value), recipeId);
                  store.profiles == MapProfile(old(store.profiles), old(user).value, (p: UserProfile) => Merge(p, SavedUpdate(kept)))
    {
      if user.None? {
        return;
      }
      var updated := store.DeleteRecipe(user.value, recipeId);
      if updated.Some? {
        profile := updated;
      }
    }

    /**
     * `handleSwapMeal`: with a signed-in user and a loaded plan, the plan
     * with the day's matching meals replaced is stored and the returned
     * profile loaded; a rewrite that throws changes nothing.
     */
    method HandleSwapMeal(dayIndex: int, oldMeal: PlannedMeal, newMeal: PlannedMeal)
      modifies this, store
      ensures user == old(user) && path == old(path)
      ensures old(user).None? || old(profile).None? || old(profile).value.weeklyPlan.None?
              ==> unchanged(this) && unchanged(store)
      ensures old(user).Some? && old(profile).Some? && old(profile).value.weeklyPlan.Some?
              ==> var swapped := SwapInPlan(old(profile).value.weeklyPlan.value, dayIndex, oldMeal, newMeal);
                  && (swapped.None? ==> unchanged(this) && unchanged(store))
                  && (swapped.Some? ==>
                        var saved := Updated(old(store.profiles), old(user).value, PlanUpdate(swapped.value));
                        && store.profiles == MapProfile(old(store.profiles), old(user).value, (p: UserProfile) => Merge(p, PlanUpdate(swapped.value)))
                        && profile == (if saved.Some? then saved else old(profile)))
    {
      if user.None? || profile.None? || profile.value.weeklyPlan.None? {
        return;
      }
      var swapped := SwapInPlan(profile.value.weeklyPlan.value, dayIndex, oldMeal, newMeal);
      if swapped.None? {
        return;
      }
      var updated := store.UpdateProfile(user.value, PlanUpdate(swapped.value));
      if updated.Some? {
        profile := updated;
      }
    }

    /** `handleUpdateGroceries`: the loaded plan with only its grocery list replaced is stored. */
    method HandleUpdateGroceries(groceries: seq<GroceryEntry>)
      modifies this, store
      ensures user == old(user) && path == old(path)
      ensures old(user).None? || old(profile).None? || old(profile).value.weeklyPlan.None?
              ==> unchanged(this) && unchanged(store)
      ensures old(user).Some? && old(profile).Some? && old(profile).value.weeklyPlan.Some?
              ==> var plan := WithGroceries(old(profile).value.weeklyPlan.value, groceries);
                  var saved := Updated(old(store.profiles), old(user).value, PlanUpdate(plan));
                  && store.profiles == MapProfile(old(store.profiles), old(user).value, (p: UserProfile) => Merge(p, PlanUpdate(plan)))
                  && profile == (if saved.Some? then saved else old(profile))
    {
      if user.None? || profile.None? || profile.value.weeklyPlan.None? {
        return;
      }
      var plan := WithGroceries(profile.value.weeklyPlan.value, groceries);
      var updated := store.UpdateProfile(user.value, PlanUpdate(plan));
      if updated.Some? {
        profile := updated;
      }
    }

    /** `handleNavigate`: a known view id moves to its route; any other id leaves the path. */
    method HandleNavigate(viewId: string)
      modifies this
      ensures user == old(user) && profile == old(profile)
      ensures path == (if NavigateTarget(viewId).Some? then NavigateTarget(viewId).value else old(path))
    {
      var target := NavigateTarget(viewId);
      if target.Some? {
        path := target.value;
      }
    }
  }
}
