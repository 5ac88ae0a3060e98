/**
 * The data shapes of the application (types.ts), as the React pages receive
 * them: optional fields are `Option`s, and values the pages test for
 * truthiness keep the cases that make a difference.
 */
module Domain {
  import opened Common
  import opened Text

  datatype RecipeSource = Ai | Web

  datatype Recipe = Recipe(
    id: string,
    name: string,
    timing: string,
    ingredients: seq<string>,
    instructions: seq<string>,
    chefTip: string,
    whyItWorks: string,
    source: RecipeSource,
    imageUrl: Option<string>,
    webUrl: Option<string>)

  /**
   * An ingredient of a meal: missing, a bare string, or an object whose
   * `name` may be missing (the swap call returns name/amount objects).
   */
  datatype Ingredient =
    | NoIngredient
    | PlainIngredient(text: string)
    | MeasuredIngredient(name: Option<string>, amount: Option<string>)

  /**
   * `typeof ingredient === 'string' ? ingredient : ingredient?.name`, kept
   * only when it is truthy (the empty string is not).
   */
  function IngredientName(ing: Ingredient): (r: Option<string>)
    ensures r.Some? ==> r.value != ""
    ensures r.None? <==> (ing.NoIngredient? || (ing.PlainIngredient? && ing.text == "")
                          || (ing.MeasuredIngredient? && (ing.name.None? || ing.name.value == "")))
  {
    match ing
    case NoIngredient => None
    case PlainIngredient(t) => if t == "" then None else Some(t)
    case MeasuredIngredient(n, _) => if n.Some? && n.value != "" then n else None
  }

  datatype PlannedMeal = PlannedMeal(
    mealType: Option<string>,
    name: string,
    timeEstimate: Option<string>,
    description: string,
    techniqueFocus: string,
    ingredients: seq<Ingredient>,
    instructions: Option<seq<string>>,
    steps: Option<seq<string>>)

  /** `meal.instructions || meal.steps || []` (an empty array is truthy). */
  function InstructionsOf(m: PlannedMeal): (r: seq<string>)
    ensures m.instructions.Some? ==> r == m.instructions.value
    ensures m.instructions.None? && m.steps.Some? ==> r == m.steps.value
    ensures m.instructions.None? && m.steps.None? ==> r == []
  {
    if m.instructions.Some? then m.instructions.value else m.steps.GetOr([])
  }

  datatype DailyPlan = DailyPlan(day: string, meals: Option<seq<PlannedMeal>>)

  /** `day.meals || []`. */
  function MealsOf(d: DailyPlan): seq<PlannedMeal>
  {
    d.meals.GetOr([])
  }

  /** The number of placeholder images every meal card chooses from. */
  const PlaceholderCount := 6

  /** The sum of the character codes of a text. */
  function CharSum(s: string): nat
  {
    if |s| == 0 then 0 else CharSum(s[..|s| - 1]) + s[|s| - 1] as nat
  }

  lemma {:induction false} CharSumAppend(a: string, b: string)
    ensures CharSum(a + b) == CharSum(a) + CharSum(b)
    decreases |b|
  {
    if |b| == 0 {
      assert a + b == a;
    } else {
      assert (a + b)[..|a + b| - 1] == a + b[..|b| - 1];
      CharSumAppend(a, b[..|b| - 1]);
    }
  }

  /**
   * `getPlaceholderImage`: the index of the placeholder image, the sum of
   * the name's character codes modulo the number of images (0 without a name).
   */
  function PlaceholderIndex(mealName: Option<string>): (r: nat)
    ensures r < PlaceholderCount
    ensures mealName.None? ==> r == 0
    ensures mealName == Some("") ==> r == 0
  {
    if mealName.None? then 0 else CharSum(mealName.value) % PlaceholderCount
  }

  /** Names made of the same two parts in either order share their placeholder image. */
  lemma {:induction false} PlaceholderSwapParts(a: string, b: string)
    ensures PlaceholderIndex(Some(a + b)) == PlaceholderIndex(Some(b + a))
  {
    CharSumAppend(a, b);
    CharSumAppend(b, a);
  }

  /** The arguments of `onSwapMeal(dayIndex, oldMeal, newMeal)`. */
  datatype SwapRequest = SwapRequest(dayIndex: int, oldMeal: PlannedMeal, newMeal: PlannedMeal)

  /**
   * An entry of a grocery list: generated items carry `item` and `category`,
   * items added by hand are bare strings.
   */
  datatype GroceryEntry =
    | NullEntry
    | TextEntry(text: string)
    | ItemEntry(item: Option<string>, name: Option<string>, category: Option<string>, note: Option<string>)

  datatype PrepTask = PrepTask(task: string, time: string, why: string)

  datatype WeeklyPlan = WeeklyPlan(
    weekTitle: string,
    theme: string,
    dailyPlans: seq<DailyPlan>,
    groceryList: seq<GroceryEntry>,
    sundayPrep: seq<PrepTask>,
    sustainabilityTip: string)

  datatype UserAnswer = UserAnswer(questionId: int, answer: string)

  /**
   * An onboarding question: free text when it has no options, otherwise a
   * choice among the options, of several when `allowMultiple` is set, with a
   * custom entry when `allowOther` is set.
   */
  datatype Question = Question(
    id: int,
    text: string,
    options: Option<seq<string>>,
    allowMultiple: bool,
    allowOther: bool)

  /** No two questions share an id. */
  predicate DistinctIds(questions: seq<Question>)
  {
    forall i, j :: 0 <= i < j < |questions| ==> questions[i].id != questions[j].id
  }

  /**
   * What the plan generator delivers: a weekly plan, or a failure carrying
   * the error's `message` when it has one.
   */
  datatype Generated = Plan(plan: WeeklyPlan) | Failure(message: Option<string>)

  datatype UserProfile = UserProfile(
    id: string,
    name: string,
    createdAt: int,
    answers: seq<UserAnswer>,
    weeklyPlan: Option<WeeklyPlan>,
    savedRecipes: Option<seq<Recipe>>)

  /** `profile.savedRecipes || []`. */
  function SavedOf(p: UserProfile): seq<Recipe>
  {
    p.savedRecipes.GetOr([])
  }

  /** `recipes.some(r => r.name === name)`: exact, case-sensitive name match. */
  predicate HasRecipeNamed(recipes: seq<Recipe>, name: string)
  {
    exists i :: 0 <= i < |recipes| && recipes[i].name == name
  }

  /** No two saved recipes share a name. */
  predicate UniqueNames(recipes: seq<Recipe>)
  {
    forall i, j :: 0 <= i < j < |recipes| ==> recipes[i].name != recipes[j].name
  }

  /**
   * The saved-recipe list after saving `recipe`: unchanged when a recipe of
   * the same name is already there, otherwise the recipe goes first.
   */
  function WithRecipe(saved: seq<Recipe>, recipe: Recipe): (r: seq<Recipe>)
    ensures HasRecipeNamed(saved, recipe.name) ==> r == saved
    ensures !HasRecipeNamed(saved, recipe.name) ==> |r| == |saved| + 1 && r[0] == recipe && r[1..] == saved
    ensures HasRecipeNamed(r, recipe.name)
  {
    if HasRecipeNamed(saved, recipe.name) then saved
    else
      assert ([recipe] + saved)[0].name == recipe.name;
      [recipe] + saved
  }

  /** Saving the same recipe twice is the same as saving it once. */
  lemma {:induction false} WithRecipeIdempotent(saved: seq<Recipe>, recipe: Recipe)
    ensures WithRecipe(WithRecipe(saved, recipe), recipe) == WithRecipe(saved, recipe)
  {
  }

  /** Saving keeps the names of the saved recipes distinct. */
  lemma {:induction false} WithRecipeKeepsNamesUnique(saved: seq<Recipe>, recipe: Recipe)
    requires UniqueNames(saved)
    ensures UniqueNames(WithRecipe(saved, recipe))
  {
    var r := WithRecipe(saved, recipe);
    if !HasRecipeNamed(saved, recipe.name) {
      forall i, j | 0 <= i < j < |r| ensures r[i].name != r[j].name {
        if i == 0 {
          assert r[j] == saved[j - 1];
        } else {
          assert r[i] == saved[i - 1] && r[j] == saved[j - 1];
        }
      }
    }
  }

  /** `recipes.filter(r => r.id !== id)`. */
  function WithoutRecipe(saved: seq<Recipe>, id: string): (r: seq<Recipe>)
    ensures forall i :: 0 <= i < |r| ==> r[i].id != id && r[i] in saved
    ensures forall i :: 0 <= i < |saved| && saved[i].id != id ==> saved[i] in r
    ensures IsSubsequence(r, saved)
  {
    Filter(saved, (x: Recipe) => x.id != id)
  }

  /** Deleting an id that no saved recipe carries leaves the list as it was. */
  lemma {:induction false} WithoutAbsentRecipe(saved: seq<Recipe>, id: string)
    requires forall i :: 0 <= i < |saved| ==> saved[i].id != id
    ensures WithoutRecipe(saved, id) == saved
  {
    FilterAllPass(saved, (x: Recipe) => x.id != id);
  }

  /** Deleting removes exactly the recipes carrying the id: one entry when ids are unique. */
  lemma {:induction false} WithoutRecipeLength(saved: seq<Recipe>, id: string)
    ensures |WithoutRecipe(saved, id)| == |saved| - Count(saved, (x: Recipe) => x.id == id)
  {
    FilterLength(saved, (x: Recipe) => x.id != id);
    CountComplement(saved, (x: Recipe) => x.id != id, (x: Recipe) => x.id == id);
  }

  /**
   * A profile after saving a recipe to it: unchanged when a recipe of the
   * same name is saved, otherwise the recipe is prepended to its list.
   */
  function ProfileWithRecipe(p: UserProfile, recipe: Recipe): (r: UserProfile)
    ensures r.id == p.id && r.name == p.name && r.createdAt == p.createdAt
    ensures r.answers == p.answers && r.weeklyPlan == p.weeklyPlan
    ensures SavedOf(r) == WithRecipe(SavedOf(p), recipe)
    ensures HasRecipeNamed(SavedOf(p), recipe.name) ==> r == p
  {
    if HasRecipeNamed(SavedOf(p), recipe.name) then p
    else p.(savedRecipes := Some([recipe] + SavedOf(p)))
  }

  /** Once saved, the recipe's name is in the profile's list, so a second save changes nothing. */
  lemma {:induction false} ProfileWithRecipeIdempotent(p: UserProfile, recipe: Recipe)
    ensures HasRecipeNamed(SavedOf(ProfileWithRecipe(p, recipe)), recipe.name)
    ensures ProfileWithRecipe(ProfileWithRecipe(p, recipe), recipe) == ProfileWithRecipe(p, recipe)
  {
  }

  /** `{ ...p, savedRecipes: (p.savedRecipes || []).filter(r => r.id !== id) }`. */
  function ProfileWithoutRecipe(p: UserProfile, id: string): (r: UserProfile)
    ensures r.id == p.id && r.name == p.name && r.createdAt == p.createdAt
    ensures r.answers == p.answers && r.weeklyPlan == p.weeklyPlan
    ensures r.savedRecipes == Some(WithoutRecipe(SavedOf(p), id))
  {
    p.(savedRecipes := Some(WithoutRecipe(SavedOf(p), id)))
  }

  /** The test `p => p.id === id`. */
  function HasId(id: string): UserProfile -> bool
  {
    (p: UserProfile) => p.id == id
  }

  /** `profiles.find(p => p.id === id)`: the first profile carrying the id. */
  function FindProfile(profiles: seq<UserProfile>, id: string): (r: Option<UserProfile>)
    ensures r.None? <==> forall i :: 0 <= i < |profiles| ==> profiles[i].id != id
    ensures r.Some? ==> r.value.id == id && r.value in profiles
    ensures r.Some? ==> exists i :: 0 <= i < |profiles| && profiles[i] == r.value
                                    && forall j :: 0 <= j < i ==> profiles[j].id != id
  {
    var k := FindFirst(profiles, HasId(id));
    if k < 0 then None else Some(profiles[k])
  }

  /** `profiles.map(p => p.id === id ? f(p) : p)`. */
  function MapProfile(profiles: seq<UserProfile>, id: string, f: UserProfile -> UserProfile): (r: seq<UserProfile>)
    ensures |r| == |profiles|
  {
    seq(|profiles|, i requires 0 <= i < |profiles| => if profiles[i].id == id then f(profiles[i]) else profiles[i])
  }

  /** Rewriting the profiles that carry an id leaves every other profile as it was. */
  lemma {:induction false} MapProfileOthers(profiles: seq<UserProfile>, id: string, f: UserProfile -> UserProfile, i: nat)
    requires i < |profiles| && profiles[i].id != id
    ensures MapProfile(profiles, id, f)[i] == profiles[i]
  {
  }

  /** When `f` keeps ids, the first profile carrying the id afterwards is `f` of the first one before. */
  lemma {:induction false} FindAfterMap(profiles: seq<UserProfile>, id: string, f: UserProfile -> UserProfile)
    requires forall p :: f(p).id == p.id
    ensures FindProfile(MapProfile(profiles, id, f), id)
            == if FindProfile(profiles, id).Some? then Some(f(FindProfile(profiles, id).value)) else None
  {
    var m := MapProfile(profiles, id, f);
    forall i | 0 <= i < |profiles|
      ensures HasId(id)(profiles[i]) <==> HasId(id)(m[i])
    {
    }
    FindFirstMapped(profiles, m, HasId(id), HasId(id));
    var k := FindFirst(profiles, HasId(id));
    if k >= 0 {
      assert m[k] == f(profiles[k]);
    }
  }

  /** Rewriting the same profiles twice with an idempotent, id-keeping rewrite is rewriting them once. */
  lemma {:induction false} MapProfileTwice(profiles: seq<UserProfile>, id: string, f: UserProfile -> UserProfile)
    requires forall p :: f(p).id == p.id && f(f(p)) == f(p)
    ensures MapProfile(MapProfile(profiles, id, f), id, f) == MapProfile(profiles, id, f)
  {
    var once := MapProfile(profiles, id, f);
    forall i | 0 <= i < |profiles| ensures MapProfile(once, id, f)[i] == once[i] {
      if profiles[i].id == id {
        assert once[i] == f(profiles[i]);
      }
    }
  }
}
