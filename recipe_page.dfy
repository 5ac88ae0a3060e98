/**
 * The full-page recipe view (src/pages/Recipe.jsx): cooking progress over
 * the meal's steps, the "already in the grocery list" test for each
 * ingredient, adding ingredients one at a time or all at once, and the
 * guard around swapping the meal.
 */
module RecipePage {
  import opened Common
  import opened Text
  import opened Domain

  /** `profile?.weeklyPlan?.groceryList || []` (an empty array is truthy). */
  function GroceryListOf(profile: Option<UserProfile>): (r: seq<GroceryEntry>)
    ensures profile.Some? && profile.value.weeklyPlan.Some? ==> r == profile.value.weeklyPlan.value.groceryList
    ensures profile.None? || profile.value.weeklyPlan.None? ==> r == []
  {
    if profile.Some? && profile.value.weeklyPlan.Some? then profile.value.weeklyPlan.value.groceryList else []
  }

  /** The text one side of the match compares with: the string, or `.item` (`''` when it is missing). */
  function EntryText(e: GroceryEntry): string
  {
    match e
    case TextEntry(t) => t
    case ItemEntry(item, _, _, _) => item.GetOr("")
    case NullEntry => ""
  }

  /**
   * One grocery entry matches an ingredient name when either contains the
   * other ignoring case. A null entry, and an object without `.item`, are
   * compared as `''`, which every name contains.
   */
  predicate EntryMatches(e: GroceryEntry, name: string)
  {
    var entry, wanted := Lower(EntryText(e)), Lower(name);
    Contains(entry, wanted) || Contains(wanted, entry)
  }

  /**
   * `isInGroceryList`: false without a name; otherwise true when some entry
   * matches the name or the name was added on this page.
   */
  predicate Listed(groceryList: seq<GroceryEntry>, added: set<string>, ing: Ingredient)
  {
    match IngredientName(ing)
    case None => false
    case Some(name) => (exists i :: 0 <= i < |groceryList| && EntryMatches(groceryList[i], name)) || name in added
  }

  /**
   * The list answers for a name in every way the page relies on: a nameless
   * ingredient is never listed, a name added on the page always is, and so
   * is a name equal to an entry up to case.
   */
  lemma {:induction false} ListedCases(groceryList: seq<GroceryEntry>, added: set<string>, ing: Ingredient)
    ensures IngredientName(ing).None? ==> !Listed(groceryList, added, ing)
    ensures IngredientName(ing).Some? && IngredientName(ing).value in added ==> Listed(groceryList, added, ing)
    ensures IngredientName(ing).Some?
            && (exists i :: 0 <= i < |groceryList| && EqualsIgnoreCase(EntryText(groceryList[i]), IngredientName(ing).value))
            ==> Listed(groceryList, added, ing)
  {
    if IngredientName(ing).Some? {
      var name := IngredientName(ing).value;
      if i :| 0 <= i < |groceryList| && EqualsIgnoreCase(EntryText(groceryList[i]), name) {
        ContainsSelf(Lower(name));
        assert EntryMatches(groceryList[i], name);
      }
    }
  }

  /**
   * Because `''` is contained in every text, one null entry or one object
   * without `.item` in the list makes every named ingredient count as listed.
   */
  lemma {:induction false} EmptyEntryListsEverything(groceryList: seq<GroceryEntry>, added: set<string>, ing: Ingredient, k: nat)
    requires k < |groceryList| && EntryText(groceryList[k]) == ""
    ensures Listed(groceryList, added, ing) <==> IngredientName(ing).Some?
  {
    if IngredientName(ing).Some? {
      ContainsEmpty(Lower(IngredientName(ing).value));
      assert EntryMatches(groceryList[k], IngredientName(ing).value);
    }
  }

  /** The rounded share of completed steps; 0 for a meal without steps. */
  function StepProgress(completed: nat, steps: nat): (r: nat)
    ensures steps == 0 ==> r == 0
    ensures completed <= steps ==> r <= 100
    ensures completed == 0 ==> r == 0
    ensures 0 < steps && completed == steps ==> r == 100
    ensures 0 < steps && completed <= steps ==> (r == 100 <==> 200 * completed >= 199 * steps)
  {
    if steps > 0 then
      RoundPercentRange(if completed <= steps then completed else 0, steps);
      if completed <= steps then RoundPercentFull(completed, steps); RoundPercent(completed, steps)
      else RoundPercent(completed, steps)
    else 0
  }

  /** With fewer than 200 steps the completion panel shows exactly when every step is done. */
  lemma {:induction false} CompletionPanelIffAllDone(completed: nat, steps: nat)
    requires 0 < steps < 200 && completed <= steps
    ensures StepProgress(completed, steps) == 100 <==> completed == steps
  {
    RoundPercentFull(completed, steps);
  }

  /**
   * The names `handleAddAllIngredients` hands on, in order: those of named
   * ingredients not listed when the button was pressed. Every check reads
   * the same rendered state, so a name repeated in the recipe is sent again.
   */
  function MissingNames(groceryList: seq<GroceryEntry>, added: set<string>, ingredients: seq<Ingredient>): (r: seq<string>)
    ensures forall j :: 0 <= j < |r| ==> r[j] !in added
    ensures forall i :: (0 <= i < |ingredients| && !Listed(groceryList, added, ingredients[i])
                         && IngredientName(ingredients[i]).Some?) ==> IngredientName(ingredients[i]).value in r
  {
    if |ingredients| == 0 then []
    else
      var ing := ingredients[0];
      var rest := MissingNames(groceryList, added, ingredients[1..]);
      if IngredientName(ing).Some? && !Listed(groceryList, added, ing) then [IngredientName(ing).value] + rest else rest
  }

  /** The names sent from position `i` on: that ingredient's name when it is sent, then the rest. */
  lemma {:induction false} MissingNamesFrom(groceryList: seq<GroceryEntry>, added: set<string>, ingredients: seq<Ingredient>, i: nat)
    requires i < |ingredients|
    ensures MissingNames(groceryList, added, ingredients[i..])
            == (if IngredientName(ingredients[i]).Some? && !Listed(groceryList, added, ingredients[i])
                then [IngredientName(ingredients[i]).value] else [])
               + MissingNames(groceryList, added, ingredients[i + 1..])
  {
    assert ingredients[i..][0] == ingredients[i];
    assert ingredients[i..][1..] == ingredients[i + 1..];
  }

  /** Once the missing names join the added set, every named ingredient of the meal is listed. */
  lemma {:induction false} AddingMissingListsAll(groceryList: seq<GroceryEntry>, added: set<string>, ingredients: seq<Ingredient>)
    ensures forall i :: 0 <= i < |ingredients| && IngredientName(ingredients[i]).Some? ==>
              Listed(groceryList, added + Elements(MissingNames(groceryList, added, ingredients)), ingredients[i])
  {
    var more := added + Elements(MissingNames(groceryList, added, ingredients));
    forall i | 0 <= i < |ingredients| && IngredientName(ingredients[i]).Some?
      ensures Listed(groceryList, more, ingredients[i])
    {
      if Listed(groceryList, added, ingredients[i]) {
        ListedAddedMore(groceryList, added, more, ingredients[i]);
      } else {
        ListedCases(groceryList, more, ingredients[i]);
      }
    }
  }

  /** Two plain ingredients with the same unlisted name are both sent. */
  lemma {:induction false} MissingNamesRepeat(groceryList: seq<GroceryEntry>, added: set<string>, name: string)
    requires name != "" && !Listed(groceryList, added, PlainIngredient(name))
    ensures MissingNames(groceryList, added, [PlainIngredient(name), PlainIngredient(name)]) == [name, name]
  {
    var two := [PlainIngredient(name), PlainIngredient(name)];
    assert two[1..] == [PlainIngredient(name)];
    assert [PlainIngredient(name)][1..] == [];
    assert MissingNames(groceryList, added, [PlainIngredient(name)]) == [name];
  }

  /** Every name handed on belongs to a named ingredient of the meal that was not listed. */
  lemma {:induction false} MissingNamesComeFromUnlisted(groceryList: seq<GroceryEntry>, added: set<string>, ingredients: seq<Ingredient>)
    ensures forall j :: 0 <= j < |MissingNames(groceryList, added, ingredients)| ==>
              exists k :: 0 <= k < |ingredients| && IngredientName(ingredients[k]) == Some(MissingNames(groceryList, added, ingredients)[j])
                          && !Listed(groceryList, added, ingredients[k])
  {
    if |ingredients| > 0 {
      var r := MissingNames(groceryList, added, ingredients);
      var rest := MissingNames(groceryList, added, ingredients[1..]);
      MissingNamesComeFromUnlisted(groceryList, added, ingredients[1..]);
      forall j | 0 <= j < |r|
        ensures exists k :: 0 <= k < |ingredients| && IngredientName(ingredients[k]) == Some(r[j]) && !Listed(groceryList, added, ingredients[k])
      {
        var taken := IngredientName(ingredients[0]).Some? && !Listed(groceryList, added, ingredients[0]);
        if taken && j == 0 {
          assert IngredientName(ingredients[0]) == Some(r[0]);
        } else {
          var j' := if taken then j - 1 else j;
          assert 0 <= j' < |rest| && r[j] == rest[j'];
          var k :| 0 <= k < |ingredients[1..]| && IngredientName(ingredients[1..][k]) == Some(rest[j']) && !Listed(groceryList, added, ingredients[1..][k]);
          assert ingredients[1..][k] == ingredients[k + 1];
        }
      }
    } else {
      assert MissingNames(groceryList, added, ingredients) == [];
    }
  }

  class RecipePage {
    var meal: PlannedMeal
    const dayIndex: Option<int>
    const groceryList: seq<GroceryEntry>
    var completedSteps: set<int>
    var addedIngredients: set<string>
    var isSwapping: bool

    /** The page opened on `meal` (from the navigation state) for the signed-in profile. */
    constructor(meal: PlannedMeal, dayIndex: Option<int>, profile: Option<UserProfile>)
      ensures this.meal == meal && this.dayIndex == dayIndex && groceryList == GroceryListOf(profile)
      ensures completedSteps == {} && addedIngredients == {} && !isSwapping
    {
      this.meal := meal;
      this.dayIndex := dayIndex;
      groceryList := GroceryListOf(profile);
      completedSteps := {};
      addedIngredients := {};
      isSwapping := false;
    }

    /** `progress`. */
    function Progress(): (r: nat)
      reads this
      ensures |InstructionsOf(meal)| == 0 ==> r == 0
      ensures completedSteps == {} ==> r == 0
    {
      StepProgress(|completedSteps|, |InstructionsOf(meal)|)
    }

    /** `isInGroceryList`. */
    predicate IsInGroceryList(ing: Ingredient)
      reads this
    {
      Listed(groceryList, addedIngredients, ing)
    }

    /** `toggleStep`: flips one step and no other. */
    method ToggleStep(index: int)
      modifies this
      ensures completedSteps == Toggle(old(completedSteps), index)
      ensures meal == old(meal) && addedIngredients == old(addedIngredients) && isSwapping == old(isSwapping)
    {
      completedSteps := Toggle(completedSteps, index);
    }

    /**
     * `handleAddIngredient`: nothing for a nameless or already listed
     * ingredient; otherwise the name joins the added set and is handed to
     * the callback once, after which the ingredient is listed.
     */
    method HandleAddIngredient(ing: Ingredient) returns (sent: Option<string>)
      modifies this
      ensures IngredientName(ing).None? || old(IsInGroceryList(ing)) ==>
                sent.None? && addedIngredients == old(addedIngredients)
      ensures IngredientName(ing).Some? && !old(IsInGroceryList(ing)) ==>
                sent == IngredientName(ing) && addedIngredients == old(addedIngredients) + {IngredientName(ing).value}
      ensures IngredientName(ing).Some? ==> IsInGroceryList(ing)
      ensures meal == old(meal) && completedSteps == old(completedSteps) && isSwapping == old(isSwapping)
    {
      var name := IngredientName(ing);
      if name.None? || IsInGroceryList(ing) {
        return None;
      }
      addedIngredients := addedIngredients + {name.value};
      sent := name;
    }

    /**
     * `handleAddAllIngredients`: one pass over the ingredients, each checked
     * against the state the page was rendered with; every unlisted named
     * ingredient is added and handed on.
     */
    method HandleAddAllIngredients() returns (sent: seq<string>)
      modifies this
      ensures sent == MissingNames(groceryList, old(addedIngredients), meal.ingredients)
      ensures addedIngredients == old(addedIngredients) + Elements(sent)
      ensures forall i :: 0 <= i < |meal.ingredients| && IngredientName(meal.ingredients[i]).Some?
                          ==> IsInGroceryList(meal.ingredients[i])
      ensures meal == old(meal) && completedSteps == old(completedSteps) && isSwapping == old(isSwapping)
    {
      var rendered := addedIngredients;
      var ingredients := meal.ingredients;
      sent := [];
      var i := 0;
      while i < |ingredients|
        invariant 0 <= i <= |ingredients|
        invariant sent + MissingNames(groceryList, rendered, ingredients[i..]) == MissingNames(groceryList, rendered, ingredients)
        invariant addedIngredients == rendered + Elements(sent)
        invariant meal == old(meal) && completedSteps == old(completedSteps) && isSwapping == old(isSwapping)
      {
        var ing := ingredients[i];
        MissingNamesFrom(groceryList, rendered, ingredients, i);
        if !Listed(groceryList, rendered, ing) && IngredientName(ing).Some? {
          var name := IngredientName(ing).value;
          assert sent + ([name] + MissingNames(groceryList, rendered, ingredients[i + 1..]))
              == (sent + [name]) + MissingNames(groceryList, rendered, ingredients[i + 1..]);
          ElementsSnoc(sent, name);
          addedIngredients := addedIngredients + {name};
          sent := sent + [name];
        }
        i := i + 1;
      }
      assert ingredients[i..] == [];
      AddingMissingListsAll(groceryList, rendered, ingredients);
    }

    /** The start of `handleSwapMeal`: nothing while a swap is in flight, else the flag goes up. */
    method StartSwap() returns (started: bool)
      modifies this
      ensures started == !old(isSwapping)
      ensures isSwapping
      ensures meal == old(meal) && completedSteps == old(completedSteps) && addedIngredients == old(addedIngredients)
    {
      if isSwapping {
        return false;
      }
      isSwapping := true;
      started := true;
    }

    /**
     * The end of `handleSwapMeal`, given the generated meal (`None` on
     * failure): with a new meal, a swap callback and a day index the swap is
     * requested and the page shows the new meal; the flag always comes down.
     * The step and ingredient sets carry over to the new meal.
     */
    method FinishSwap(newMeal: Option<PlannedMeal>, hasCallback: bool) returns (request: Option<SwapRequest>)
      requires isSwapping
      modifies this
      ensures !isSwapping
      ensures newMeal.Some? && hasCallback && dayIndex.Some? ==>
                request == Some(SwapRequest(dayIndex.value, old(meal), newMeal.value)) && meal == newMeal.value
      ensures !(newMeal.Some? && hasCallback && dayIndex.Some?) ==> request.None? && meal == old(meal)
      ensures completedSteps == old(completedSteps) && addedIngredients == old(addedIngredients)
    {
      request := None;
      if newMeal.Some? && hasCallback && dayIndex.Some? {
        request := Some(SwapRequest(dayIndex.value, meal, newMeal.value));
        meal := newMeal.value;
      }
      isSwapping := false;
    }
  }

  /** Adding names to the set never un-lists an ingredient. */
  lemma {:induction false} ListedAddedMore(groceryList: seq<GroceryEntry>, small: set<string>, large: set<string>, ing: Ingredient)
    requires small <= large && Listed(groceryList, small, ing)
    ensures Listed(groceryList, large, ing)
  {
  }
}
