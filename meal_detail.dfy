/**
 * The meal detail modal (src/components/MealDetailModal.jsx) opened from
 * the planner: which ingredients are already on the plan's grocery list,
 * the per-ingredient add/remove toggle, and "add all missing ingredients".
 */
module MealDetail {
  import opened Common
  import opened Text
  import opened Domain

  /**
   * The name the modal reads from a grocery entry, as written: the string
   * itself, or the object's `.name`; nothing for a null entry or an empty
   * name.
   */
  function EntryNameAsWritten(e: GroceryEntry): (r: Option<string>)
    ensures r.Some? ==> r.value != ""
    ensures e.ItemEntry? ==> r == (if e.name.Some? && e.name.value != "" then e.name else None)
  {
    match e
    case NullEntry => None
    case TextEntry(t) => if t == "" then None else Some(t)
    case ItemEntry(_, name, _, _) => if name.Some? && name.value != "" then name else None
  }

  /**
   * The name the modal should read: generated grocery items carry their
   * text in `.item` (the plan schema requires `item` and `category`), so an
   * object falls back from `.name` to `.item`, as the grocery page does.
   */
  function EntryName(e: GroceryEntry): (r: Option<string>)
    ensures r.Some? ==> r.value != ""
    ensures EntryNameAsWritten(e).Some? ==> r == EntryNameAsWritten(e)
    ensures e.ItemEntry? && EntryNameAsWritten(e).None? ==> r == (if e.item.Some? && e.item.value != "" then e.item else None)
  {
    match e
    case ItemEntry(item, name, _, _) =>
      if name.Some? && name.value != "" then name
      else if item.Some? && item.value != "" then item
      else None
    case _ => EntryNameAsWritten(e)
  }

  /** Either text contains the other, ignoring case. */
  predicate NamesOverlap(a: string, b: string)
  {
    Contains(Lower(a), Lower(b)) || Contains(Lower(b), Lower(a))
  }

  /** `isInGroceryList` as written: only the string or the `.name` of an entry is compared. */
  predicate InListAsWritten(groceryList: seq<GroceryEntry>, ing: Ingredient)
  {
    match IngredientName(ing)
    case None => false
    case Some(name) =>
      exists i :: 0 <= i < |groceryList| && EntryNameAsWritten(groceryList[i]).Some?
                  && NamesOverlap(EntryNameAsWritten(groceryList[i]).value, name)
  }

  /** `isInGroceryList` with the entry name read from `.name`, else `.item`. */
  predicate InList(groceryList: seq<GroceryEntry>, ing: Ingredient)
  {
    match IngredientName(ing)
    case None => false
    case Some(name) =>
      exists i :: 0 <= i < |groceryList| && EntryName(groceryList[i]).Some?
                  && NamesOverlap(EntryName(groceryList[i]).value, name)
  }

  /**
   * A generated grocery item (`item`, `category`, no `name`) is never
   * recognised as written, even when it names the ingredient exactly; the
   * corrected test recognises it.
   */
  lemma {:induction false} GeneratedItemMissedAsWritten()
    ensures var list := [ItemEntry(Some("Chicken breast"), None, Some("Protein"), None)];
            var ing := MeasuredIngredient(Some("chicken breast"), Some("2"));
            !InListAsWritten(list, ing) && InList(list, ing)
  {
    var list := [ItemEntry(Some("Chicken breast"), None, Some("Protein"), None)];
    var name := "chicken breast";
    assert Lower("Chicken breast") == name;
    assert Lower(name) == name;
    ContainsSelf(name);
    assert NamesOverlap(EntryName(list[0]).value, name);
  }

  /**
   * The corrected test agrees with the written one on strings and named
   * objects, and recognises more: whatever the written test finds, it finds.
   */
  lemma {:induction false} InListExtendsAsWritten(groceryList: seq<GroceryEntry>, ing: Ingredient)
    ensures InListAsWritten(groceryList, ing) ==> InList(groceryList, ing)
    ensures (forall i :: 0 <= i < |groceryList| ==> !groceryList[i].ItemEntry?)
            ==> (InList(groceryList, ing) <==> InListAsWritten(groceryList, ing))
  {
  }

  /** An ingredient named like some entry up to case is recognised; a nameless one never is. */
  lemma {:induction false} InListCases(groceryList: seq<GroceryEntry>, ing: Ingredient, k: nat)
    requires k < |groceryList|
    ensures IngredientName(ing).None? ==> !InList(groceryList, ing)
    ensures IngredientName(ing).Some? && EntryName(groceryList[k]).Some?
            && EqualsIgnoreCase(EntryName(groceryList[k]).value, IngredientName(ing).value)
            ==> InList(groceryList, ing)
  {
    if IngredientName(ing).Some? && EntryName(groceryList[k]).Some? {
      ContainsSelf(Lower(IngredientName(ing).value));
    }
  }

  /** What a toggle hands to the parent: an added name, a removed name, or nothing. */
  datatype ToggleEvent = NoEvent | AddedName(name: string) | RemovedName(name: string)

  /**
   * The names "add all" hands on, in order: named ingredients neither on the
   * list nor added, each checked against the state the modal was rendered
   * with (a repeated name is sent again).
   */
  function MissingNames(groceryList: seq<GroceryEntry>, added: set<string>, ingredients: seq<Ingredient>): (r: seq<string>)
    ensures forall j :: 0 <= j < |r| ==> r[j] !in added && r[j] != ""
    ensures forall i :: (0 <= i < |ingredients| && IngredientName(ingredients[i]).Some?
                         && !InList(groceryList, ingredients[i]) && IngredientName(ingredients[i]).value !in added)
                        ==> IngredientName(ingredients[i]).value in r
  {
    if |ingredients| == 0 then []
    else
      var ing := ingredients[0];
      var rest := MissingNames(groceryList, added, ingredients[1..]);
      if IngredientName(ing).Some? && !InList(groceryList, ing) && IngredientName(ing).value !in added
      then [IngredientName(ing).value] + rest
      else rest
  }

  /** The names sent from position `i` on: that ingredient's name when it is sent, then the rest. */
  lemma {:induction false} MissingNamesFrom(groceryList: seq<GroceryEntry>, added: set<string>, ingredients: seq<Ingredient>, i: nat)
    requires i < |ingredients|
    ensures MissingNames(groceryList, added, ingredients[i..])
            == (if IngredientName(ingredients[i]).Some? && !InList(groceryList, ingredients[i])
                   && IngredientName(ingredients[i]).value !in added
                then [IngredientName(ingredients[i]).value] else [])
               + MissingNames(groceryList, added, ingredients[i + 1..])
  {
    assert ingredients[i..][0] == ingredients[i];
    assert ingredients[i..][1..] == ingredients[i + 1..];
  }

  /** Once the missing names join the added set, every named ingredient is on the list or added. */
  lemma {:induction false} AddingMissingCoversAll(groceryList: seq<GroceryEntry>, added: set<string>, ingredients: seq<Ingredient>)
    ensures forall i :: 0 <= i < |ingredients| && IngredientName(ingredients[i]).Some? ==>
              InList(groceryList, ingredients[i])
              || IngredientName(ingredients[i]).value in added + Elements(MissingNames(groceryList, added, ingredients))
  {
  }

  /** The ingredient that the `j`-th name handed on comes from. */
  lemma {:induction false} MissingNameSource(groceryList: seq<GroceryEntry>, added: set<string>, ingredients: seq<Ingredient>, j: nat)
    returns (k: nat)
    requires j < |MissingNames(groceryList, added, ingredients)|
    ensures k < |ingredients|
    ensures IngredientName(ingredients[k]) == Some(MissingNames(groceryList, added, ingredients)[j])
    ensures !InList(groceryList, ingredients[k])
  {
    var ing := ingredients[0];
    var rest := MissingNames(groceryList, added, ingredients[1..]);
    if IngredientName(ing).Some? && !InList(groceryList, ing) && IngredientName(ing).value !in added {
      if j == 0 {
        k := 0;
      } else {
        var k' := MissingNameSource(groceryList, added, ingredients[1..], j - 1);
        k := k' + 1;
      }
    } else {
      var k' := MissingNameSource(groceryList, added, ingredients[1..], j);
      k := k' + 1;
    }
  }

  /** Some ingredient of the meal carries `name` and is not on the grocery list. */
  predicate UnlistedIngredientNamed(groceryList: seq<GroceryEntry>, ingredients: seq<Ingredient>, name: string)
  {
    exists k :: 0 <= k < |ingredients| && IngredientName(ingredients[k]) == Some(name) && !InList(groceryList, ingredients[k])
  }

  /** Every name handed on belongs to a named ingredient of the meal that was not listed. */
  lemma {:induction false} MissingNamesComeFromUnlisted(groceryList: seq<GroceryEntry>, added: set<string>, ingredients: seq<Ingredient>)
    ensures forall j :: 0 <= j < |MissingNames(groceryList, added, ingredients)| ==>
              UnlistedIngredientNamed(groceryList, ingredients, MissingNames(groceryList, added, ingredients)[j])
  {
    var r := MissingNames(groceryList, added, ingredients);
    forall j | 0 <= j < |r|
      ensures UnlistedIngredientNamed(groceryList, ingredients, r[j])
    {
      var k := MissingNameSource(groceryList, added, ingredients, j);
      assert 0 <= k < |ingredients| && IngredientName(ingredients[k]) == Some(r[j]) && !InList(groceryList, ingredients[k]);
    }
  }

  class MealDetailModal {
    const meal: PlannedMeal
    const groceryList: seq<GroceryEntry>
    var addedIngredients: set<string>

    constructor(meal: PlannedMeal, groceryList: seq<GroceryEntry>)
      ensures this.meal == meal && this.groceryList == groceryList && addedIngredients == {}
    {
      this.meal := meal;
      this.groceryList := groceryList;
      addedIngredients := {};
    }

    /** `isInGroceryList`, reading `.name` and then `.item` of each entry. */
    predicate IsInGroceryList(ing: Ingredient)
      reads this
    {
      InList(groceryList, ing)
    }

    /**
     * `handleToggleIngredient`: nothing without a name; an added name is
     * removed (and reported removed), any other is added (and reported added).
     */
    method HandleToggleIngredient(ing: Ingredient) returns (event: ToggleEvent)
      modifies this
      ensures IngredientName(ing).None? ==> event == NoEvent && addedIngredients == old(addedIngredients)
      ensures IngredientName(ing).Some? ==>
                var name := IngredientName(ing).value;
                addedIngredients == Toggle(old(addedIngredients), name)
                && event == (if name in old(addedIngredients) then RemovedName(name) else AddedName(name))
    {
      var name := IngredientName(ing);
      if name.None? {
        return NoEvent;
      }
      if name.value in addedIngredients {
        addedIngredients := addedIngredients - {name.value};
        event := RemovedName(name.value);
      } else {
        addedIngredients := addedIngredients + {name.value};
        event := AddedName(name.value);
      }
    }

    /**
     * `handleAddAllIngredients`: one pass over the ingredients, checked
     * against the rendered state; every named ingredient neither on the list
     * nor added is added and handed on.
     */
    method HandleAddAllIngredients() returns (sent: seq<string>)
      modifies this
      ensures sent == MissingNames(groceryList, old(addedIngredients), meal.ingredients)
      ensures addedIngredients == old(addedIngredients) + Elements(sent)
      ensures forall i :: 0 <= i < |meal.ingredients| && IngredientName(meal.ingredients[i]).Some? ==>
                          IsInGroceryList(meal.ingredients[i]) || IngredientName(meal.ingredients[i]).value in addedIngredients
    {
      var rendered := addedIngredients;
      var ingredients := meal.ingredients;
      sent := [];
      var i := 0;
      while i < |ingredients|
        invariant 0 <= i <= |ingredients|
        invariant sent + MissingNames(groceryList, rendered, ingredients[i..]) == MissingNames(groceryList, rendered, ingredients)
        invariant addedIngredients == rendered + Elements(sent)
      {
        var ing := ingredients[i];
        MissingNamesFrom(groceryList, rendered, ingredients, i);
        var name := IngredientName(ing);
        if name.Some? && !InList(groceryList, ing) && name.value !in rendered {
          assert sent + ([name.value] + MissingNames(groceryList, rendered, ingredients[i + 1..]))
              == (sent + [name.value]) + MissingNames(groceryList, rendered, ingredients[i + 1..]);
          ElementsSnoc(sent, name.value);
          addedIngredients := addedIngredients + {name.value};
          sent := sent + [name.value];
        }
        i := i + 1;
      }
      assert ingredients[i..] == [];
      AddingMissingCoversAll(groceryList, rendered, ingredients);
    }
  }

}
