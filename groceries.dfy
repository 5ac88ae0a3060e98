/**
 * The grocery page (src/pages/Groceries.jsx): checked items by index,
 * expanded category sections, the categorisation of the list into aisle
 * buckets (by the model service, with a cache key and an all-"other"
 * fallback), and the clear/add edits sent back to the plan.
 */
module Groceries {
  import opened Common
  import opened Text
  import opened Domain

  /** The order in which category sections are shown. */
  const CategoryOrder: seq<string> :=
    ["produce", "protein", "dairy", "pantry", "frozen", "beverages", "bakery", "snacks", "other"]

  lemma {:induction false} CategoryOrderDistinct()
    ensures Distinct(CategoryOrder)
  {
  }

  /** `typeof item === 'string' ? item : item?.name || item?.item || ''`: the text an entry adds to the cache key. */
  function EntryKey(e: GroceryEntry): string
  {
    match e
    case TextEntry(t) => t
    case NullEntry => ""
    case ItemEntry(item, name, _, _) =>
      if name.Some? && name.value != "" then name.value
      else if item.Some? && item.value != "" then item.value
      else ""
  }

  /** `typeof item === 'string' ? item : item?.name || item?.item || String(item)`: the fallback label. */
  function EntryLabel(e: GroceryEntry): (r: string)
    ensures e.ItemEntry? && EntryKey(e) != "" ==> r == EntryKey(e)
    ensures e.TextEntry? ==> r == e.text
  {
    match e
    case TextEntry(t) => t
    case NullEntry => "null"
    case ItemEntry(_, _, _, _) => if EntryKey(e) != "" then EntryKey(e) else "[object Object]"
  }

  function Keys(list: seq<GroceryEntry>): (r: seq<string>)
    ensures |r| == |list| && forall i :: 0 <= i < |list| ==> r[i] == EntryKey(list[i])
  {
    seq(|list|, i requires 0 <= i < |list| => EntryKey(list[i]))
  }

  /** The cache key: the entries' key texts joined with `'|'`. */
  function CacheKey(list: seq<GroceryEntry>): string
  {
    Join(Keys(list), "|")
  }

  /**
   * Distinct lists can share a cache key: a single item named "a|b" and
   * the two items "a" and "b". After one of them is categorised, the other
   * is not.
   */
  lemma {:induction false} CacheKeyCollision()
    ensures var one := [TextEntry("a|b")];
            var two := [TextEntry("a"), TextEntry("b")];
            one != two && CacheKey(one) == CacheKey(two)
  {
    var two := [TextEntry("a"), TextEntry("b")];
    assert Keys(two) == ["a", "b"];
    assert Keys(two)[1..] == ["b"];
    assert [TextEntry("a|b")] != two by {
      assert |two| == 2;
    }
  }

  /** An entry of a category bucket: its index in the grocery list, a display name, and the entry. */
  datatype CategorizedEntry = CategorizedEntry(index: nat, name: string, original: GroceryEntry)

  type Buckets = map<string, seq<CategorizedEntry>>

  /** The buckets used when categorisation fails: every entry, with its own index, under `'other'`. */
  function Fallback(list: seq<GroceryEntry>): (r: Buckets)
    ensures r.Keys == {"other"}
    ensures |r["other"]| == |list|
    ensures forall i :: 0 <= i < |list| ==> r["other"][i].index == i && r["other"][i].original == list[i]
  {
    map["other" := seq(|list|, i requires 0 <= i < |list| => CategorizedEntry(i, EntryLabel(list[i]), list[i]))]
  }

  function Indices(entries: seq<CategorizedEntry>): (r: seq<nat>)
    ensures |r| == |entries| && forall j :: 0 <= j < |entries| ==> r[j] == entries[j].index
  {
    seq(|entries|, j requires 0 <= j < |entries| => entries[j].index)
  }

  /** The indices `0, 1, …, n - 1` in order. */
  function IndexRange(n: nat): (r: seq<nat>)
    ensures |r| == n && forall i :: 0 <= i < n ==> r[i] == i
  {
    if n == 0 then [] else IndexRange(n - 1) + [n - 1]
  }

  /** The fallback lists each index of the grocery list exactly once, in order. */
  lemma {:induction false} FallbackCoversEachIndexOnce(list: seq<GroceryEntry>)
    ensures Indices(Fallback(list)["other"]) == IndexRange(|list|)
  {
  }

  /** A bucket shown as a section: present and non-empty. */
  predicate Shown(buckets: Buckets, category: string)
  {
    category in buckets && |buckets[category]| > 0
  }

  /** The test `cat => categorizedItems[cat]?.length > 0`. */
  function ShownIn(buckets: Buckets): string -> bool
  {
    c => Shown(buckets, c)
  }

  /** `sortedCategories`: the categories of the fixed order whose bucket is non-empty, in that order. */
  function SortedCategories(buckets: Buckets): (r: seq<string>)
    ensures IsSubsequence(r, CategoryOrder)
    ensures forall i :: 0 <= i < |r| ==> Shown(buckets, r[i]) && r[i] in CategoryOrder
    ensures forall c :: c in CategoryOrder && Shown(buckets, c) ==> c in r
    ensures Distinct(r)
  {
    ShownSectionsFacts(buckets);
    Filter(CategoryOrder, ShownIn(buckets))
  }

  lemma {:induction false} ShownSectionsFacts(buckets: Buckets)
    ensures var r := Filter(CategoryOrder, ShownIn(buckets));
            Distinct(r) && forall c :: c in CategoryOrder && Shown(buckets, c) ==> c in r
  {
    var r := Filter(CategoryOrder, ShownIn(buckets));
    forall c | c in CategoryOrder && Shown(buckets, c)
      ensures c in r
    {
      var i :| 0 <= i < |CategoryOrder| && CategoryOrder[i] == c;
      assert ShownIn(buckets)(CategoryOrder[i]);
    }
    CategoryOrderDistinct();
    SubsequenceDistinct(r, CategoryOrder);
  }

  /** A bucket under a name outside the fixed order is never shown. */
  lemma {:induction false} UnknownCategoryHidden(buckets: Buckets, category: string)
    requires category !in CategoryOrder
    ensures category !in SortedCategories(buckets)
  {
  }

  /**
   * For a failed categorisation of a non-empty list only the `'other'`
   * section is shown (once, since the sections are distinct).
   */
  lemma {:induction false} FallbackSections(list: seq<GroceryEntry>)
    requires |list| > 0
    ensures "other" in SortedCategories(Fallback(list))
    ensures forall i :: 0 <= i < |SortedCategories(Fallback(list))| ==> SortedCategories(Fallback(list))[i] == "other"
  {
    assert CategoryOrder[8] == "other";
  }

  /** The shopping progress `Math.round(checked / total * 100)`, shown for a non-empty list. */
  function Progress(checkedCount: nat, totalItems: nat): (r: nat)
    requires totalItems > 0
    ensures checkedCount <= totalItems ==> r <= 100
    ensures checkedCount == 0 ==> r == 0
    ensures checkedCount == totalItems ==> r == 100
  {
    RoundPercentRange(if checkedCount <= totalItems then checkedCount else 0, totalItems);
    RoundPercent(checkedCount, totalItems)
  }

  /** The "all items checked" banner. */
  predicate AllChecked(checkedCount: nat, totalItems: nat)
  {
    checkedCount == totalItems && totalItems > 0
  }

  /**
   * The banner implies a full bar, but a full (rounded) bar does not imply
   * the banner: 199 of 200 rounds to 100%.
   */
  lemma {:induction false} BannerAndProgress(checkedCount: nat, totalItems: nat)
    ensures AllChecked(checkedCount, totalItems) ==> Progress(checkedCount, totalItems) == 100
    ensures Progress(199, 200) == 100 && !AllChecked(199, 200)
  {
  }

  /** The number of checked indices below `n`. */
  function CheckedBelow(n: nat, checked: set<int>): nat
  {
    if n == 0 then 0 else CheckedBelow(n - 1, checked) + (if n - 1 in checked then 1 else 0)
  }

  /** The indices below `n` that are not checked, in increasing order. */
  function UncheckedIndices(n: nat, checked: set<int>): (r: seq<nat>)
    ensures |r| <= n
    ensures forall j :: 0 <= j < |r| ==> r[j] < n && r[j] !in checked
    ensures forall j, k :: 0 <= j < k < |r| ==> r[j] < r[k]
    ensures forall i :: 0 <= i < n && i !in checked ==> i in r
    ensures |r| + CheckedBelow(n, checked) == n
  {
    if n == 0 then []
    else
      var rest := UncheckedIndices(n - 1, checked);
      if n - 1 in checked then rest else rest + [n - 1]
  }

  /** `groceryList.filter((_, index) => !checkedItems.has(index))`. */
  function KeepUnchecked(list: seq<GroceryEntry>, checked: set<int>): (r: seq<GroceryEntry>)
    ensures var idx := UncheckedIndices(|list|, checked);
            |r| == |idx| && forall j :: 0 <= j < |r| ==> r[j] == list[idx[j]]
  {
    var idx := UncheckedIndices(|list|, checked);
    seq(|idx|, j requires 0 <= j < |idx| => list[idx[j]])
  }

  /** With no checked index inside the list, clearing keeps the whole list. */
  lemma {:induction false} KeepAllUnchecked(list: seq<GroceryEntry>, checked: set<int>)
    requires forall i :: 0 <= i < |list| ==> i !in checked
    ensures KeepUnchecked(list, checked) == list
  {
    NoneCheckedIndices(|list|, checked);
  }

  lemma {:induction false} NoneCheckedIndices(n: nat, checked: set<int>)
    requires forall i :: 0 <= i < n ==> i !in checked
    ensures UncheckedIndices(n, checked) == IndexRange(n)
  {
    if n > 0 {
      NoneCheckedIndices(n - 1, checked);
      assert n - 1 !in checked;
      assert UncheckedIndices(n, checked) == UncheckedIndices(n - 1, checked) + [n - 1];
    }
  }

  /** The state of the grocery page for the grocery list it is given. */
  class GroceryPage {
    const groceryList: seq<GroceryEntry>
    var checkedItems: set<int>
    var expandedCategories: set<string>
    var newItemText: string
    var showAddInput: bool
    var categorizedItems: Buckets
    var lastCategorizedList: string

    /** Nothing checked, every section expanded, no buckets and no cache key yet. */
    constructor(groceryList: seq<GroceryEntry>)
      ensures this.groceryList == groceryList
      ensures checkedItems == {} && newItemText == "" && !showAddInput
      ensures expandedCategories == set c | c in CategoryOrder
      ensures categorizedItems == map[] && lastCategorizedList == ""
    {
      this.groceryList := groceryList;
      checkedItems := {};
      expandedCategories := set c | c in CategoryOrder;
      newItemText := "";
      showAddInput := false;
      categorizedItems := map[];
      lastCategorizedList := "";
    }

    /** `toggleItem`: the index flips in or out of the checked set; every other index stays. */
    method ToggleItem(index: int)
      modifies this
      ensures checkedItems == Toggle(old(checkedItems), index)
      ensures expandedCategories == old(expandedCategories) && categorizedItems == old(categorizedItems)
      ensures lastCategorizedList == old(lastCategorizedList) && newItemText == old(newItemText)
      ensures showAddInput == old(showAddInput)
    {
      checkedItems := Toggle(checkedItems, index);
    }

    /** `toggleCategory`: the category's section flips between expanded and collapsed. */
    method ToggleCategory(category: string)
      modifies this
      ensures expandedCategories == Toggle(old(expandedCategories), category)
      ensures checkedItems == old(checkedItems) && categorizedItems == old(categorizedItems)
      ensures lastCategorizedList == old(lastCategorizedList) && newItemText == old(newItemText)
      ensures showAddInput == old(showAddInput)
    {
      expandedCategories := Toggle(expandedCategories, category);
    }

    /**
     * `clearCompleted`: with something checked, the unchecked items are
     * sent in their order, the checked set is emptied and the cache key
     * reset. Returns the list sent to `onUpdateGroceries`, if any.
     */
    method ClearCompleted() returns (sent: Option<seq<GroceryEntry>>)
      modifies this
      ensures old(checkedItems) == {} ==> sent.None? && unchanged(this)
      ensures old(checkedItems) != {} ==>
                && sent == Some(KeepUnchecked(groceryList, old(checkedItems)))
                && checkedItems == {} && lastCategorizedList == ""
                && expandedCategories == old(expandedCategories) && categorizedItems == old(categorizedItems)
                && newItemText == old(newItemText) && showAddInput == old(showAddInput)
    {
      if |checkedItems| == 0 {
        return None;
      }
      sent := Some(KeepUnchecked(groceryList, checkedItems));
      checkedItems := {};
      lastCategorizedList := "";
    }

    /**
     * `handleAddItem`: blank text is ignored; otherwise the trimmed text is
     * sent appended to the list, the input is cleared and hidden, and the
     * cache key reset.
     */
    method HandleAddItem() returns (sent: Option<seq<GroceryEntry>>)
      modifies this
      ensures IsBlank(old(newItemText)) ==> sent.None? && unchanged(this)
      ensures !IsBlank(old(newItemText)) ==>
                && sent == Some(groceryList + [TextEntry(Trim(old(newItemText)))])
                && newItemText == "" && !showAddInput && lastCategorizedList == ""
                && checkedItems == old(checkedItems) && categorizedItems == old(categorizedItems)
                && expandedCategories == old(expandedCategories)
    {
      var text := Trim(newItemText);
      if text == "" {
        return None;
      }
      sent := Some(groceryList + [TextEntry(text)]);
      newItemText := "";
      showAddInput := false;
      lastCategorizedList := "";
    }

    /**
     * `runCategorization`, with the model service's answer as a parameter
     * (`None` when the call fails): an empty list empties the buckets; a
     * list whose key was categorised last is skipped; a success stores the
     * buckets and the key; a failure stores the fallback and keeps the old key.
     */
    method RunCategorization(result: Option<Buckets>)
      modifies this
      ensures checkedItems == old(checkedItems) && expandedCategories == old(expandedCategories)
      ensures newItemText == old(newItemText) && showAddInput == old(showAddInput)
      ensures |groceryList| == 0 ==> categorizedItems == map[] && lastCategorizedList == old(lastCategorizedList)
      ensures |groceryList| > 0 && CacheKey(groceryList) == old(lastCategorizedList) ==> unchanged(this)
      ensures |groceryList| > 0 && CacheKey(groceryList) != old(lastCategorizedList) && result.Some? ==>
                categorizedItems == result.value && lastCategorizedList == CacheKey(groceryList)
      ensures |groceryList| > 0 && CacheKey(groceryList) != old(lastCategorizedList) && result.None? ==>
                categorizedItems == Fallback(groceryList) && lastCategorizedList == old(lastCategorizedList)
    {
      if |groceryList| == 0 {
        categorizedItems := map[];
        return;
      }
      var cacheKey := CacheKey(groceryList);
      if cacheKey == lastCategorizedList {
        return;
      }
      if result.Some? {
        categorizedItems := result.value;
        lastCategorizedList := cacheKey;
      } else {
        categorizedItems := Fallback(groceryList);
      }
    }
  }
}
