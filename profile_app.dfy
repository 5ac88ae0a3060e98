/**
 * The multi-profile application (App.tsx): a list of profiles kept in
 * component state, the selected profile id, the shown view and the text
 * handed to the chat when a meal is swapped.
 */
module ProfileApp {
  import opened Common
  import opened Domain

  datatype AppView = Onboarding | Dashboard | QuickMeal | RecipeBook | ProfileSelect

  /** `!currentProfileId`: no selection, or the empty id (which is falsy). */
  predicate NoSelection(currentProfileId: Option<string>)
  {
    currentProfileId.None? || currentProfileId.value == ""
  }

  /** `profiles.find(p => p.id === currentProfileId)`: nothing matches a missing selection. */
  function SelectedProfile(profiles: seq<UserProfile>, currentProfileId: Option<string>): (r: Option<UserProfile>)
    ensures currentProfileId.None? ==> r.None?
    ensures currentProfileId.Some? ==> r == FindProfile(profiles, currentProfileId.value)
  {
    if currentProfileId.None? then None else FindProfile(profiles, currentProfileId.value)
  }

  /**
   * After appending a profile, looking up its id finds it, unless an
   * earlier profile already carried that id, which then still wins.
   */
  lemma {:induction false} FindAfterAppend(profiles: seq<UserProfile>, p: UserProfile)
    ensures FindProfile(profiles + [p], p.id)
            == if FindProfile(profiles, p.id).Some? then FindProfile(profiles, p.id) else Some(p)
  {
    FindFirstSnoc(profiles, p, HasId(p.id));
    var k := FindFirst(profiles, HasId(p.id));
    if k >= 0 {
      assert (profiles + [p])[k] == profiles[k];
    } else {
      assert (profiles + [p])[|profiles|] == p;
    }
  }

  class ProfileApp {
    var profiles: seq<UserProfile>
    var currentProfileId: Option<string>
    var currentView: AppView
    var initialChatInput: string

    /**
     * The mount effect: a stored, non-empty profile array is loaded, its
     * first profile selected and the dashboard shown; otherwise the app
     * starts empty in onboarding. `stored` is the parsed storage value
     * (`None` when missing, unparsable or not an array).
     */
    constructor(stored: Option<seq<UserProfile>>)
      ensures initialChatInput == ""
      ensures stored.Some? && |stored.value| > 0 ==>
                profiles == stored.value && currentProfileId == Some(stored.value[0].id) && currentView == Dashboard
      ensures !(stored.Some? && |stored.value| > 0) ==>
                profiles == [] && currentProfileId.None? && currentView == Onboarding
    {
      initialChatInput := "";
      if stored.Some? && |stored.value| > 0 {
        profiles := stored.value;
        currentProfileId := Some(stored.value[0].id);
        currentView := Dashboard;
      } else {
        profiles := [];
        currentProfileId := None;
        currentView := Onboarding;
      }
    }

    /** `currentProfile`. */
    function CurrentProfile(): (r: Option<UserProfile>)
      reads this
      ensures r.Some? ==> r.value in profiles && Some(r.value.id) == currentProfileId
      ensures currentProfileId.None? ==> r.None?
      ensures currentProfileId.Some? ==> r == FindProfile(profiles, currentProfileId.value)
    {
      SelectedProfile(profiles, currentProfileId)
    }

    /** `handleProfileComplete`: the new profile goes last, becomes the selection, and the dashboard is shown. */
    method HandleProfileComplete(newProfile: UserProfile)
      modifies this
      ensures profiles == old(profiles) + [newProfile]
      ensures currentProfileId == Some(newProfile.id) && currentView == Dashboard
      ensures initialChatInput == old(initialChatInput)
      ensures (forall i :: 0 <= i < |old(profiles)| ==> old(profiles)[i].id != newProfile.id)
              ==> CurrentProfile() == Some(newProfile)
    {
      FindAfterAppend(profiles, newProfile);
      profiles := profiles + [newProfile];
      currentProfileId := Some(newProfile.id);
      currentView := Dashboard;
    }

    /** `handleCreateNewProfile`: back to onboarding with nothing selected. */
    method HandleCreateNewProfile()
      modifies this
      ensures currentView == Onboarding && currentProfileId.None?
      ensures profiles == old(profiles) && initialChatInput == old(initialChatInput)
      ensures CurrentProfile().None?
    {
      currentView := Onboarding;
      currentProfileId := None;
    }

    /** `handleSwitchProfile`: select the id and show the dashboard. */
    method HandleSwitchProfile(id: string)
      modifies this
      ensures currentProfileId == Some(id) && currentView == Dashboard
      ensures profiles == old(profiles) && initialChatInput == old(initialChatInput)
      ensures CurrentProfile() == FindProfile(profiles, id)
    {
      currentProfileId := Some(id);
      currentView := Dashboard;
    }

    /**
     * `handleSaveRecipe`: with a selection, every profile carrying the
     * selected id gets the recipe saved (de-duplicated by name, prepended);
     * all other profiles stay as they were.
     */
    method HandleSaveRecipe(recipe: Recipe)
      modifies this
      ensures currentProfileId == old(currentProfileId) && currentView == old(currentView)
      ensures initialChatInput == old(initialChatInput)
      ensures NoSelection(currentProfileId) ==> profiles == old(profiles)
      ensures !NoSelection(currentProfileId) ==>
                profiles == MapProfile(old(profiles), currentProfileId.value, (p: UserProfile) => ProfileWithRecipe(p, recipe))
      ensures |profiles| == |old(profiles)|
      ensures forall i :: 0 <= i < |profiles| && Some(old(profiles)[i].id) != currentProfileId ==> profiles[i] == old(profiles)[i]
    {
      if NoSelection(currentProfileId) {
        return;
      }
      profiles := MapProfile(profiles, currentProfileId.value, (p: UserProfile) => ProfileWithRecipe(p, recipe));
    }

    /**
     * `handleDeleteRecipe`: with a selection, every profile carrying the
     * selected id loses the recipes with that recipe id.
     */
    method HandleDeleteRecipe(recipeId: string)
      modifies this
      ensures currentProfileId == old(currentProfileId) && currentView == old(currentView)
      ensures initialChatInput == old(initialChatInput)
      ensures NoSelection(currentProfileId) ==> profiles == old(profiles)
      ensures !NoSelection(currentProfileId) ==>
                profiles == MapProfile(old(profiles), currentProfileId.value, (p: UserProfile) => ProfileWithoutRecipe(p, recipeId))
      ensures |profiles| == |old(profiles)|
      ensures forall i :: 0 <= i < |profiles| && Some(old(profiles)[i].id) != currentProfileId ==> profiles[i] == old(profiles)[i]
    {
      if NoSelection(currentProfileId) {
        return;
      }
      profiles := MapProfile(profiles, currentProfileId.value, (p: UserProfile) => ProfileWithoutRecipe(p, recipeId));
    }

    /** `handleSwapMeal`: the request text goes to the chat, which is shown. */
    method HandleSwapMeal(text: string)
      modifies this
      ensures initialChatInput == text && currentView == QuickMeal
      ensures profiles == old(profiles) && currentProfileId == old(currentProfileId)
    {
      initialChatInput := text;
      currentView := QuickMeal;
    }
  }

  /** Saving the same recipe twice to the selected profile is the same as saving it once. */
  lemma {:induction false} SaveTwiceIsSaveOnce(profiles: seq<UserProfile>, id: string, recipe: Recipe)
    ensures var f := (p: UserProfile) => ProfileWithRecipe(p, recipe);
            MapProfile(MapProfile(profiles, id, f), id, f) == MapProfile(profiles, id, f)
  {
    var f := (p: UserProfile) => ProfileWithRecipe(p, recipe);
    forall p: UserProfile ensures f(p).id == p.id && f(f(p)) == f(p) {
      ProfileWithRecipeIdempotent(p, recipe);
    }
    MapProfileTwice(profiles, id, f);
  }

  /** Deleting the same recipe id twice from the selected profile is the same as deleting it once. */
  lemma {:induction false} DeleteTwiceIsDeleteOnce(profiles: seq<UserProfile>, id: string, recipeId: string)
    ensures var f := (p: UserProfile) => ProfileWithoutRecipe(p, recipeId);
            MapProfile(MapProfile(profiles, id, f), id, f) == MapProfile(profiles, id, f)
  {
    var f := (p: UserProfile) => ProfileWithoutRecipe(p, recipeId);
    forall p: UserProfile ensures f(p).id == p.id && f(f(p)) == f(p) {
      var kept := WithoutRecipe(SavedOf(p), recipeId);
      assert SavedOf(f(p)) == kept;
      WithoutAbsentRecipe(kept, recipeId);
    }
    MapProfileTwice(profiles, id, f);
  }
}
