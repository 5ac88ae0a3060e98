/**
 * The profile store of src/services/databaseService.js: the local-storage
 * branch keeps every profile in one parsed array, which the operations
 * read, rewrite with `map`, and write back; the remote branch is modelled
 * only as far as the columns an update sends.
 */
module DatabaseService {
  import opened Common
  import opened Domain

  /**
   * A partial profile object passed as `updates`: each key is absent
   * (left out of the object) or present with its new value.
   */
  datatype ProfileUpdate = ProfileUpdate(
    name: Field<string>,
    answers: Field<seq<UserAnswer>>,
    weeklyPlan: Field<Option<WeeklyPlan>>,
    savedRecipes: Field<Option<seq<Recipe>>>)

  const NoChange := ProfileUpdate(Absent, Absent, Absent, Absent)

  /** `{ savedRecipes: recipes }`. */
  function SavedUpdate(recipes: seq<Recipe>): ProfileUpdate
  {
    ProfileUpdate(Absent, Absent, Absent, Present(Some(recipes)))
  }

  /** `{ ...p, ...updates }`: present keys overwrite, every other key stays. */
  function Merge(p: UserProfile, u: ProfileUpdate): (r: UserProfile)
    ensures r.id == p.id && r.createdAt == p.createdAt
    ensures r.name == (if u.name.Present? then u.name.value else p.name)
    ensures r.answers == (if u.answers.Present? then u.answers.value else p.answers)
    ensures r.weeklyPlan == (if u.weeklyPlan.Present? then u.weeklyPlan.value else p.weeklyPlan)
    ensures r.savedRecipes == (if u.savedRecipes.Present? then u.savedRecipes.value else p.savedRecipes)
  {
    p.(name := u.name.Over(p.name),
       answers := u.answers.Over(p.answers),
       weeklyPlan := u.weeklyPlan.Over(p.weeklyPlan),
       savedRecipes := u.savedRecipes.Over(p.savedRecipes))
  }

  /** The later of two updates wins key by key: `{ ...u, ...v }`. */
  function Then(u: ProfileUpdate, v: ProfileUpdate): ProfileUpdate
  {
    ProfileUpdate(
      if v.name.Present? then v.name else u.name,
      if v.answers.Present? then v.answers else u.answers,
      if v.weeklyPlan.Present? then v.weeklyPlan else u.weeklyPlan,
      if v.savedRecipes.Present? then v.savedRecipes else u.savedRecipes)
  }

  /** An empty update object changes nothing, and merging the same update twice is merging it once. */
  lemma {:induction false} MergeNeutralAndIdempotent(p: UserProfile, u: ProfileUpdate)
    ensures Merge(p, NoChange) == p
    ensures Merge(Merge(p, u), u) == Merge(p, u)
  {
  }

  /** Two updates in a row are one update with the later keys on top. */
  lemma {:induction false} MergeThen(p: UserProfile, u: ProfileUpdate, v: ProfileUpdate)
    ensures Merge(Merge(p, u), v) == Merge(p, Then(u, v))
  {
  }

  /** A column value sent to the `profiles` table. */
  datatype ColumnValue =
    | TextColumn(text: string)
    | AnswersColumn(answers: seq<UserAnswer>)
    | PlanColumn(plan: Option<WeeklyPlan>)
    | RecipesColumn(recipes: Option<seq<Recipe>>)

  /** The snake_case columns a remote update may touch. */
  const UpdatableColumns: set<string> := {"name", "answers", "weekly_plan", "saved_recipes"}

  /**
   * The object sent to the table: one column per key defined in `updates`,
   * with `weeklyPlan` renamed `weekly_plan` and `savedRecipes` renamed
   * `saved_recipes`.
   */
  function RemoteUpdates(u: ProfileUpdate): (r: map<string, ColumnValue>)
    ensures r.Keys <= UpdatableColumns
    ensures "name" in r <==> u.name.Present?
    ensures "answers" in r <==> u.answers.Present?
    ensures "weekly_plan" in r <==> u.weeklyPlan.Present?
    ensures "saved_recipes" in r <==> u.savedRecipes.Present?
  {
    var m0: map<string, ColumnValue> := map[];
    var m1 := if u.name.Present? then m0["name" := TextColumn(u.name.value)] else m0;
    var m2 := if u.answers.Present? then m1["answers" := AnswersColumn(u.answers.value)] else m1;
    var m3 := if u.weeklyPlan.Present? then m2["weekly_plan" := PlanColumn(u.weeklyPlan.value)] else m2;
    if u.savedRecipes.Present? then m3["saved_recipes" := RecipesColumn(u.savedRecipes.value)] else m3
  }

  /** A row of the `profiles` table. */
  datatype ProfileRow = ProfileRow(
    id: string,
    name: string,
    createdAt: int,
    answers: seq<UserAnswer>,
    weeklyPlan: Option<WeeklyPlan>,
    savedRecipes: Option<seq<Recipe>>)

  function RowOf(p: UserProfile): ProfileRow
  {
    ProfileRow(p.id, p.name, p.createdAt, p.answers, p.weeklyPlan, p.savedRecipes)
  }

  /** The table's `update`: each sent column of the right kind replaces the stored one. */
  function ApplyColumns(row: ProfileRow, cols: map<string, ColumnValue>): ProfileRow
  {
    var r1 := if "name" in cols && cols["name"].TextColumn? then row.(name := cols["name"].text) else row;
    var r2 := if "answers" in cols && cols["answers"].AnswersColumn? then r1.(answers := cols["answers"].answers) else r1;
    var r3 := if "weekly_plan" in cols && cols["weekly_plan"].PlanColumn? then r2.(weeklyPlan := cols["weekly_plan"].plan) else r2;
    if "saved_recipes" in cols && cols["saved_recipes"].RecipesColumn? then r3.(savedRecipes := cols["saved_recipes"].recipes) else r3
  }

  /** The remote update stores the same profile the local merge computes. */
  lemma {:induction false} RemoteMatchesLocal(p: UserProfile, u: ProfileUpdate)
    ensures ApplyColumns(RowOf(p), RemoteUpdates(u)) == RowOf(Merge(p, u))
  {
    var cols := RemoteUpdates(u);
    if u.name.Present? {
      assert cols["name"] == TextColumn(u.name.value);
    }
    if u.answers.Present? {
      assert cols["answers"] == AnswersColumn(u.answers.value);
    }
    if u.weeklyPlan.Present? {
      assert cols["weekly_plan"] == PlanColumn(u.weeklyPlan.value);
    }
  }

  /** Saving through the store gives the profile `ProfileWithRecipe` describes. */
  lemma {:induction false} SavedUpdateIsProfileWithRecipe(p: UserProfile, recipe: Recipe)
    ensures !HasRecipeNamed(SavedOf(p), recipe.name)
            ==> Merge(p, SavedUpdate([recipe] + SavedOf(p))) == ProfileWithRecipe(p, recipe)
  {
  }

  /** Deleting through the store gives the profile `ProfileWithoutRecipe` describes. */
  lemma {:induction false} SavedUpdateIsProfileWithoutRecipe(p: UserProfile, id: string)
    ensures Merge(p, SavedUpdate(WithoutRecipe(SavedOf(p), id))) == ProfileWithoutRecipe(p, id)
  {
  }

  /** The profile array kept under the storage key (`[]` when nothing is saved yet). */
  class LocalProfileStore {
    var profiles: seq<UserProfile>

    constructor(saved: seq<UserProfile>)
      ensures profiles == saved
    {
      profiles := saved;
    }

    /** `getProfile`: the first stored profile carrying the id, or null. */
    method GetProfile(userId: string) returns (r: Option<UserProfile>)
      ensures r.None? <==> forall i :: 0 <= i < |profiles| ==> profiles[i].id != userId
      ensures r.Some? ==> r.value.id == userId && r.value in profiles
      ensures r == FindProfile(profiles, userId)
    {
      r := FindProfile(profiles, userId);
    }

    /**
     * `updateProfile`: every profile carrying the id gets the update merged
     * in, the rest stay, and the first updated profile is returned.
     */
    method UpdateProfile(userId: string, u: ProfileUpdate) returns (r: Option<UserProfile>)
      modifies this
      ensures profiles == MapProfile(old(profiles), userId, (p: UserProfile) => Merge(p, u))
      ensures |profiles| == |old(profiles)|
      ensures forall i :: 0 <= i < |profiles| && old(profiles)[i].id != userId ==> profiles[i] == old(profiles)[i]
      ensures r == (if FindProfile(old(profiles), userId).Some? then Some(Merge(FindProfile(old(profiles), userId).value, u)) else None)
    {
      var f := (p: UserProfile) => Merge(p, u);
      profiles := MapProfile(profiles, userId, f);
      FindAfterMap(old(profiles), userId, f);
      r := FindProfile(profiles, userId);
    }

    /**
     * `saveRecipe`: nothing for an unknown profile; the profile unchanged
     * when a recipe of the same name is saved; otherwise the recipe is
     * prepended to the saved list.
     */
    method SaveRecipe(userId: string, recipe: Recipe) returns (r: Option<UserProfile>)
      modifies this
      ensures FindProfile(old(profiles), userId).None? ==> r.None? && profiles == old(profiles)
      ensures FindProfile(old(profiles), userId).Some?
              && HasRecipeNamed(SavedOf(FindProfile(old(profiles), userId).value), recipe.name)
              ==> r == Some(ProfileWithRecipe(FindProfile(old(profiles), userId).value, recipe)) && profiles == old(profiles)
      ensures FindProfile(old(profiles), userId).Some?
              && !HasRecipeNamed(SavedOf(FindProfile(old(profiles), userId).value), recipe.name)
              ==> var saved := [recipe] + SavedOf(FindProfile(old(profiles), userId).value);
                  && profiles == MapProfile(old(profiles), userId, (p: UserProfile) => Merge(p, SavedUpdate(saved)))
                  && r == Some(ProfileWithRecipe(FindProfile(old(profiles), userId).value, recipe))
    {
      var profile := FindProfile(profiles, userId);
      if profile.None? {
        return None;
      }
      var current := SavedOf(profile.value);
      if HasRecipeNamed(current, recipe.name) {
        return profile;
      }
      SavedUpdateIsProfileWithRecipe(profile.value, recipe);
      r := UpdateProfile(userId, SavedUpdate([recipe] + current));
    }

    /**
     * `deleteRecipe`: nothing for an unknown profile; otherwise the saved
     * list keeps exactly the recipes whose id differs.
     */
    method DeleteRecipe(userId: string, recipeId: string) returns (r: Option<UserProfile>)
      modifies this
      ensures FindProfile(old(profiles), userId).None? ==> r.None? && profiles == old(profiles)
      ensures FindProfile(old(profiles), userId).Some?
              ==> var kept := WithoutRecipe(SavedOf(FindProfile(old(profiles), userId).value), recipeId);
                  && profiles == MapProfile(old(profiles), userId, (p: UserProfile) => Merge(p, SavedUpdate(kept)))
                  && r == Some(ProfileWithoutRecipe(FindProfile(old(profiles), userId).value, recipeId))
    {
      var profile := FindProfile(profiles, userId);
      if profile.None? {
        return None;
      }
      SavedUpdateIsProfileWithoutRecipe(profile.value, recipeId);
      r := UpdateProfile(userId, SavedUpdate(WithoutRecipe(SavedOf(profile.value), recipeId)));
    }
  }
}
