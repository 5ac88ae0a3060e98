/**
 * The Spring service over the `profiles` table (ProfileService.java), with
 * the repository modelled as a map from id to the stored entity.
 */
module ProfileService {
  import opened Common

  type Uuid = string

  /**
   * A `Profile` entity (Profile.java): every reference field may be null;
   * answers, weekly plan and saved recipes are JSON kept as text.
   */
  datatype ProfileEntity = ProfileEntity(
    id: Option<Uuid>,
    name: Option<string>,
    createdAt: Option<int>,
    answers: Option<string>,
    weeklyPlan: Option<string>,
    savedRecipes: Option<string>)

  /** `new Profile(name, answers)` at time `now`: no id yet, no plan, an empty saved-recipe array. */
  function NewProfile(now: int, name: Option<string>, answers: Option<string>): (r: ProfileEntity)
    ensures r.id.None? && r.weeklyPlan.None?
    ensures r.createdAt == Some(now) && r.savedRecipes == Some("[]")
    ensures r.name == name && r.answers == answers
  {
    ProfileEntity(None, name, Some(now), answers, None, Some("[]"))
  }

  /** The non-null detail fields overwrite the stored ones; id and creation time are never touched. */
  function ApplyDetails(stored: ProfileEntity, details: ProfileEntity): (r: ProfileEntity)
    ensures r.id == stored.id && r.createdAt == stored.createdAt
    ensures details.name.Some? ==> r.name == details.name
    ensures details.name.None? ==> r.name == stored.name
    ensures details.answers.Some? ==> r.answers == details.answers
    ensures details.answers.None? ==> r.answers == stored.answers
    ensures details.weeklyPlan.Some? ==> r.weeklyPlan == details.weeklyPlan
    ensures details.weeklyPlan.None? ==> r.weeklyPlan == stored.weeklyPlan
    ensures details.savedRecipes.Some? ==> r.savedRecipes == details.savedRecipes
    ensures details.savedRecipes.None? ==> r.savedRecipes == stored.savedRecipes
  {
    stored.(name := if details.name.Some? then details.name else stored.name,
            answers := if details.answers.Some? then details.answers else stored.answers,
            weeklyPlan := if details.weeklyPlan.Some? then details.weeklyPlan else stored.weeklyPlan,
            savedRecipes := if details.savedRecipes.Some? then details.savedRecipes else stored.savedRecipes)
  }

  /** Details whose every field is null change nothing; applying the same details twice is applying them once. */
  lemma {:induction false} ApplyDetailsNeutralAndIdempotent(stored: ProfileEntity, details: ProfileEntity)
    ensures details.name.None? && details.answers.None? && details.weeklyPlan.None? && details.savedRecipes.None?
            ==> ApplyDetails(stored, details) == stored
    ensures ApplyDetails(ApplyDetails(stored, details), details) == ApplyDetails(stored, details)
  {
  }

  /** What `updateProfile` hands back: the saved entity, or the exception it throws. */
  datatype UpdateOutcome = Updated(profile: ProfileEntity) | NotFound(message: string)

  const NotFoundPrefix := "Profile not found with id: "

  class ProfileService {
    /** The repository: the stored entity under each id. */
    var repository: map<Uuid, ProfileEntity>

    /** Every stored entity carries the id it is stored under. */
    predicate Valid()
      reads this
    {
      forall k :: k in repository ==> repository[k].id == Some(k)
    }

    constructor()
      ensures repository == map[] && Valid()
    {
      repository := map[];
    }

    /** `findAll()`: every stored entity (the list order is the database's). */
    method GetAllProfiles() returns (r: set<ProfileEntity>)
      ensures r == repository.Values
    {
      r := repository.Values;
    }

    /** `findById(id)`: the stored entity, or empty. */
    method GetProfileById(id: Uuid) returns (r: Option<ProfileEntity>)
      ensures r.Some? <==> id in repository
      ensures r.Some? ==> r.value == repository[id]
    {
      if id in repository {
        r := Some(repository[id]);
      } else {
        r := None;
      }
    }

    /**
     * `save(profile)`: an entity without an id gets the generated one
     * (`freshId`, unused so far); the entity is stored under its id and is
     * found there afterwards. Nothing else in the repository changes.
     */
    method CreateProfile(profile: ProfileEntity, freshId: Uuid) returns (r: ProfileEntity)
      requires Valid() && freshId !in repository
      modifies this
      ensures Valid()
      ensures r == profile.(id := Some(if profile.id.Some? then profile.id.value else freshId))
      ensures repository == old(repository)[r.id.value := r]
    {
      var id := if profile.id.Some? then profile.id.value else freshId;
      r := profile.(id := Some(id));
      repository := repository[id := r];
    }

    /**
     * `updateProfile`: for a stored id, each non-null field of the details
     * is set on the stored entity, one setter at a time, and the entity is
     * saved; for an unknown id the exception is raised and nothing is saved.
     */
    method UpdateProfile(id: Uuid, details: ProfileEntity) returns (r: UpdateOutcome)
      requires Valid()
      modifies this
      ensures Valid()
      ensures id !in old(repository) ==> r == NotFound(NotFoundPrefix + id) && repository == old(repository)
      ensures id in old(repository) ==> r == Updated(ApplyDetails(old(repository)[id], details))
                                        && repository == old(repository)[id := r.profile]
    {
      if id !in repository {
        return NotFound(NotFoundPrefix + id);
      }
      var profile := repository[id];
      if details.name.Some? {
        profile := profile.(name := details.name);
      }
      if details.answers.Some? {
        profile := profile.(answers := details.answers);
      }
      if details.weeklyPlan.Some? {
        profile := profile.(weeklyPlan := details.weeklyPlan);
      }
      if details.savedRecipes.Some? {
        profile := profile.(savedRecipes := details.savedRecipes);
      }
      repository := repository[id := profile];
      r := Updated(profile);
    }

    /** `deleteById(id)`: only that id goes; an unknown id is ignored. */
    method DeleteProfile(id: Uuid)
      requires Valid()
      modifies this
      ensures Valid()
      ensures repository == old(repository) - {id}
    {
      repository := repository - {id};
    }

    /** `deleteAll()`: the repository is emptied. */
    method DeleteAllProfiles()
      modifies this
      ensures Valid()
      ensures repository == map[]
    {
      repository := map[];
    }
  }
}
