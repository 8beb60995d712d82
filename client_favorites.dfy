/**
 * The favorites context of the Express front end. The list comes from the
 * `/api/favorites/1` query; a toggle starts the add or the remove mutation,
 * never both, and is ignored while either is pending. A mutation whose
 * response is not ok fails and invalidates nothing; a successful one
 * invalidates the query, whose refetch then replaces the list.
 */
module ClientFavorites {
  import opened Wrappers

  /** What a toggle starts. */
  datatype Mutation = NoMutation | AddMutation(shortcutId: int) | RemoveMutation(shortcutId: int)

  /** `response.ok`: a status in the 200 range. */
  predicate ResponseOk(status: int)
  {
    200 <= status <= 299
  }

  /**
   * `toggleFavorite`'s decision: nothing while a mutation is pending, else
   * the remove mutation for a listed id and the add mutation for the rest.
   */
  function ToggleDecision(favorites: seq<int>, addPending: bool, removePending: bool, shortcutId: int): (r: Mutation)
    ensures r.NoMutation? <==> addPending || removePending
    ensures r.RemoveMutation? <==> !addPending && !removePending && shortcutId in favorites
    ensures r.AddMutation? <==> !addPending && !removePending && shortcutId !in favorites
    ensures !r.NoMutation? ==> r.shortcutId == shortcutId
  {
    if addPending || removePending then NoMutation
    else if shortcutId in favorites then RemoveMutation(shortcutId)
    else AddMutation(shortcutId)
  }

  /** Once the refetched list shows the toggled id's new membership, the next toggle goes the other way. */
  lemma DecisionFlips(favorites: seq<int>, refreshed: seq<int>, shortcutId: int)
    requires shortcutId in refreshed <==> shortcutId !in favorites
    ensures ToggleDecision(favorites, false, false, shortcutId).AddMutation?
        <==> ToggleDecision(refreshed, false, false, shortcutId).RemoveMutation?
  {
  }

  class FavoritesClient {
    /** The query's data, `[]` until it arrives. */
    var favorites: seq<int>
    var queryLoading: bool
    /** The argument of the pending add or remove mutation, if any. */
    var adding: Option<int>
    var removing: Option<int>
    /** Set by a successful mutation's `invalidateQueries`, cleared by the refetch. */
    var invalidated: bool

    /** At most one mutation is pending, as the toggle's guard ensures. */
    ghost predicate Valid()
      reads this
    {
      !(adding.Some? && removing.Some?)
    }

    constructor ()
      ensures Valid()
      ensures favorites == [] && queryLoading && adding == None && removing == None && !invalidated
    {
      favorites := [];
      queryLoading := true;
      adding := None;
      removing := None;
      invalidated := false;
    }

    function IsFavorite(shortcutId: int): (r: bool)
      reads this
      ensures r <==> exists i :: 0 <= i < |favorites| && favorites[i] == shortcutId
    {
      shortcutId in favorites
    }

    /** The `isLoading` the context exposes. */
    function IsLoading(): (r: bool)
      reads this
      ensures r <==> queryLoading || adding.Some? || removing.Some?
    {
      queryLoading || adding.Some? || removing.Some?
    }

    /** `toggleFavorite`: starts whichever mutation `ToggleDecision` names. */
    method ToggleFavorite(shortcutId: int) returns (started: Mutation)
      requires Valid()
      modifies this
      ensures Valid()
      ensures started == ToggleDecision(old(favorites), old(adding).Some?, old(removing).Some?, shortcutId)
      ensures started.NoMutation? ==> unchanged(this)
      ensures started.AddMutation? ==> adding == Some(shortcutId) && removing == None
      ensures started.RemoveMutation? ==> removing == Some(shortcutId) && adding == None
      ensures favorites == old(favorites) && queryLoading == old(queryLoading) && invalidated == old(invalidated)
    {
      started := ToggleDecision(favorites, adding.Some?, removing.Some?, shortcutId);
      match started
      case NoMutation =>
      case AddMutation(id) =>
        adding := Some(id);
      case RemoveMutation(id) =>
        removing := Some(id);
    }

    /**
     * The pending mutation's response arrives: an ok status invalidates the
     * favorites query, any other fails the mutation; either way nothing is
     * pending afterwards and the list is untouched until a refetch.
     */
    method MutationSettled(status: int)
      requires Valid()
      modifies this
      ensures Valid()
      ensures adding == None && removing == None
      ensures invalidated <==> old(invalidated) || ((old(adding).Some? || old(removing).Some?) && ResponseOk(status))
      ensures favorites == old(favorites) && queryLoading == old(queryLoading)
    {
      if (adding.Some? || removing.Some?) && ResponseOk(status) {
        invalidated := true;
      }
      adding := None;
      removing := None;
    }

    /** The query settles: fetched data replaces the list; a failed fetch keeps it. */
    method QuerySettled(data: Option<seq<int>>)
      modifies this
      ensures !queryLoading && !invalidated
      ensures favorites == (if data.Some? then data.value else old(favorites))
      ensures adding == old(adding) && removing == old(removing)
    {
      if data.Some? {
        favorites := data.value;
      }
      queryLoading := false;
      invalidated := false;
    }
  }
}
