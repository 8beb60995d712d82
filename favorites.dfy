/**
 * The favorites context of the document-store front end: a list of
 * favorite shortcut ids updated optimistically. A toggle changes the list
 * at once and starts one store call; the call's outcome arrives later,
 * written here as a separate finish step. One `isPending` flag refuses
 * every toggle while a call is in flight. A failed add filters the id out
 * again; a failed remove restores the list as it was before the toggle.
 */
module Favorites {
  import opened Wrappers
  import opened Seqs

  /** The store call in flight, with what its rollback needs. */
  datatype InFlight =
    | Adding(id: string)
    | Removing(id: string, previous: seq<string>)

  class FavoritesProvider {
    var favorites: seq<string>
    /** Set while the initial fetch runs. */
    var loading: bool
    var isPending: bool
    /** The call whose outcome is awaited, if any. */
    var inFlight: Option<InFlight>

    /** A call is in flight exactly while the pending flag is set. */
    ghost predicate Valid()
      reads this
    {
      isPending <==> inFlight.Some?
    }

    constructor ()
      ensures Valid()
      ensures favorites == [] && !loading && !isPending
    {
      favorites := [];
      loading := false;
      isPending := false;
      inFlight := None;
    }

    /** `isFavorite`: membership in the current list. */
    function IsFavorite(shortcutId: string): (r: bool)
      reads this
      ensures r <==> exists i :: 0 <= i < |favorites| && favorites[i] == shortcutId
    {
      shortcutId in favorites
    }

    /** The `isLoading` the context exposes: fetching or waiting for a toggle's call. */
    function IsLoading(): (r: bool)
      reads this
      ensures r <==> loading || isPending
    {
      loading || isPending
    }

    /** The mount effect's start: `setIsLoading(true)` before `getFavorites`. */
    method BeginFetch()
      modifies this
      ensures loading
      ensures favorites == old(favorites) && isPending == old(isPending) && inFlight == old(inFlight)
    {
      loading := true;
    }

    /** The fetch's outcome: the fetched list on success, nothing on failure; loading ends either way. */
    method FinishFetch(data: Option<seq<string>>)
      modifies this
      ensures !loading
      ensures favorites == (if data.Some? then data.value else old(favorites))
      ensures isPending == old(isPending) && inFlight == old(inFlight)
    {
      if data.Some? {
        favorites := data.value;
      }
      loading := false;
    }

    /**
     * `toggleFavorite`: ignored while a call is pending; otherwise a present
     * id is removed and an absent one appended, before the store is called.
     */
    method ToggleFavorite(shortcutId: string)
      requires Valid()
      modifies this
      ensures Valid()
      ensures old(isPending) ==> unchanged(this)
      ensures !old(isPending) && shortcutId in old(favorites) ==>
        && favorites == Remove(old(favorites), shortcutId)
        && inFlight == Some(Removing(shortcutId, old(favorites)))
      ensures !old(isPending) && shortcutId !in old(favorites) ==>
        && favorites == old(favorites) + [shortcutId]
        && inFlight == Some(Adding(shortcutId))
      ensures !old(isPending) ==> isPending
      ensures loading == old(loading)
    {
      if isPending {
        return;
      }
      if shortcutId in favorites {
        HandleRemoveFavorite(shortcutId);
      } else {
        HandleAddFavorite(shortcutId);
      }
    }

    /** `handleAddFavorite` up to the store call: pending set, the id appended. */
    method HandleAddFavorite(shortcutId: string)
      modifies this
      ensures Valid()
      ensures isPending && favorites == old(favorites) + [shortcutId] && inFlight == Some(Adding(shortcutId))
      ensures loading == old(loading)
    {
      isPending := true;
      favorites := favorites + [shortcutId];
      inFlight := Some(Adding(shortcutId));
    }

    /** `handleRemoveFavorite` up to the store call: pending set, a snapshot kept, the id filtered out. */
    method HandleRemoveFavorite(shortcutId: string)
      modifies this
      ensures Valid()
      ensures isPending && favorites == Remove(old(favorites), shortcutId)
      ensures inFlight == Some(Removing(shortcutId, old(favorites)))
      ensures loading == old(loading)
    {
      isPending := true;
      var previousFavorites := favorites;
      favorites := Remove(favorites, shortcutId);
      inFlight := Some(Removing(shortcutId, previousFavorites));
    }

    /**
     * The store call's outcome. Success keeps the list; a failed add
     * filters the id out of the list as it then is; a failed remove
     * restores the snapshot. Pending ends in every outcome.
     */
    method FinishToggle(succeeded: bool)
      requires Valid()
      modifies this
      ensures Valid()
      ensures !isPending && inFlight == None
      ensures favorites == RolledBack(old(favorites), old(inFlight), succeeded)
      ensures loading == old(loading)
    {
      if !succeeded && inFlight.Some? {
        match inFlight.value
        case Adding(id) =>
          favorites := Remove(favorites, id);
        case Removing(_, previous) =>
          favorites := previous;
      }
      isPending := false;
      inFlight := None;
    }
  }

  /** The list after a call's outcome, given the list at that moment. */
  function RolledBack(current: seq<string>, call: Option<InFlight>, succeeded: bool): (r: seq<string>)
    ensures succeeded || call.None? ==> r == current
    ensures !succeeded && call.Some? && call.value.Adding? ==>
      call.value.id !in r && forall x :: x != call.value.id ==> (x in r <==> x in current)
    ensures !succeeded && call.Some? && call.value.Removing? ==> r == call.value.previous
  {
    if succeeded || call.None? then current
    else
      match call.value
      case Adding(id) =>
        RemoveMembers(current, id);
        Remove(current, id)
      case Removing(_, previous) => previous
  }

  /**
   * With no other update in between, a failed toggle leaves the list as it
   * was before the toggle, whichever way it went.
   */
  lemma FailedToggleRestores(favs: seq<string>, shortcutId: string)
    ensures shortcutId !in favs ==>
      RolledBack(favs + [shortcutId], Some(Adding(shortcutId)), false) == favs
    ensures shortcutId in favs ==>
      RolledBack(Remove(favs, shortcutId), Some(Removing(shortcutId, favs)), false) == favs
  {
    if shortcutId !in favs {
      RemoveAppended(favs, shortcutId);
    }
  }

  /** With no other update in between, a successful toggle flips the id's membership and no other. */
  lemma SucceededToggleFlips(favs: seq<string>, shortcutId: string)
    ensures var r := if shortcutId in favs then Remove(favs, shortcutId) else favs + [shortcutId];
      && (shortcutId in r <==> shortcutId !in favs)
      && forall x :: x != shortcutId ==> (x in r <==> x in favs)
  {
    RemoveMembers(favs, shortcutId);
  }
}
