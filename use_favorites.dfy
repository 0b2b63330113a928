/**
 * `useFavorites` of `hooks/use-favorites.tsx`: the signed-in user's favourite kit ids,
 * loaded from the `user_favorites` table when the user changes, and toggled one id at a
 * time. The table is reached through parameters: what the query resolves to, and whether
 * a toggle's request threw.
 */
module UseFavorites {
  import opened Wrappers
  import opened Seqs

  /** The list after toggling `id`: every copy of it removed when it is present, else
      appended at the end. */
  function Toggled(favorites: seq<int>, id: int): (r: seq<int>)
    ensures id in r <==> id !in favorites
    ensures forall x :: x != id ==> (x in r <==> x in favorites)
  {
    FilterMembers(favorites, x => x != id);
    if id in favorites then Filter(favorites, x => x != id) else favorites + [id]
  }

  /** Toggling flips whether `id` is a favourite and no other id's; an absent id is
      appended at the end, a present one is removed with all its repeats, and the other
      ids keep their order. */
  lemma ToggledSpec(favorites: seq<int>, id: int)
    ensures id in Toggled(favorites, id) <==> id !in favorites
    ensures forall x :: x != id ==> (x in Toggled(favorites, id) <==> x in favorites)
    ensures id !in favorites ==> Toggled(favorites, id) == favorites + [id]
    ensures id in favorites ==> forall x :: x != id ==> multiset(Toggled(favorites, id))[x] == multiset(favorites)[x]
  {
    FilterMembers(favorites, x => x != id);
    forall x | x != id && id in favorites
      ensures multiset(Toggled(favorites, id))[x] == multiset(favorites)[x]
    {
      FilterCount(favorites, y => y != id, x);
    }
  }

  /** Toggling an id that was not a favourite twice gives the list back. */
  lemma ToggleTwiceRestores(favorites: seq<int>, id: int)
    requires id !in favorites
    ensures Toggled(Toggled(favorites, id), id) == favorites
  {
    FilterConcat(favorites, [id], x => x != id);
    FilterAll(favorites, x => x != id);
  }

  /** What the `select('kit_id')` query resolves to: rows (`data`, possibly null) or an
      error, which the hook throws and catches. */
  datatype FavQuery = Rows(data: Option<seq<int>>) | Failed

  /** The write a toggle sends to `user_favorites`. */
  datatype FavRequest = Delete(kitId: int) | Insert(kitId: int)

  /** The request a toggle of `id` sends: a delete when it is a favourite, else an insert. */
  function RequestFor(favorites: seq<int>, id: int): (r: FavRequest)
    ensures r.kitId == id
    ensures r.Delete? <==> id in favorites
  {
    if id in favorites then Delete(id) else Insert(id)
  }

  /** The hook's state: `favorites` and its own `loading` flag. */
  class FavoritesHook {
    var favorites: seq<int>
    var loading: bool

    /** `useState<number[]>([])` and `useState(true)`. */
    constructor ()
      ensures favorites == [] && loading
    {
      favorites, loading := [], true;
    }

    /** The `loading` the hook reports: its own flag or the auth hook's. */
    function ReportedLoading(authLoading: bool): (b: bool)
      reads this
      ensures b <==> loading || authLoading
    {
      loading || authLoading
    }

    /** One run of the effect's `fetchFavorites`. `mounted` is whether the effect is still
        current when the query settles; without a user nothing is awaited, so the
        effect is still current. */
    method FetchFavorites(hasUser: bool, q: FavQuery, mounted: bool)
      modifies this
      ensures !hasUser ==> favorites == [] && !loading
      ensures hasUser && !mounted ==> favorites == old(favorites) && loading
      ensures hasUser && mounted ==> !loading
      ensures hasUser && mounted && q.Rows? ==>
        favorites == (if q.data.Some? then q.data.value else [])
      ensures hasUser && mounted && q.Failed? ==> favorites == old(favorites)
    {
      if !hasUser {
        favorites := [];
        loading := false;
        return;
      }
      loading := true;
      if q.Rows? && mounted {
        favorites := if q.data.Some? then q.data.value else [];
      }
      if mounted {
        loading := false;
      }
    }

    /** `toggleFavorite(kitId)`. Without a user nothing happens. Otherwise the request
        for `kitId` is sent and, unless it threw, the local list is toggled; an error
        the client returns rather than throws is not looked at. */
    method ToggleFavorite(hasUser: bool, kitId: int, threw: bool)
      returns (request: Option<FavRequest>)
      modifies this
      ensures !hasUser ==> request.None? && favorites == old(favorites)
      ensures hasUser ==> request == Some(RequestFor(old(favorites), kitId))
      ensures hasUser && threw ==> favorites == old(favorites)
      ensures hasUser && !threw ==> favorites == Toggled(old(favorites), kitId)
      ensures loading == old(loading)
    {
      if !hasUser {
        return None;
      }
      request := Some(RequestFor(favorites, kitId));
      if !threw {
        favorites := Toggled(favorites, kitId);
      }
    }
  }
}
