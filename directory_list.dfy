/**
 * `DirectoryList` of `components/DirectoryList.tsx`: which of its views the list shows
 * for the auth, favourites and stats state it is given, and, for the grid, the kits it
 * shows with their favourite marks.
 */
module DirectoryList {
  import opened KitModel
  import opened Seqs

  /** One `StarterKitCard`: the kit and its `isFavorite` mark. */
  datatype Card = Card(kit: Kit, isFavorite: bool)

  /** The views, in the order the component tries them. */
  datatype View =
    | LoadingAuth
    | SignInPrompt
    | LoadingKits
    | Empty(favoritesMode: bool)
    | Grid(cards: seq<Card>)

  /** The kits whose id is a favourite. */
  function FavoriteFilter(favorites: seq<int>): Kit -> bool {
    (k: Kit) => k.id in favorites
  }

  /** In favourites mode the kits whose id is a favourite, in list order; otherwise all. */
  function DisplayedKits(kits: seq<Kit>, favorites: seq<int>, showOnlyFavorites: bool): (d: seq<Kit>)
    ensures !showOnlyFavorites ==> d == kits
    ensures |d| <= |kits|
  {
    if showOnlyFavorites then Filter(kits, FavoriteFilter(favorites)) else kits
  }

  /** A card per kit, marked when its id is a favourite. */
  function Cards(kits: seq<Kit>, favorites: seq<int>): (cs: seq<Card>)
    ensures |cs| == |kits|
    ensures forall i :: 0 <= i < |kits| ==> cs[i] == Card(kits[i], kits[i].id in favorites)
  {
    if kits == [] then [] else [Card(kits[0], kits[0].id in favorites)] + Cards(kits[1..], favorites)
  }

  /** The view rendered. `favoritesLoading` is the loading flag the favourites hook
      reports. */
  function Render(authLoading: bool, hasUser: bool, showOnlyFavorites: bool,
                  kits: seq<Kit>, kitsLoading: bool,
                  favorites: seq<int>, favoritesLoading: bool): (v: View)
    ensures v.LoadingAuth? <==> authLoading
    ensures v.SignInPrompt? <==> !authLoading && showOnlyFavorites && !hasUser
    ensures v.LoadingKits? <==>
      !authLoading && !(showOnlyFavorites && !hasUser) && (kitsLoading || favoritesLoading)
    ensures v.Empty? <==>
      !authLoading && !(showOnlyFavorites && !hasUser) && !kitsLoading && !favoritesLoading
      && |DisplayedKits(kits, favorites, showOnlyFavorites)| == 0
    ensures v.Empty? ==> v.favoritesMode == showOnlyFavorites
    ensures v.Grid? ==> v.cards == Cards(DisplayedKits(kits, favorites, showOnlyFavorites), favorites)
  {
    if authLoading then LoadingAuth
    else if showOnlyFavorites && !hasUser then SignInPrompt
    else
      var displayed := DisplayedKits(kits, favorites, showOnlyFavorites);
      if kitsLoading || favoritesLoading then LoadingKits
      else if |displayed| == 0 then Empty(showOnlyFavorites)
      else Grid(Cards(displayed, favorites))
  }

  /** In favourites mode a kit is shown exactly when it is in the list and its id is a
      favourite, each as often as in the list, and in list order: the kits shown for two
      halves of the list, joined, are the kits shown for the whole. */
  lemma DisplayedKitsSpec(kits: seq<Kit>, more: seq<Kit>, favorites: seq<int>)
    ensures forall k: Kit :: k in DisplayedKits(kits, favorites, true) <==> k in kits && k.id in favorites
    ensures forall k: Kit :: k.id in favorites ==>
      multiset(DisplayedKits(kits, favorites, true))[k] == multiset(kits)[k]
    ensures DisplayedKits(kits + more, favorites, true)
      == DisplayedKits(kits, favorites, true) + DisplayedKits(more, favorites, true)
  {
    FilterMembers(kits, FavoriteFilter(favorites));
    FilterConcat(kits, more, FavoriteFilter(favorites));
    forall k: Kit | k.id in favorites
      ensures multiset(DisplayedKits(kits, favorites, true))[k] == multiset(kits)[k]
    {
      FilterCount(kits, FavoriteFilter(favorites), k);
    }
  }

  /** Every card of the favourites grid is marked as a favourite. */
  lemma FavoritesGridAllMarked(hasUser: bool, kits: seq<Kit>, kitsLoading: bool,
                               favorites: seq<int>, favoritesLoading: bool)
    ensures var v := Render(false, hasUser, true, kits, kitsLoading, favorites, favoritesLoading);
      v.Grid? ==> forall i :: 0 <= i < |v.cards| ==> v.cards[i].isFavorite
  {
    var d := DisplayedKits(kits, favorites, true);
    FilterMembers(kits, FavoriteFilter(favorites));
    assert forall i :: 0 <= i < |d| ==> d[i] in d;
  }

  /** Outside favourites mode a settled, non-empty list shows every kit, in order, each
      marked by whether its id is a favourite. */
  lemma BrowseGridShowsAll(hasUser: bool, kits: seq<Kit>, favorites: seq<int>)
    requires kits != []
    ensures var v := Render(false, hasUser, false, kits, false, favorites, false);
      v.Grid? && |v.cards| == |kits|
      && forall i :: 0 <= i < |kits| ==> v.cards[i].kit == kits[i] && (v.cards[i].isFavorite <==> kits[i].id in favorites)
  {
  }

  /** A signed-in user with no favourites sees the favourites-mode empty message once
      everything has loaded, whatever the kits. */
  lemma NoFavoritesMessage(kits: seq<Kit>)
    ensures Render(false, true, true, kits, false, [], false) == Empty(true)
  {
    FilterNone(kits, FavoriteFilter([]));
  }
}
