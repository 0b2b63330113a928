/**
 * The catalog page `app/page.tsx`: the search and category filter, the five sort orders,
 * six-per-page pagination with its previous/next controls, the featured list, and the
 * favourites kept in page state.
 */
module CatalogPage {
  import opened KitModel
  import opened Text
  import opened Seqs
  import UseFavorites

  /** `itemsPerPage`. */
  const ItemsPerPage: int := 6

  // ----- filtering -----

  /** Some tag contains `lq` once lower-cased: `kit.tags.some(...)`. */
  predicate SomeTagContains(tags: seq<string>, lq: string) {
    exists i :: 0 <= i < |tags| && Contains(ToLower(tags[i]), lq)
  }

  /** The lower-cased name, description or some tag contains the lower-cased query. */
  predicate MatchesSearch(k: Kit, query: string) {
    var lq := ToLower(query);
    Contains(ToLower(k.name), lq) || Contains(ToLower(k.description), lq) || SomeTagContains(k.tags, lq)
  }

  /** `selectedCategory === "all" || kit.category === selectedCategory`. */
  predicate MatchesCategory(k: Kit, category: string) {
    category == "all" || k.category == category
  }

  /** `filteredKits`. */
  function FilteredKits(catalog: seq<Kit>, query: string, category: string): (r: seq<Kit>)
    ensures |r| <= |catalog|
    ensures forall k :: k in r ==> k in catalog && MatchesSearch(k, query) && MatchesCategory(k, category)
  {
    FilterMembers(catalog, k => MatchesSearch(k, query) && MatchesCategory(k, category));
    Filter(catalog, k => MatchesSearch(k, query) && MatchesCategory(k, category))
  }

  /** A kit is listed exactly when it is in the catalog and passes both tests; the list
      keeps catalog order, so filtering two halves of the catalog and joining the results
      is filtering the whole. */
  lemma FilteredKitsSpec(catalog: seq<Kit>, more: seq<Kit>, query: string, category: string)
    ensures forall k :: (k in FilteredKits(catalog, query, category)
      <==> k in catalog && MatchesSearch(k, query) && MatchesCategory(k, category))
    ensures FilteredKits(catalog + more, query, category)
      == FilteredKits(catalog, query, category) + FilteredKits(more, query, category)
  {
    FilterMembers(catalog, k => MatchesSearch(k, query) && MatchesCategory(k, category));
    FilterConcat(catalog, more, k => MatchesSearch(k, query) && MatchesCategory(k, category));
  }

  /** The empty query matches every kit, so with category `"all"` nothing is removed. */
  lemma EmptyQueryKeepsAll(catalog: seq<Kit>)
    ensures FilteredKits(catalog, "", "all") == catalog
  {
    forall i | 0 <= i < |catalog| ensures MatchesSearch(catalog[i], "") {
      assert ToLower("") == "";
      assert OccursAt(ToLower(catalog[i].name), "", 0);
    }
    FilterAll(catalog, k => MatchesSearch(k, "") && MatchesCategory(k, "all"));
  }

  // ----- sorting -----

  /** The key each `sortBy` value sorts by, largest first. `"popular"` and every unknown
      value use `1.5 * stars + forks`, doubled to stay in integers; the name orders use
      `nameRank`, standing for the collation order of `localeCompare`. */
  function SortKey(sortBy: string, nameRank: string -> int): (key: Kit -> int)
    ensures forall a: Kit, b: Kit ::
      a.stars == b.stars && a.forks == b.forks && a.updatedAt == b.updatedAt && a.name == b.name
      ==> key(a) == key(b)
  {
    if sortBy == "forks" then (k: Kit) => k.forks
    else if sortBy == "recent" then (k: Kit) => k.updatedAt
    else if sortBy == "name" then (k: Kit) => -nameRank(k.name)
    else if sortBy == "name-desc" then (k: Kit) => nameRank(k.name)
    else (k: Kit) => 3 * k.stars + 2 * k.forks
  }

  /** The comparator `b.stars * 1.5 + b.forks - (a.stars * 1.5 + a.forks)` puts `b`
      first exactly when the doubled integer key of `b` is larger, and ties exactly when
      the keys tie. */
  lemma PopularKeyOrdersLikeComparator(a: Kit, b: Kit, nameRank: string -> int)
    ensures var key := SortKey("popular", nameRank);
      var diff := (b.stars as real) * 1.5 + (b.forks as real) - ((a.stars as real) * 1.5 + (a.forks as real));
      (diff > 0.0 <==> key(b) > key(a)) && (diff == 0.0 <==> key(b) == key(a))
  {
  }

  /** Keys never increase along `s`. */
  ghost predicate SortedDesc<T>(s: seq<T>, key: T -> int) {
    forall i, j :: 0 <= i < j < |s| ==> key(s[i]) >= key(s[j])
  }

  /** Places `x` after every element of `t` whose key is at least its own, counting from
      the back: elements that tie keep their order, as a stable sort does. */
  function Insert<T>(t: seq<T>, x: T, key: T -> int): (r: seq<T>)
    decreases |t|
  {
    if t == [] then [x]
    else if key(t[|t| - 1]) >= key(x) then t + [x]
    else Insert(t[..|t| - 1], x, key) + [t[|t| - 1]]
  }

  /** `[...s].sort(...)` under a comparator that orders by `key`, largest first. */
  function Sort<T>(s: seq<T>, key: T -> int): seq<T>
    decreases |s|
  {
    if s == [] then [] else Insert(Sort(s[..|s| - 1], key), s[|s| - 1], key)
  }

  lemma {:induction false} InsertPerm<T>(t: seq<T>, x: T, key: T -> int)
    ensures multiset(Insert(t, x, key)) == multiset(t) + multiset{x}
    decreases |t|
  {
    if t != [] {
      var n := |t| - 1;
      assert t == t[..n] + [t[n]];
      if key(t[n]) < key(x) {
        InsertPerm(t[..n], x, key);
      }
    }
  }

  /** Every element of the insertion is `x` or an element of `t`. */
  lemma {:induction false} InsertElems<T>(t: seq<T>, x: T, key: T -> int)
    ensures forall i :: 0 <= i < |Insert(t, x, key)| ==> Insert(t, x, key)[i] == x || Insert(t, x, key)[i] in t
    decreases |t|
  {
    if t != [] {
      var n := |t| - 1;
      if key(t[n]) < key(x) {
        InsertElems(t[..n], x, key);
        var ins := Insert(t[..n], x, key);
        forall i | 0 <= i < |ins| ensures ins[i] == x || ins[i] in t {
          if ins[i] != x {
            var j :| 0 <= j < n && t[..n][j] == ins[i];
            assert t[j] == ins[i];
          }
        }
      }
    }
  }

  /** Appending an element whose key is at most every key keeps the order. */
  lemma AppendSorted<T>(s: seq<T>, y: T, key: T -> int)
    requires SortedDesc(s, key)
    requires forall i :: 0 <= i < |s| ==> key(s[i]) >= key(y)
    ensures SortedDesc(s + [y], key)
  {
  }

  lemma {:induction false} InsertSorted<T>(t: seq<T>, x: T, key: T -> int)
    requires SortedDesc(t, key)
    ensures SortedDesc(Insert(t, x, key), key)
    decreases |t|
  {
    if t != [] {
      var n := |t| - 1;
      var last := t[n];
      if key(last) >= key(x) {
        AppendSorted(t, x, key);
      } else {
        var prefix := t[..n];
        assert SortedDesc(prefix, key);
        InsertSorted(prefix, x, key);
        var ins := Insert(prefix, x, key);
        InsertElems(prefix, x, key);
        forall i | 0 <= i < |ins| ensures key(ins[i]) >= key(last) {
          if ins[i] != x {
            var j :| 0 <= j < n && prefix[j] == ins[i];
            assert t[j] == prefix[j];
          }
        }
        AppendSorted(ins, last, key);
      }
    }
  }

  /** The sorted list is a permutation of its input, with keys never increasing. */
  lemma {:induction false} SortSpec<T>(s: seq<T>, key: T -> int)
    ensures multiset(Sort(s, key)) == multiset(s)
    ensures SortedDesc(Sort(s, key), key)
    decreases |s|
  {
    if s != [] {
      var n := |s| - 1;
      SortSpec(s[..n], key);
      InsertPerm(Sort(s[..n], key), s[n], key);
      InsertSorted(Sort(s[..n], key), s[n], key);
      assert s == s[..n] + [s[n]];
    }
  }

  /** `sortedKits`. */
  function SortedKits(filtered: seq<Kit>, sortBy: string, nameRank: string -> int): (r: seq<Kit>)
    ensures multiset(r) == multiset(filtered)
  {
    SortSpec(filtered, SortKey(sortBy, nameRank));
    Sort(filtered, SortKey(sortBy, nameRank))
  }

  /** The sorted kits are the filtered kits, each as often, in order of the chosen key. */
  lemma SortedKitsSpec(filtered: seq<Kit>, sortBy: string, nameRank: string -> int)
    ensures multiset(SortedKits(filtered, sortBy, nameRank)) == multiset(filtered)
    ensures |SortedKits(filtered, sortBy, nameRank)| == |filtered|
    ensures SortedDesc(SortedKits(filtered, sortBy, nameRank), SortKey(sortBy, nameRank))
  {
    SortSpec(filtered, SortKey(sortBy, nameRank));
    assert |multiset(SortedKits(filtered, sortBy, nameRank))| == |multiset(filtered)|;
  }

  // ----- pagination -----

  /** `Math.ceil(n / itemsPerPage)`. */
  function TotalPages(n: nat): (t: nat)
    ensures t * ItemsPerPage >= n
    ensures n > 0 ==> (t - 1) * ItemsPerPage < n
    ensures n == 0 <==> t == 0
  {
    (n + ItemsPerPage - 1) / ItemsPerPage
  }

  /** `s.slice(start, end)`: negative bounds count from the end, bounds past the end are
      clamped, and a start at or after the end gives the empty list. */
  function JsSlice<T>(s: seq<T>, start: int, end: int): (r: seq<T>)
    ensures |r| <= |s|
  {
    var from := if start < 0 then (if |s| + start < 0 then 0 else |s| + start)
                else if start > |s| then |s| else start;
    var to := if end < 0 then (if |s| + end < 0 then 0 else |s| + end)
              else if end > |s| then |s| else end;
    if from < to then s[from..to] else []
  }

  /** `paginatedKits` for page `page`. */
  function PageOf<T>(s: seq<T>, page: int): (r: seq<T>)
    ensures |r| <= ItemsPerPage && |r| <= |s|
  {
    JsSlice(s, (page - 1) * ItemsPerPage, (page - 1) * ItemsPerPage + ItemsPerPage)
  }

  /** A page from 1 on holds the six items from index `(page - 1) * 6`, fewer at the end,
      and is empty exactly when it lies past the last page. */
  lemma PageSpec<T>(s: seq<T>, page: int)
    requires page >= 1
    ensures var start := (page - 1) * ItemsPerPage;
      PageOf(s, page) == if start < |s| then s[start..if start + ItemsPerPage < |s| then start + ItemsPerPage else |s|] else []
    ensures |PageOf(s, page)| <= ItemsPerPage
    ensures PageOf(s, page) == [] <==> page > TotalPages(|s|)
  {
  }

  /** Pages 1 to `k`, one after the other. */
  function PagesUpTo<T>(s: seq<T>, k: nat): seq<T> {
    if k == 0 then [] else PagesUpTo(s, k - 1) + PageOf(s, k)
  }

  lemma {:induction false} PagesUpToPrefix<T>(s: seq<T>, k: nat)
    ensures PagesUpTo(s, k) == s[..if k * ItemsPerPage < |s| then k * ItemsPerPage else |s|]
  {
    if k > 0 {
      PagesUpToPrefix(s, k - 1);
      PageSpec(s, k);
      var a := if (k - 1) * ItemsPerPage < |s| then (k - 1) * ItemsPerPage else |s|;
      var b := if k * ItemsPerPage < |s| then k * ItemsPerPage else |s|;
      assert s[..b] == s[..a] + s[a..b];
    }
  }

  /** Pages 1 to `totalPages`, joined, are the sorted list. */
  lemma AllPagesJoinToList<T>(s: seq<T>)
    ensures PagesUpTo(s, TotalPages(|s|)) == s
  {
    PagesUpToPrefix(s, TotalPages(|s|));
  }

  /** The previous-page control: `Math.max(1, currentPage - 1)`. */
  function PrevPage(page: int): (p: int)
    ensures p >= 1 && (page > 1 ==> p == page - 1) && (page <= 1 ==> p == 1)
  {
    if page - 1 > 1 then page - 1 else 1
  }

  /** The next-page control: `Math.min(totalPages, currentPage + 1)`. */
  function NextPage(page: int, total: int): (p: int)
    ensures p <= total && (page < total ==> p == page + 1) && (page >= total ==> p == total)
  {
    if total < page + 1 then total else page + 1
  }

  /** The controls are drawn only when `totalPages > 1`. */
  predicate ControlsShown(total: int)
    ensures ControlsShown(total) <==> NextPage(1, total) > 1
  {
    total > 1
  }

  /** From a page in range, both controls stay in range, and each stays put at its end. */
  lemma ControlsStayInRange(page: int, total: int)
    requires 1 <= page <= total
    ensures 1 <= PrevPage(page) <= total && 1 <= NextPage(page, total) <= total
    ensures PrevPage(1) == 1 && NextPage(total, total) == total
  {
  }

  // ----- featured and favourites -----

  /** `featuredKits`: the catalog's featured kits, in order. */
  function FeaturedKits(catalog: seq<Kit>): (r: seq<Kit>)
    ensures forall k :: k in r <==> k in catalog && k.featured
  {
    FilterMembers(catalog, (k: Kit) => k.featured);
    Filter(catalog, (k: Kit) => k.featured)
  }

  /** The favourites tab's list: the catalog kits whose id is a favourite, in catalog order. */
  function FavoriteKits(catalog: seq<Kit>, favorites: seq<int>): (r: seq<Kit>)
    ensures forall k :: k in r <==> k in catalog && k.id in favorites
  {
    FilterMembers(catalog, (k: Kit) => k.id in favorites);
    Filter(catalog, (k: Kit) => k.id in favorites)
  }

  /** The favourites tab is offered exactly when there is a favourite. */
  predicate FavoritesTabShown(favorites: seq<int>)
    ensures forall f :: f in favorites ==> FavoritesTabShown(favorites)
    ensures FavoritesTabShown(favorites) ==> favorites != [] && favorites[0] in favorites
  {
    |favorites| > 0
  }

  /** The featured list is exactly the featured kits, each as often as in the catalog;
      the favourites list likewise for kits whose id is a favourite. Both keep catalog
      order: the lists for two halves of the catalog, joined, are the list for the whole. */
  lemma FeaturedAndFavoriteKitsSpec(catalog: seq<Kit>, more: seq<Kit>, favorites: seq<int>, k: Kit)
    ensures multiset(FeaturedKits(catalog))[k] == if k.featured then multiset(catalog)[k] else 0
    ensures multiset(FavoriteKits(catalog, favorites))[k] == if k.id in favorites then multiset(catalog)[k] else 0
    ensures FeaturedKits(catalog + more) == FeaturedKits(catalog) + FeaturedKits(more)
    ensures FavoriteKits(catalog + more, favorites) == FavoriteKits(catalog, favorites) + FavoriteKits(more, favorites)
  {
    FilterCount(catalog, (k: Kit) => k.featured, k);
    FilterCount(catalog, (k: Kit) => k.id in favorites, k);
    FilterConcat(catalog, more, (k: Kit) => k.featured);
    FilterConcat(catalog, more, (k: Kit) => k.id in favorites);
  }

  // ----- the page's state -----

  /** The component's state: its own `starterKits` array and the five `useState` values. */
  class CatalogView {
    const catalog: seq<Kit>
    var searchQuery: string
    var selectedCategory: string
    var sortBy: string
    var currentPage: int
    var favorites: seq<int>

    constructor (catalog: seq<Kit>)
      ensures this.catalog == catalog && searchQuery == "" && selectedCategory == "all"
      ensures sortBy == "popular" && currentPage == 1 && favorites == []
    {
      this.catalog := catalog;
      searchQuery, selectedCategory, sortBy := "", "all", "popular";
      currentPage, favorites := 1, [];
    }

    /** The list behind the "All Kits" tab before pagination. */
    function Listed(nameRank: string -> int): seq<Kit>
      reads this
    {
      SortedKits(FilteredKits(catalog, searchQuery, selectedCategory), sortBy, nameRank)
    }

    /** `paginatedKits`. */
    function Paginated(nameRank: string -> int): seq<Kit>
      reads this
    {
      PageOf(Listed(nameRank), currentPage)
    }

    /** `toggleFavorite(id)`. */
    method ToggleFavorite(id: int)
      modifies this`favorites
      ensures favorites == UseFavorites.Toggled(old(favorites), id)
    {
      if id in favorites {
        favorites := Filter(favorites, x => x != id);
      } else {
        favorites := favorites + [id];
      }
    }

    /** `handlePageChange(page)`, from a numbered page button. */
    method HandlePageChange(page: int)
      modifies this`currentPage
      ensures currentPage == page
    {
      currentPage := page;
    }

    /** The previous-page button. */
    method GoPrev()
      modifies this`currentPage
      ensures currentPage == PrevPage(old(currentPage))
    {
      currentPage := if currentPage - 1 > 1 then currentPage - 1 else 1;
    }

    /** The next-page button, with `totalPages` of the current list. */
    method GoNext(nameRank: string -> int)
      modifies this`currentPage
      ensures currentPage == NextPage(old(currentPage), TotalPages(|Listed(nameRank)|))
    {
      var totalPages := TotalPages(|Listed(nameRank)|);
      currentPage := if totalPages < currentPage + 1 then totalPages else currentPage + 1;
    }

    /** Typing in the search box: only the query changes; the page is not reset. */
    method SetSearchQuery(q: string)
      modifies this`searchQuery
      ensures searchQuery == q
    {
      searchQuery := q;
    }

    /** Choosing a category: only the category changes; the page is not reset. */
    method SetSelectedCategory(c: string)
      modifies this`selectedCategory
      ensures selectedCategory == c
    {
      selectedCategory := c;
    }

    /** Choosing a sort order. */
    method SetSortBy(s: string)
      modifies this`sortBy
      ensures sortBy == s
    {
      sortBy := s;
    }

    /** "Clear filters". */
    method ClearFilters()
      modifies this`searchQuery, this`selectedCategory
      ensures searchQuery == "" && selectedCategory == "all"
    {
      searchQuery, selectedCategory := "", "all";
    }
  }

  // ----- a page left behind by a narrower filter -----

  /** As written: on page 2 or later, a search that leaves between one and six kits shows
      an empty grid (the "no kits found" message needs an empty list) and no controls to
      go back, because the page is not reset when the filter changes. */
  lemma StrandedPastLastPage(listed: seq<Kit>, page: int)
    requires 1 <= |listed| <= ItemsPerPage && page >= 2
    ensures PageOf(listed, page) == [] && listed != []
    ensures !ControlsShown(TotalPages(|listed|))
  {
    PageSpec(listed, page);
  }

  /** The page clamped into `1..totalPages` (1 when there are no pages). */
  function ClampPage(page: int, total: nat): (p: int)
    ensures 1 <= p && (total >= 1 ==> p <= total)
    ensures total >= 1 && 1 <= page <= total ==> p == page
  {
    if page < 1 then 1 else if page > total then (if total == 0 then 1 else total) else page
  }

  /** With the page clamped, a non-empty list always shows a non-empty page. */
  lemma ClampedPageNonEmpty<T>(listed: seq<T>, page: int)
    requires listed != []
    ensures PageOf(listed, ClampPage(page, TotalPages(|listed|))) != []
  {
    PageSpec(listed, ClampPage(page, TotalPages(|listed|)));
  }
}
