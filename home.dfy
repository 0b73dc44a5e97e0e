/** frontend/src/pages/Home.tsx: the favourite-route list kept by the home
    screen, the search filter over the route list, the favourite section and
    the departure-time label. Fetching and the localStorage mirror of the
    favourites are left out. */
module Home {
  import opened Common

  /** A route as the home screen receives it; the code reads the name and
      the location through `?.`, so either may be missing. */
  datatype BusRoute = BusRoute(id: int, name: Option<string>, time: Option<string>, location: Option<string>)

  /** The label shown for a route with no departure time. */
  const DefaultTimeLabel: string := "수시운행"

  // ---------------------------------------------------------------------------
  // toggleFavorite
  // ---------------------------------------------------------------------------

  function IsNot(id: int): int -> bool
  {
    x => x != id
  }

  /** `toggleFavorite(id)`: drop every occurrence of a present id, or append
      an absent one at the end. */
  function ToggleFavorite(prev: seq<int>, id: int): (r: seq<int>)
    ensures id in r <==> id !in prev
    ensures forall x :: x != id ==> (x in r <==> x in prev)
    ensures id !in prev ==> r == prev + [id]
  {
    if id in prev then Filter(prev, IsNot(id)) else prev + [id]
  }

  /** The other ids keep their relative order: with `id` removed, the list
      before and after the toggle is the same sequence. */
  lemma ToggleKeepsOthersInOrder(prev: seq<int>, id: int)
    ensures Filter(ToggleFavorite(prev, id), IsNot(id)) == Filter(prev, IsNot(id))
  {
    if id in prev {
      FilterIdempotent(prev, IsNot(id));
    } else {
      FilterAppend(prev, [id], IsNot(id));
      assert Filter([id], IsNot(id)) == [];
    }
  }

  /** Toggling twice restores the set of favourite ids, and restores the
      list itself when the id was not a favourite. */
  lemma ToggleTwice(prev: seq<int>, id: int)
    ensures (set x | x in ToggleFavorite(ToggleFavorite(prev, id), id)) == (set x | x in prev)
    ensures id !in prev ==> ToggleFavorite(ToggleFavorite(prev, id), id) == prev
  {
    if id !in prev {
      FilterAppend(prev, [id], IsNot(id));
      assert Filter([id], IsNot(id)) == [];
      FilterAllPass(prev, IsNot(id));
    }
  }

  // ---------------------------------------------------------------------------
  // filteredRoutes
  // ---------------------------------------------------------------------------

  /** `toLowerCase`, applied character by character through the locale's
      folding `fold`. */
  function Lower(s: string, fold: char -> char): (r: string)
    ensures |r| == |s| && forall i :: 0 <= i < |s| ==> r[i] == fold(s[i])
  {
    seq(|s|, i requires 0 <= i < |s| => fold(s[i]))
  }

  /** `field?.toLowerCase().includes(term.toLowerCase())`; a missing field
      never matches. */
  predicate FieldMatches(field: Option<string>, term: string, fold: char -> char)
  {
    field.Some? && Contains(Lower(field.value, fold), Lower(term, fold))
  }

  lemma EmptyTermMatchesField(field: Option<string>, fold: char -> char)
    ensures FieldMatches(field, [], fold) <==> field.Some?
  {
    assert Lower([], fold) == [];
    if field.Some? { ContainsEmpty(Lower(field.value, fold)); }
  }

  /** The search test of one route: its name or its location matches. A
      route with neither never matches; the empty term matches every other. */
  predicate Matches(route: BusRoute, term: string, fold: char -> char)
    ensures Matches(route, term, fold) ==> route.name.Some? || route.location.Some?
    ensures term == [] ==> (Matches(route, term, fold) <==> route.name.Some? || route.location.Some?)
  {
    EmptyTermMatchesField(route.name, fold);
    EmptyTermMatchesField(route.location, fold);
    FieldMatches(route.name, term, fold) || FieldMatches(route.location, term, fold)
  }

  function MatchesTerm(term: string, fold: char -> char): BusRoute -> bool
  {
    (r: BusRoute) => Matches(r, term, fold)
  }

  /** `filteredRoutes`: the routes whose lower-cased name or location
      contains the lower-cased search term, in route-list order. */
  function FilteredRoutes(routes: seq<BusRoute>, term: string, fold: char -> char): (r: seq<BusRoute>)
    ensures IsSubsequence(r, routes)
    ensures forall x :: x in r <==> x in routes && Matches(x, term, fold)
    ensures forall x :: multiset(r)[x] == if Matches(x, term, fold) then multiset(routes)[x] else 0
  {
    FilterIsSubsequence(routes, MatchesTerm(term, fold));
    Filter(routes, MatchesTerm(term, fold))
  }

  predicate HasNameOrLocation(route: BusRoute)
  {
    route.name.Some? || route.location.Some?
  }

  /** An empty search keeps exactly the routes that have a name or a
      location, whatever the case folding. */
  lemma EmptySearchKeepsNamedRoutes(routes: seq<BusRoute>, fold: char -> char)
    ensures FilteredRoutes(routes, "", fold) == Filter(routes, HasNameOrLocation)
  {
    forall x | x in routes
      ensures MatchesTerm("", fold)(x) == HasNameOrLocation(x)
    {
      assert Lower("", fold) == "";
      if x.name.Some? { ContainsEmpty(Lower(x.name.value, fold)); }
      if x.location.Some? { ContainsEmpty(Lower(x.location.value, fold)); }
    }
    FilterSameTest(routes, MatchesTerm("", fold), HasNameOrLocation);
  }

  // ---------------------------------------------------------------------------
  // Favourite section and time label
  // ---------------------------------------------------------------------------

  function InFavorites(favorites: seq<int>): BusRoute -> bool
  {
    (r: BusRoute) => r.id in favorites
  }

  /** The favourite section: shown only when both lists are non-empty, and
      then the routes whose id is a favourite, in route-list order. */
  function FavoriteSection(routes: seq<BusRoute>, favorites: seq<int>): (r: Option<seq<BusRoute>>)
    ensures r.Some? <==> |favorites| > 0 && |routes| > 0
    ensures r.Some? ==> IsSubsequence(r.value, routes)
    ensures r.Some? ==> forall x :: x in r.value <==> x in routes && x.id in favorites
    ensures r.Some? ==> forall x :: multiset(r.value)[x] == if x.id in favorites then multiset(routes)[x] else 0
  {
    if |favorites| > 0 && |routes| > 0 then
      FilterIsSubsequence(routes, InFavorites(favorites));
      Some(Filter(routes, InFavorites(favorites)))
    else None
  }

  /** `route.time || "수시운행"`: a missing or empty time shows the default,
      so the label is never blank. */
  function TimeLabel(time: Option<string>): (r: string)
    ensures r != ""
    ensures time.Some? && time.value != "" ==> r == time.value
    ensures r == DefaultTimeLabel <==> time.None? || time.value == "" || time.value == DefaultTimeLabel
  {
    if time.Some? && time.value != "" then time.value else DefaultTimeLabel
  }
}
