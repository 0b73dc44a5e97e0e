/** frontend/src/pages/Favorites.tsx: the favourite-routes screen. Its list is
    React state replaced wholesale by each handler, so the handlers are
    functions from the old list to the new one. The stored token and the
    server's replies are parameters. */
module Favorites {
  import opened Common

  datatype Route = Route(id: int, routeName: string, nextBus: string, isFavorite: bool)

  /** The reply to `GET /api/user/favorites`: a failed request, a body that
      is not an array, or an array of routes. */
  datatype FetchResponse = Failed | NonArray | Array(items: seq<Route>)

  /** The screen state a fetch leaves behind. */
  datatype Screen = Screen(favorites: seq<Route>, loading: bool)

  /** `fetchFavorites`: without a token no request is made, the list is kept
      and loading ends; otherwise the list becomes the array the server sent,
      or empty when the body is not an array or the request failed. */
  function Fetch(prev: seq<Route>, token: Option<string>, response: FetchResponse): (r: Screen)
    ensures !r.loading
    ensures !Truthy(token) ==> r.favorites == prev
    ensures Truthy(token) && response.Array? ==> r.favorites == response.items
    ensures Truthy(token) && !response.Array? ==> r.favorites == []
  {
    if !Truthy(token) then Screen(prev, false)
    else match response
      case Array(items) => Screen(items, false)
      case _ => Screen([], false)
  }

  /** The optimistic `setFavorites` map: every entry with id `routeId`
      takes the flag `!currentStatus`, every other entry is kept. */
  function OptimisticUpdate(list: seq<Route>, routeId: int, currentStatus: bool): (r: seq<Route>)
    ensures |r| == |list|
    ensures forall i :: 0 <= i < |list| && list[i].id == routeId ==>
      r[i] == list[i].(isFavorite := !currentStatus)
    ensures forall i :: 0 <= i < |list| && list[i].id != routeId ==> r[i] == list[i]
  {
    if list == [] then []
    else
      var head := if list[0].id == routeId then list[0].(isFavorite := !currentStatus) else list[0];
      [head] + OptimisticUpdate(list[1..], routeId, currentStatus)
  }

  /** The update depends on the passed status, not on the stored flag, so
      applying it twice with the same arguments is the same as once. */
  lemma {:induction false} OptimisticUpdateIdempotent(list: seq<Route>, routeId: int, currentStatus: bool)
    ensures OptimisticUpdate(OptimisticUpdate(list, routeId, currentStatus), routeId, currentStatus)
         == OptimisticUpdate(list, routeId, currentStatus)
  {
    var once := OptimisticUpdate(list, routeId, currentStatus);
    var twice := OptimisticUpdate(once, routeId, currentStatus);
    assert |twice| == |once|;
    forall i | 0 <= i < |once|
      ensures twice[i] == once[i]
    {
      assert once[i].id == list[i].id;
    }
  }

  /** Ids are unique in the list. */
  predicate UniqueIds(list: seq<Route>)
  {
    forall i, j :: 0 <= i < j < |list| ==> list[i].id != list[j].id
  }

  /** With unique ids, the update changes at most one record: the one whose
      id is `routeId`, and only its flag. */
  lemma FlipsAtMostOne(list: seq<Route>, routeId: int, currentStatus: bool, i: int, j: int)
    requires UniqueIds(list)
    requires 0 <= i < j < |list|
    ensures var r := OptimisticUpdate(list, routeId, currentStatus);
      r[i] == list[i] || r[j] == list[j]
  {
  }

  /** When the toggled route's stored flag is `currentStatus` (the toggle
      passes the flag it shows), that record's flag flips and the list reads
      the same otherwise. */
  lemma FlipsShownFlag(list: seq<Route>, k: int, currentStatus: bool)
    requires UniqueIds(list)
    requires 0 <= k < |list| && list[k].isFavorite == currentStatus
    ensures var r := OptimisticUpdate(list, list[k].id, currentStatus);
      r == list[k := list[k].(isFavorite := !list[k].isFavorite)]
  {
    var r := OptimisticUpdate(list, list[k].id, currentStatus);
    var expected := list[k := list[k].(isFavorite := !list[k].isFavorite)];
    forall i | 0 <= i < |list|
      ensures r[i] == expected[i]
    {
      if i != k {
        assert list[i].id != list[k].id;
      }
    }
  }

  /** `handleToggleFavorite`: without a token nothing happens. Otherwise the
      optimistic update is shown; when the POST fails the list is fetched
      again and the fetched state replaces it. */
  function Toggle(prev: seq<Route>, token: Option<string>, routeId: int, currentStatus: bool,
                  postOk: bool, refetch: FetchResponse): (r: seq<Route>)
    ensures !Truthy(token) ==> r == prev
    ensures Truthy(token) && postOk ==> r == OptimisticUpdate(prev, routeId, currentStatus)
    ensures Truthy(token) && !postOk ==> r == Fetch(OptimisticUpdate(prev, routeId, currentStatus), token, refetch).favorites
  {
    if !Truthy(token) then prev
    else
      var shown := OptimisticUpdate(prev, routeId, currentStatus);
      if postOk then shown else Fetch(shown, token, refetch).favorites
  }

  /** A failed toggle leaves exactly what the server returns on the refetch,
      whatever the optimistic update showed. */
  lemma FailedToggleShowsServerState(prev: seq<Route>, token: Option<string>, routeId: int, currentStatus: bool,
                                     items: seq<Route>)
    requires Truthy(token)
    ensures Toggle(prev, token, routeId, currentStatus, false, Array(items)) == items
  {
  }
}
