/** frontend/src/pages/Ticket.tsx: the out-of-city fare rule, the route
    lookup and the guards of the reservation flow, and manual boarding
    confirmation. The network calls are parameters: the fetched route list
    (None when the request fails) and whether the reservation POST resolved,
    that is, got a 2xx reply. */
module Ticket {
  import opened Common
  import Records
  import MainBackend

  /** A route as the server sends it. The screen declares the name a string,
      but the `route_name` column is nullable, so the name may be missing. */
  datatype BusRoute = BusRoute(id: int, name: Option<string>, time: Option<string>, location: string)

  /** Routes to these cities are charged; every other route is free. */
  const OutOfCityKeywords: seq<string> := ["울산", "경주", "구미", "포항"]

  /** `checkIsFreeRoute`: no out-of-city keyword occurs in the name. */
  predicate IsFreeRoute(name: string)
  {
    !exists k | k in OutOfCityKeywords :: Contains(name, k)
  }

  /** The empty name is free. */
  lemma EmptyNameIsFree()
    ensures IsFreeRoute("")
  {
    forall k | k in OutOfCityKeywords
      ensures !Contains("", k)
    {
      assert |k| > 0;
    }
  }

  /** Any name with an out-of-city keyword in it is charged. */
  lemma KeywordMakesCharged(before: string, k: string, after: string)
    requires k in OutOfCityKeywords
    ensures !IsFreeRoute(before + k + after)
  {
    ContainsInfix(before, k, after);
  }

  /** Conversely, a charged name has an out-of-city keyword in it. */
  lemma ChargedHasKeyword(name: string) returns (before: string, k: string, after: string)
    requires !IsFreeRoute(name)
    ensures k in OutOfCityKeywords && name == before + k + after
  {
    k :| k in OutOfCityKeywords && Contains(name, k);
    before, after := ContainsSplits(name, k);
  }

  /** The fare line of the ticket. */
  function FareLabel(free: bool): (r: string)
    ensures r == "무료" <==> free
    ensures r == "3,000P" <==> !free
  {
    if free then "무료" else "3,000P"
  }

  /** The pass title of the ticket. */
  function PassLabel(free: bool): (r: string)
    ensures r == "Campus Shuttle Pass" <==> free
    ensures r == "City-Express Pass" <==> !free
  {
    if free then "Campus Shuttle Pass" else "City-Express Pass"
  }

  /** A route named after an out-of-city destination shows the 3,000P fare
      and the city-express title. */
  lemma ChargedRouteLabels(before: string, k: string, after: string)
    requires k in OutOfCityKeywords
    ensures var free := IsFreeRoute(before + k + after);
      FareLabel(free) == "3,000P" && PassLabel(free) == "City-Express Pass"
  {
    KeywordMakesCharged(before, k, after);
  }

  /** A route whose name has no out-of-city keyword shows as free. */
  lemma FreeRouteLabels(name: string)
    requires IsFreeRoute(name)
    ensures FareLabel(IsFreeRoute(name)) == "무료" && PassLabel(IsFreeRoute(name)) == "Campus Shuttle Pass"
  {
  }

  function HasId(id: int): BusRoute -> bool
  {
    (r: BusRoute) => r.id == id
  }

  /** `routes.find(r => r.id === Number(id))`; `Number(id)` is given, None
      standing for NaN, which equals no id. */
  function FindRoute(routes: seq<BusRoute>, id: Option<int>): (r: Option<BusRoute>)
    ensures r.Some? ==> id.Some? && r.value in routes && r.value.id == id.value
    ensures r.Some? ==> exists k :: 0 <= k < |routes| && routes[k] == r.value && forall j :: 0 <= j < k ==> routes[j].id != id.value
    ensures r.None? <==> id.None? || forall x :: x in routes ==> x.id != id.value
  {
    if id.None? then None
    else match FindIndex(routes, HasId(id.value))
      case None => None
      case Some(k) => Some(routes[k])
  }

  /** Where the reservation flow ends up. */
  datatype Flow =
    | Idle                                   // no `id` in the URL: nothing runs
    | ToLogin                                // no stored user id
    | ToHome(posted: bool)                   // alert, then "/"
    | Showing(route: BusRoute, free: bool)   // the ticket is displayed

  /** `processReservation`, guarded by `if (id)`. `storedUserId` is
      `localStorage.getItem("user_id")`; an empty string is falsy in both.
      A missing route name makes `checkIsFreeRoute` throw before the POST,
      which lands in the same handler as a failed request. `reserveOk` is
      whether the POST resolved: axios rejects only a non-2xx reply, and the
      page never reads the body. */
  function ProcessReservation(idParam: Option<string>, idNumber: Option<int>, storedUserId: Option<string>,
                              fetched: Option<seq<BusRoute>>, reserveOk: bool): (r: Flow)
    ensures idParam.None? || idParam.value == "" <==> r == Idle
    ensures r == ToLogin <==> idParam.Some? && idParam.value != "" && (storedUserId.None? || storedUserId.value == "")
    ensures r.Showing? ==>
      && reserveOk && fetched.Some? && Some(r.route) == FindRoute(fetched.value, idNumber)
      && r.route.name.Some? && r.free == IsFreeRoute(r.route.name.value)
    ensures r != Idle && r != ToLogin ==>
      && (fetched.None? ==> r == ToHome(false))
      && (fetched.Some? && FindRoute(fetched.value, idNumber).None? ==> r == ToHome(false))
      && (fetched.Some? && FindRoute(fetched.value, idNumber).Some? ==>
            var route := FindRoute(fetched.value, idNumber).value;
            r == if route.name.None? then ToHome(false)
                 else if reserveOk then Showing(route, IsFreeRoute(route.name.value))
                 else ToHome(true))
  {
    if idParam.None? || idParam.value == "" then Idle
    else if storedUserId.None? || storedUserId.value == "" then ToLogin
    else if fetched.None? then ToHome(false)
    else match FindRoute(fetched.value, idNumber)
      case None => ToHome(false)
      case Some(route) =>
        if route.name.None? then ToHome(false)
        else if reserveOk then Showing(route, IsFreeRoute(route.name.value))
        else ToHome(true)
  }

  /** A request with an id and a stored user, for a route that is listed and
      named, shows the ticket with that route's fare exactly when the
      reservation POST resolves. */
  lemma TicketShownIffReserved(id: string, idNumber: int, user: string, routes: seq<BusRoute>, k: int, reserveOk: bool)
    requires id != "" && user != ""
    requires 0 <= k < |routes| && routes[k].id == idNumber && routes[k].name.Some?
    requires forall j :: 0 <= j < k ==> routes[j].id != idNumber
    ensures ProcessReservation(Some(id), Some(idNumber), Some(user), Some(routes), reserveOk).Showing? <==> reserveOk
    ensures reserveOk ==> ProcessReservation(Some(id), Some(idNumber), Some(user), Some(routes), reserveOk)
                          == Showing(routes[k], IsFreeRoute(routes[k].name.value))
  {
    var found := FindRoute(routes, Some(idNumber));
    assert found.Some?;
    var w :| 0 <= w < |routes| && routes[w] == found.value && forall j :: 0 <= j < w ==> routes[j].id != idNumber;
    assert w == k;
  }

  /** Whether axios resolves the POST for a reply of `reserve_bus` in
      backend/main.py: every reply but a raised `HTTPException` is a 2xx. */
  predicate PostResolves(reply: MainBackend.Reply)
  {
    !reply.HttpError?
  }

  /** `reserve_bus` answers a balance below 3000 with HTTP 200 and
      `{"status": "error"}`. The page takes that as a reservation: it shows
      the ticket, fare included, while nothing was booked and no points were
      deducted. */
  lemma LowBalanceStillShowsTicket(id: string, idNumber: int, user: string, routes: seq<BusRoute>, k: int,
                                   db: Records.Db, userId: int, seat: MainBackend.Seat)
    requires id != "" && user != ""
    requires 0 <= k < |routes| && routes[k].id == idNumber && routes[k].name.Some?
    requires forall j :: 0 <= j < k ==> routes[j].id != idNumber
    requires Records.UserById(db.users, userId).Some?
    requires db.users[Records.UserById(db.users, userId).value].points < Records.Fare
    ensures var step := MainBackend.ReserveStep(db, idNumber, userId, seat);
      && step.db == db
      && step.reply.StatusError?
      && ProcessReservation(Some(id), Some(idNumber), Some(user), Some(routes), PostResolves(step.reply))
         == Showing(routes[k], IsFreeRoute(routes[k].name.value))
  {
    TicketShownIffReserved(id, idNumber, user, routes, k, true);
  }

  /** `handleManualVerify`: the ticket becomes scanned only when the user confirms. */
  function ManualVerify(scanned: bool, confirmed: bool): (r: bool)
    ensures r <==> scanned || confirmed
    ensures !confirmed ==> r == scanned
  {
    if confirmed then true else scanned
  }
}
