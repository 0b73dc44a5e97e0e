# DCU shuttle bus: a Dafny model

This project models the decision logic of a campus shuttle-bus application.
The application has two parts:

- **The FastAPI backend.** It handles e-mail verification codes, accounts, the
  points ledger for seat reservations and refunds. There are two copies:
  `backend/main.py` and the older `backend/utils.py`.
- **The React frontend.** The model covers its route guard and bottom bar, the
  home screen's favourites and search, the ticket screen's fare rule and
  reservation flow, the points screen's pending payment and countdown, the
  favourites screen, the signup form and logout.

Each source file has one Dafny module:

| module | file | what it holds |
|---|---|---|
| `Common` | (shared) | `Option`, Python/JavaScript string operations (`endswith`, `includes`, `trim`, `split`, `join`), `filter`, decimal text |
| `Records` | `backend/models.py` | the `users` and `bookings` rows, the code store, the two `.first()` queries and the table constraints |
| `MainBackend` | `backend/main.py` | one step function per endpoint, plus `MainServer`, whose methods update its fields as the step functions say |
| `UtilsBackend` | `backend/utils.py` | the same for the older copy, plus lemmas comparing it with `main.py` |
| `Home` | `frontend/src/pages/Home.tsx` | favourite toggling, search filtering, the favourite section, time labels |
| `Ticket` | `frontend/src/pages/Ticket.tsx` | the out-of-city fare rule, route lookup, the reservation flow |
| `PointAndPass` | `frontend/src/pages/PointAndPass.tsx` | `PointScreen`: the pending payment, countdown tick, charge and confirm handlers |
| `Favorites` | `frontend/src/pages/Favorites.tsx` | fetch, the optimistic toggle and its rollback by refetch |
| `App` | `frontend/src/App.tsx` | route resolution, `PrivateRoute`, bottom-bar visibility |
| `Signup` | `frontend/src/pages/Signup.tsx` | the domain guard, the trimmed body, the refusal text |
| `Auth` | `frontend/src/utils/auth.ts` | `Browser.Logout` over the key-value store |

Some things the application takes from outside become parameters:

- **Randomness:** a drawn verification code (`SixDigit`, 100000..999999) and a
  seat number (`Seat`, 1..45).
- **Network replies:** an `Option` or a small reply datatype.
- **The clock:** `now`, in milliseconds.
- **A confirmation dialog's answer:** a `bool`.
- **Case folding:** a function `fold: char -> char`.

A raised `HTTPException` becomes an `HttpError` reply, and the state is left
as it was, since nothing is committed before the raise.

## Model

| member | source | states |
|---|---|---|
| Common.DecimalRoundTrip | backend/main.py:48 | `str(n)` of a natural number reads back as that number |
| Common.TrimSlice | frontend/src/pages/Signup.tsx:70-73 | `trim` returns a slice of its input with only white space cut off at the two ends, and neither end of the result is white space |
| Records.CodeTextHasSixDigits | backend/main.py:48 | the text of a code drawn from 100000..999999 is exactly six characters long |
| Records.UserByEmail | backend/main.py:62 | the index found has the e-mail; None exactly when no row has it |
| Records.UserById | backend/main.py:152 | the index found has the id; None exactly when no row has it |
| Records.ScanByEmail | backend/main.py:62 | the row-by-row scan returns the first row with that e-mail, or none, as `UserByEmail` says |
| Records.ScanById | backend/main.py:152 | the row-by-row scan returns the first row with that id, or none, as `UserById` says |
| Records.NextId | backend/models.py:10 | the id the `users.id` sequence gives a new user is positive and used by no existing row |
| Records.UserByEmailUnique | backend/models.py:11 | with unique e-mails, the row with a given e-mail is the one the query returns |
| Records.UserByIdUnique | backend/models.py:10 | with unique ids, the row with a given id is the one the query returns |
| Records.InsertKeepsWellFormed | backend/models.py:8-15 | inserting a row with a fresh id and an unused e-mail keeps ids positive and unique and e-mails unique |
| Records.UpdateKeepsWellFormed | backend/models.py:8-15 | changing a row's other columns keeps the constraints |
| MainBackend.IsCuEmail | backend/main.py:36-38 | an address passes exactly when it is some local part followed by "@cu.ac.kr" |
| MainBackend.SendCodeStep | backend/main.py:42-54 | 400 and no change for a foreign domain; otherwise the code text is stored for the e-mail, replacing any earlier one, and it has six digits that read back as the drawn number |
| MainBackend.SendCodeMailedStep | backend/main.py:229-245 | stores exactly what the first handler stores; the reply is success or the mail-failure error depending on the mail result |
| MainBackend.SignupStep | backend/main.py:56-78 | 400 on a code mismatch, then 400 on a taken e-mail, both with no change; success exactly otherwise, appending one user with 0 points and deleting the code |
| MainBackend.LoginReply | backend/main.py:80-90 | answers the stored user's id, name, e-mail and points exactly when the e-mail is known and the password matches; otherwise 401 |
| MainBackend.ResetPasswordStep | backend/main.py:92-108 | 400 on a code mismatch, then 404 on an unknown e-mail; on success only that user's password changes and the code is deleted |
| MainBackend.ReserveStep | backend/main.py:149-180 | 404 for an unknown user; an error status below 3000 points; 500 when the route row is missing; any refusal leaves the state unchanged; success exactly otherwise, deducting 3000 and adding one booking with the drawn seat |
| MainBackend.CancelStep | backend/main.py:182-200 | the booking id is ignored: user 1 is credited 3000 points and nothing else changes; 404 exactly when user 1 does not exist |
| MainBackend.SignupKeepsWellFormed | backend/main.py:56-78 | a signup keeps the users-table constraints |
| MainBackend.ResetKeepsWellFormed | backend/main.py:92-108 | a password reset keeps the users-table constraints |
| MainBackend.ReserveKeepsWellFormed | backend/main.py:149-180 | a reservation keeps the users-table constraints |
| MainBackend.CancelKeepsWellFormed | backend/main.py:182-200 | a cancellation keeps the users-table constraints |
| MainBackend.ReserveKeepsBalancesNonNegative | backend/main.py:156-159 | if every balance starts non-negative, reserving or refunding keeps every balance non-negative |
| MainBackend.SignupConsumesCode | backend/main.py:75-76 | after a successful signup, the same e-mail and code are refused as a mismatch by a second signup and by a reset |
| MainBackend.LoginAfterSignup | backend/main.py:66-90 | after a signup, logging in with that e-mail and password answers the new account: a fresh id, the name and 0 points |
| MainBackend.LoginAfterReset | backend/main.py:92-108 | after a reset, the new password logs in and a different old one is refused |
| MainBackend.ReserveThenCancelRefunds | backend/main.py:149-200 | for user 1, a reservation and then a cancellation restore every balance; the booking stays |
| MainBackend.MainServer.constructor | backend/main.py:34 | a fresh process starts with an empty code store |
| MainBackend.MainServer.SendCode | backend/main.py:42-54 | the new fields and the reply are those of `SendCodeStep` |
| MainBackend.MainServer.SendCodeMailed | backend/main.py:229-245 | the new fields and the reply are those of `SendCodeMailedStep` |
| MainBackend.MainServer.Signup | backend/main.py:56-78 | the new fields and the reply are those of `SignupStep`; the table constraints are kept |
| MainBackend.MainServer.Login | backend/main.py:80-90 | the reply is `LoginReply` of the current state, which is not changed |
| MainBackend.MainServer.ResetPassword | backend/main.py:92-108 | the new fields and the reply are those of `ResetPasswordStep`; the constraints are kept |
| MainBackend.MainServer.ReserveBus | backend/main.py:149-180 | the new fields and the reply are those of `ReserveStep`; the constraints are kept |
| MainBackend.MainServer.CancelBooking | backend/main.py:182-200 | the new fields and the reply are those of `CancelStep`; the constraints are kept |
| UtilsBackend.SendCodeStep | backend/utils.py:35-46 | 400 and no change for a foreign domain; otherwise the six-digit code is stored for the e-mail |
| UtilsBackend.SignupStep | backend/utils.py:49-66 | 400 on a code mismatch or a taken e-mail; otherwise one user with 0 points is appended and the code is kept |
| UtilsBackend.LoginReply | backend/utils.py:69-79 | answers id, name and points exactly when the e-mail is known and the password matches; otherwise 401 |
| UtilsBackend.ResetPasswordStep | backend/utils.py:82-93 | 400, then 404; on success only that user's password changes and the code is kept |
| UtilsBackend.ReserveStep | backend/utils.py:100-110 | a single 400 for a missing user or fewer than 3000 points; then 500 when the route row is missing, since the booking breaks the foreign key at commit and is rolled back; any refusal leaves the state unchanged; success exactly otherwise, deducting 3000 and adding a booking without a seat |
| UtilsBackend.CodeOutlivesSignup | backend/utils.py:64-66 | after a signup, the same code still resets that account's password |
| UtilsBackend.CodeOutlivesReset | backend/utils.py:91-93 | the same e-mail and code reset the password again |
| UtilsBackend.SignupKeepsWellFormed | backend/utils.py:49-66 | a signup keeps the users-table constraints |
| UtilsBackend.ResetKeepsWellFormed | backend/utils.py:82-93 | a reset keeps the users-table constraints |
| UtilsBackend.ReserveKeepsInvariants | backend/utils.py:103-106 | a reservation keeps the constraints and keeps every balance non-negative |
| UtilsBackend.ReserveAgreesWithMain | backend/utils.py:100-110 | both copies accept the same reservations and leave the same balances; both answer 500 for a missing route |
| UtilsBackend.SignupAgreesWithMain | backend/utils.py:49-66 | both copies accept the same signups and add the same user; only `main.py` deletes the code |
| UtilsBackend.UtilsServer.constructor | backend/utils.py:32 | a fresh process starts with an empty code store |
| UtilsBackend.UtilsServer.SendVerificationCode | backend/utils.py:35-46 | the new fields and the reply are those of `SendCodeStep` |
| UtilsBackend.UtilsServer.Signup | backend/utils.py:49-66 | the new fields and the reply are those of `SignupStep`; the constraints are kept |
| UtilsBackend.UtilsServer.Login | backend/utils.py:69-79 | the reply is `LoginReply` of the unchanged state |
| UtilsBackend.UtilsServer.ResetPassword | backend/utils.py:82-93 | the new fields and the reply are those of `ResetPasswordStep`; the constraints are kept |
| UtilsBackend.UtilsServer.ReserveBus | backend/utils.py:100-110 | the new fields and the reply are those of `ReserveStep`; the constraints are kept |
| Home.ToggleFavorite | frontend/src/pages/Home.tsx:69-73 | the id is a favourite afterwards exactly when it was not before; every other id keeps its status; a new id is appended at the end |
| Home.ToggleKeepsOthersInOrder | frontend/src/pages/Home.tsx:71 | with the toggled id left aside, the list is the same sequence before and after |
| Home.ToggleTwice | frontend/src/pages/Home.tsx:69-73 | toggling twice restores the set of favourites, and restores the list itself when the id was absent |
| Home.Lower | frontend/src/pages/Home.tsx:81-82 | lower-casing keeps the length and folds each character |
| Home.Matches | frontend/src/pages/Home.tsx:80-82 | a route with neither a name nor a location never matches; the empty term matches every other route |
| Home.FilteredRoutes | frontend/src/pages/Home.tsx:79-83 | the result keeps the routes' order, a route is in it exactly when its folded name or location contains the folded term, and a matching route occurs as often as in the list |
| Home.EmptySearchKeepsNamedRoutes | frontend/src/pages/Home.tsx:81-82 | an empty search keeps exactly the routes that have a name or a location |
| Home.FavoriteSection | frontend/src/pages/Home.tsx:110-127 | shown exactly when both lists are non-empty; it lists the routes whose id is a favourite, in route order, each as often as in the route list |
| Home.TimeLabel | frontend/src/pages/Home.tsx:121 | a present, non-empty time is shown as itself; a missing or empty one shows the default text; the label is never empty |
| Ticket.EmptyNameIsFree | frontend/src/pages/Ticket.tsx:34-37 | a route with an empty name is free |
| Ticket.KeywordMakesCharged | frontend/src/pages/Ticket.tsx:34-37 | any name containing one of the four city keywords is charged |
| Ticket.ChargedHasKeyword | frontend/src/pages/Ticket.tsx:34-37 | conversely, a charged name is some text, one of the four city keywords, and some text |
| Ticket.FareLabel | frontend/src/pages/Ticket.tsx:102 | the fare line reads "무료" exactly for a free route and "3,000P" exactly for a charged one |
| Ticket.PassLabel | frontend/src/pages/Ticket.tsx:86 | the title reads "Campus Shuttle Pass" exactly for a free route and "City-Express Pass" exactly for a charged one |
| Ticket.ChargedRouteLabels | frontend/src/pages/Ticket.tsx:86-102 | a charged route shows "3,000P" and the city-express title |
| Ticket.FreeRouteLabels | frontend/src/pages/Ticket.tsx:86-102 | a name without any keyword shows as free with the campus title |
| Ticket.FindRoute | frontend/src/pages/Ticket.tsx:54 | the route found has the requested id and is the first such in the list; None exactly when the id is NaN or no route has it |
| Ticket.ProcessReservation | frontend/src/pages/Ticket.tsx:44-76 | nothing runs without an id; the login page exactly when no user id is stored; a failed route fetch, a route that is not found and a route without a name (`route_name` is nullable) send the user home before any reservation is posted; a named route is shown with its fare rule exactly when the reservation POST resolves (a 2xx reply), and a rejected POST sends the user home after the post |
| Ticket.TicketShownIffReserved | frontend/src/pages/Ticket.tsx:44-76 | with an id, a stored user and a named route in the list, the ticket is shown exactly when the reservation POST resolves (a 2xx reply) |
| Ticket.LowBalanceStillShowsTicket | frontend/src/pages/Ticket.tsx:65-69 | with the deployed `main.py` backend, a user below 3000 points gets the 200 refusal, the database is unchanged, and the page still shows the ticket with its fare |
| Ticket.ManualVerify | frontend/src/pages/Ticket.tsx:22-27 | the ticket is marked boarded exactly when the driver confirms or it already was |
| PointAndPass.ChargeButtons | frontend/src/pages/PointAndPass.tsx:182-189 | six buttons offering 10000 to 300000 points, each priced at the amount plus the 330 fee |
| PointAndPass.SecondsInMinute | frontend/src/pages/PointAndPass.tsx:84 | the display is between 0 and 59 and counts the whole seconds within the current minute of the remaining time |
| PointAndPass.SecondsRepeatEveryMinute | frontend/src/pages/PointAndPass.tsx:84 | the display is the same one minute apart, so it is not the total number of seconds left |
| PointAndPass.UserIdOf | frontend/src/pages/PointAndPass.tsx:39-45 | `user_id` when it is non-zero, else `id` when non-zero, else no id; the result is never 0 |
| PointAndPass.ApplyStatus | frontend/src/pages/PointAndPass.tsx:55-58 | a missing field takes its default (0, false, empty); a present value is kept |
| PointAndPass.PointScreen.constructor | frontend/src/pages/PointAndPass.tsx:26-31 | 0 points, no pass, loading, no pending payment and the countdown off |
| PointAndPass.PointScreen.FetchUserStatus | frontend/src/pages/PointAndPass.tsx:34-65 | a request is made exactly when there is a user id; a reply replaces the status with defaults applied; loading ends |
| PointAndPass.PointScreen.Tick | frontend/src/pages/PointAndPass.tsx:72-89 | at or past the expiry the payment is dropped and the countdown stops; before it the seconds display is updated and the payment stays |
| PointAndPass.PointScreen.RequestCharge | frontend/src/pages/PointAndPass.tsx:92-110 | a reply becomes the pending payment and starts the countdown; a failure changes nothing |
| PointAndPass.PointScreen.ConfirmCharge | frontend/src/pages/PointAndPass.tsx:113-128 | without a pending payment or on a refusal the payment, status and loading flag stay; a confirmed deposit clears the payment and stops the countdown, ends loading, and replaces the status with the refetched one, or keeps it when no request is made or it fails; the countdown display is never touched |
| PointAndPass.PointScreen.Cancel | frontend/src/pages/PointAndPass.tsx:170 | the pending payment is dropped and the countdown stops |
| PointAndPass.PointScreen.DepositShown | frontend/src/pages/PointAndPass.tsx:157 | while a payment is pending, the amount to deposit is its amount plus 330 |
| Favorites.Fetch | frontend/src/pages/Favorites.tsx:16-45 | without a token the list is kept and no request is made; an array reply replaces the list; a non-array or a failure empties it; loading always ends |
| Favorites.OptimisticUpdate | frontend/src/pages/Favorites.tsx:61-67 | same length and order; each entry with the id takes the negated passed status; every other entry is unchanged |
| Favorites.OptimisticUpdateIdempotent | frontend/src/pages/Favorites.tsx:64 | applying the update twice with the same arguments equals applying it once |
| Favorites.FlipsAtMostOne | frontend/src/pages/Favorites.tsx:61-67 | with unique ids, at most one entry changes |
| Favorites.FlipsShownFlag | frontend/src/pages/Favorites.tsx:61-67 | when the passed status is the entry's shown flag, exactly that entry's flag flips |
| Favorites.Toggle | frontend/src/pages/Favorites.tsx:52-81 | without a token nothing changes; otherwise the optimistic list stays after a successful POST and is replaced by a refetch after a failed one |
| Favorites.FailedToggleShowsServerState | frontend/src/pages/Favorites.tsx:75-79 | after a failed toggle the list is exactly what the server returns |
| App.PrivateRoute | frontend/src/App.tsx:48-51 | renders the page exactly when a token is stored; otherwise redirects to "/login" |
| App.ShowBottomNav | frontend/src/App.tsx:29-42 | the bar is shown exactly when a token is stored and the path is not "/login", "/signup" or "/forgot-password" |
| App.TicketId | frontend/src/App.tsx:109 | the `:id` segment is a non-empty, slash-free text after "/ticket/" |
| Common.Truthy | frontend/src/App.tsx:48-51 | a missing stored token and the empty string are falsy, any other text truthy; the same test guards Favorites.tsx:18-24 |
| App.PageAt | frontend/src/App.tsx:61-135 | each of the nine fixed paths names its own page and no other path does; a path names a ticket page exactly when it is "/ticket/" and one non-empty, slash-free segment, which is the page's id |
| App.Resolve | frontend/src/App.tsx:59-139 | an undeclared path redirects to "/"; with a token every declared path renders its page; without one the three sign-in pages render and every other declared path redirects to "/login" |
| App.UnknownPathGoesHome | frontend/src/App.tsx:138 | an undeclared path redirects to "/" with or without a token; "/" then renders the home page with a token and redirects to "/login" without one |
| App.TokenRendersDeclaredPages | frontend/src/App.tsx:59-135 | with a token, "/", "/track", "/messages", "/points", "/nfc-scan", "/mypage" and every "/ticket/<id>" render their pages |
| App.NoTokenNoServicePage | frontend/src/App.tsx:37-51 | without a token, only the sign-in pages render and the bottom bar is hidden |
| Signup.SendCodeAllowed | frontend/src/pages/Signup.tsx:17 | an address passes the page's guard exactly when it is some local part followed by "@cu.ac.kr" |
| Signup.SendCodeGuardAgreesWithServer | frontend/src/pages/Signup.tsx:17 | the page's domain guard accepts exactly the addresses the server's `is_cu_email` accepts |
| Signup.SendCode | frontend/src/pages/Signup.tsx:16-43 | a request is made exactly when the guard passes; the sent flag rises only on an OK reply |
| Signup.BodyOf | frontend/src/pages/Signup.tsx:69-74 | e-mail, code and name are the typed text without white space at either end; the password is sent exactly as typed |
| Signup.BodyStable | frontend/src/pages/Signup.tsx:69-74 | building the body from a body's own fields gives the same body |
| Signup.ItemLine | frontend/src/pages/Signup.tsx:89 | an entry prints as its second `loc` element, ": ", and its message; a missing element prints as "undefined" |
| Signup.Lines | frontend/src/pages/Signup.tsx:89 | one line per entry, in order |
| Signup.ErrorMessage | frontend/src/pages/Signup.tsx:87-92 | an array detail gives the entry lines joined by line breaks; a string detail is shown as is; anything else gives the default text |
| Signup.ErrorLinesRecoverable | frontend/src/pages/Signup.tsx:89 | when no entry contains a line break, splitting the message on line breaks gives back one line per entry |
| Signup.Submit | frontend/src/pages/Signup.tsx:77-98 | navigates to "/login" exactly on an OK reply; any other reply alerts the failure prefix and the message; a network failure alerts the fixed text |
| Auth.LoggedOutStore | frontend/src/utils/auth.ts:5-7 | "user", "userEmail" and "token" are removed; every other key keeps its value; no key is added |
| Auth.OtherKeysSurvive | frontend/src/utils/auth.ts:5-7 | "points", "phone", "bus-favorites" and "user_id" survive a logout unchanged |
| Auth.LoggedOutStoreIdempotent | frontend/src/utils/auth.ts:2-12 | logging out a second time removes nothing more |
| Auth.Browser.constructor | frontend/src/utils/auth.ts:2 | the store and the location are as given |
| Auth.Browser.RemoveItem | frontend/src/utils/auth.ts:5 | the key is removed and the rest of the store is unchanged |
| Auth.Browser.Logout | frontend/src/utils/auth.ts:2-12 | when confirmed, the store becomes `LoggedOutStore` of the old store and the location "/login"; when not, nothing changes |

## Left out

- HTTP plumbing: every `fetch` and axios call, base URLs, headers, JSON decoding. A reply is a parameter. Query parameters are taken as given, so `reserve_bus`'s default `user_id = 1` (backend/main.py:150) for a request that omits it is not modelled: `ReserveStep` takes the user id it is passed.
- Concurrency: each request is modelled as one atomic step. FastAPI runs these handlers on a thread pool, so two reservations for one user can read the same balance and one `points -= 3000` (backend/main.py:159) or refund `+= 3000` is lost; the module-level code store is shared between threads as well. `ReserveThenCancelRefunds` and `ReserveKeepsBalancesNonNegative` hold for requests served one at a time.
- Ticket.ProcessReservation: the page never reads the reply body, so a 200 refusal (`{"status": "error"}`) counts as a reservation; `LowBalanceStillShowsTicket` states this for `main.py`'s low-balance reply.
- `send_real_email` (backend/main.py:206-226): SMTP I/O. Its result is the `mailed` parameter of `SendCodeMailedStep`.
- Live tracking and ETA: `update_bus_location` (backend/main.py:117-128) stores float coordinates and the wall-clock time; `track_bus` (backend/main.py:130-145) calls `utils.calculate_eta`, which utils.py does not define.
- Route listing: `get_all_routes` in both copies (backend/main.py:112-115, backend/utils.py:96-98) returns the table as stored; the backend model keeps only the set of route ids, and the frontend takes the listed routes as a parameter.
- Messages: `get_messages` in both copies (backend/main.py:202-205, backend/utils.py:112-114) and the message rows that reserve and cancel insert (backend/main.py:170-177, 190-197). They are reads and inserts of a table nothing else in the core reads.
- MainBackend.ReserveStep and MainBackend.CancelStep: the success paths follow the evident intent, not models.py. `models.Message` has no `user_id` column (backend/models.py:63-72), so building those rows as written would raise before the commit.
- The second `send_code` (backend/main.py:229-245) is registered under the same path as the first, and the router dispatches to the first. It is modelled on its own (`SendCodeMailedStep`) and is unreachable through the route.
- MainBackend.ReserveStep: a missing route is modelled as a 500 with nothing committed, because `bus.route_name` fails on `None` before `db.commit()`.
- Booking ids, timestamps (`booked_at`, `created_at`), the booking `status` column and the `phone` column are not modelled. Nothing in the core reads them.
- Records.NextId: the model gives a new user one more than the largest id present. A PostgreSQL `serial` sequence never reuses a value, so after a rolled-back insert or a deleted row it gives a larger id; the model proves only that the new id is fresh and positive, which both choices share.
- Integers are unbounded: the `points` and `id` columns are 32-bit PostgreSQL `INTEGER`s, so a refund (`points += 3000`) that would pass 2147483647 fails at commit with a 500. That overflow is not modelled.
- Home.Lower: `toLowerCase` is an abstract character fold, so Unicode case mappings that change the length are not modelled.
- Home: the localStorage persistence of the favourites (Home.tsx:22-25, 65-67) is left out; the toggle works on the list value.
- PointAndPass.PointScreen.Tick: `expire_at` is taken as an already parsed instant; a text that `Date` cannot parse (NaN) is not modelled. `setInterval` scheduling and React re-rendering are not modelled either: one call is one tick.
- App.Resolve: React Router's case-insensitive matching and its tolerance of a trailing slash are not modelled; paths match exactly.
- Ticket.ProcessReservation: the NFC availability check, the `loading` flag and the alert texts are left out.
- NFC scanning, the payment SDK, and the presentational pages and components (Messages, BottomNav, RouteItem, EtaFloatingBar, MyPage, ForgotPassword, Login) are not part of this model.
