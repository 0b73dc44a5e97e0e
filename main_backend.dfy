/** backend/main.py: accounts, e-mail verification codes and the points
    ledger for reservations.

    The step functions (`SignupStep`, `ReserveStep`, ...) say what each
    endpoint does to the state and what it answers; `MainServer` holds that
    state in fields and its methods are proved to behave as the step
    functions say. A raised `HTTPException` becomes an `HttpError` reply with
    the state left as it was (nothing is committed before any raise). */
module MainBackend {
  import opened Common
  import opened Records

  const SchoolDomain: string := "@cu.ac.kr"

  /** `cancel_booking` always refunds this user, whatever booking is named. */
  const RefundUserId: int := 1

  /** `random.randint(1, 45)`: the seat a reservation is given. */
  type Seat = n: int | 1 <= n <= 45 witness 1

  /** The user record `login` answers with. */
  datatype Profile = Profile(id: int, name: string, email: string, points: int)

  datatype Reply =
    | Done                               // {"status": "success", "message": ...}
    | LoggedIn(profile: Profile)         // {"status": "success", "user": {...}}
    | Reserved(remaining: int)           // {"status": "success", "remaining_points": ...}
    | StatusError(why: Refusal)          // {"status": "error", ...} with HTTP 200
    | HttpError(status: int, why: Refusal)

  datatype Step = Step(db: Db, reply: Reply)

  /** `is_cu_email`: the address is some local part followed by "@cu.ac.kr". */
  predicate IsCuEmail(email: string)
    ensures IsCuEmail(email) <==> exists local: string :: email == local + SchoolDomain
  {
    EndsWithIffConcat(email, SchoolDomain);
    EndsWith(email, SchoolDomain)
  }

  // ---------------------------------------------------------------------------
  // Endpoints as state transitions
  // ---------------------------------------------------------------------------

  /** The first `send_code` (the one registered first for "/auth/send-code"). */
  function SendCodeStep(db: Db, email: string, drawn: SixDigit): (r: Step)
    ensures r.reply == Done <==> IsCuEmail(email)
    ensures !IsCuEmail(email) ==> r == Step(db, HttpError(400, NotSchoolEmail))
    ensures IsCuEmail(email) ==>
      && r.db == db.(codes := db.codes[email := DecimalString(drawn)])
      && |r.db.codes[email]| == 6
      && DecimalValue(r.db.codes[email]) == drawn
  {
    if !IsCuEmail(email) then Step(db, HttpError(400, NotSchoolEmail))
    else
      CodeTextHasSixDigits(drawn);
      DecimalRoundTrip(drawn);
      Step(db.(codes := db.codes[email := DecimalString(drawn)]), Done)
  }

  /** The second `send_code`, which also tries to mail the code; `mailed` is
      what `send_real_email` returned. The code is stored before mailing. */
  function SendCodeMailedStep(db: Db, email: string, drawn: SixDigit, mailed: bool): (r: Step)
    ensures r.db == SendCodeStep(db, email, drawn).db
    ensures !IsCuEmail(email) ==> r.reply == HttpError(400, NotSchoolEmail)
    ensures IsCuEmail(email) ==> r.reply == if mailed then Done else StatusError(MailFailed)
  {
    var stored := SendCodeStep(db, email, drawn);
    if stored.reply != Done then stored
    else if mailed then stored
    else Step(stored.db, StatusError(MailFailed))
  }

  /** `signup`: the code must match the stored one, the e-mail must be new;
      then one user with 0 points is added and the code is deleted. */
  function SignupStep(db: Db, email: string, code: string, password: string, name: string): (r: Step)
    ensures Get(db.codes, email) != Some(code) ==> r == Step(db, HttpError(400, CodeMismatch))
    ensures Get(db.codes, email) == Some(code) && UserByEmail(db.users, email).Some? ==>
      r == Step(db, HttpError(400, EmailTaken))
    ensures r.reply == Done <==> Get(db.codes, email) == Some(code) && UserByEmail(db.users, email).None?
    ensures r.reply == Done ==>
      && r.db.users == db.users + [User(NextId(db.users), email, password, name, 0)]
      && r.db.codes == db.codes - {email}
      && email !in r.db.codes
      && r.db.bookings == db.bookings && r.db.routeIds == db.routeIds
  {
    if Get(db.codes, email) != Some(code) then Step(db, HttpError(400, CodeMismatch))
    else if UserByEmail(db.users, email).Some? then Step(db, HttpError(400, EmailTaken))
    else
      var user := User(NextId(db.users), email, password, name, 0);
      Step(db.(users := db.users + [user], codes := db.codes - {email}), Done)
  }

  /** `login` changes nothing; it answers 401 unless the e-mail is known and
      the password equals the stored one. */
  function LoginReply(db: Db, email: string, password: string): (r: Reply)
    ensures r.LoggedIn? || r == HttpError(401, BadCredentials)
    ensures r.LoggedIn? <==>
      UserByEmail(db.users, email).Some? && db.users[UserByEmail(db.users, email).value].password == password
    ensures r.LoggedIn? ==>
      var u := db.users[UserByEmail(db.users, email).value];
      r.profile == Profile(u.id, u.name, u.email, u.points) && u.email == email
  {
    match UserByEmail(db.users, email)
    case None => HttpError(401, BadCredentials)
    case Some(k) =>
      var u := db.users[k];
      if u.password != password then HttpError(401, BadCredentials)
      else LoggedIn(Profile(u.id, u.name, u.email, u.points))
  }

  /** `reset_password`: the code is checked first (400), then the user (404);
      on success only that user's password changes and the code is deleted. */
  function ResetPasswordStep(db: Db, email: string, code: string, newPassword: string): (r: Step)
    ensures Get(db.codes, email) != Some(code) ==> r == Step(db, HttpError(400, CodeMismatch))
    ensures Get(db.codes, email) == Some(code) && UserByEmail(db.users, email).None? ==>
      r == Step(db, HttpError(404, UserNotFound))
    ensures r.reply == Done <==> Get(db.codes, email) == Some(code) && UserByEmail(db.users, email).Some?
    ensures r.reply == Done ==>
      var k := UserByEmail(db.users, email).value;
      && r.db.users == db.users[k := db.users[k].(password := newPassword)]
      && r.db.codes == db.codes - {email}
      && r.db.bookings == db.bookings && r.db.routeIds == db.routeIds
  {
    if Get(db.codes, email) != Some(code) then Step(db, HttpError(400, CodeMismatch))
    else match UserByEmail(db.users, email)
      case None => Step(db, HttpError(404, UserNotFound))
      case Some(k) =>
        var users := db.users[k := db.users[k].(password := newPassword)];
        Step(db.(users := users, codes := db.codes - {email}), Done)
  }

  /** `reserve_bus`: 404 for an unknown user; an "error" status and no change
      below 3000 points; an unhandled error (and no change, as nothing was
      committed) when the route row is missing; otherwise exactly 3000 points
      are deducted, one booking with the drawn seat is added, and the new
      balance is answered. */
  function ReserveStep(db: Db, routeId: int, userId: int, seat: Seat): (r: Step)
    ensures UserById(db.users, userId).None? ==> r == Step(db, HttpError(404, UserNotFound))
    ensures UserById(db.users, userId).Some? && db.users[UserById(db.users, userId).value].points < Fare ==>
      r == Step(db, StatusError(InsufficientPoints))
    ensures UserById(db.users, userId).Some? && db.users[UserById(db.users, userId).value].points >= Fare
            && routeId !in db.routeIds ==>
      r == Step(db, HttpError(500, RouteMissing))
    ensures !r.reply.Reserved? ==> r.db == db
    ensures r.reply.Reserved? <==>
      && UserById(db.users, userId).Some?
      && db.users[UserById(db.users, userId).value].points >= Fare
      && routeId in db.routeIds
    ensures r.reply.Reserved? ==>
      var k := UserById(db.users, userId).value;
      && r.db.users == db.users[k := db.users[k].(points := db.users[k].points - Fare)]
      && r.db.bookings == db.bookings + [Booking(userId, routeId, Some(seat as int))]
      && r.reply.remaining == db.users[k].points - Fare >= 0
      && r.db.codes == db.codes && r.db.routeIds == db.routeIds
  {
    match UserById(db.users, userId)
    case None => Step(db, HttpError(404, UserNotFound))
    case Some(k) =>
      var u := db.users[k];
      if u.points < Fare then Step(db, StatusError(InsufficientPoints))
      else if routeId !in db.routeIds then Step(db, HttpError(500, RouteMissing))
      else
        var users := db.users[k := u.(points := u.points - Fare)];
        var bookings := db.bookings + [Booking(userId, routeId, Some(seat as int))];
        Step(db.(users := users, bookings := bookings), Reserved(u.points - Fare))
  }

  /** `cancel_booking`: the booking id is not looked at; user 1 gets 3000
      points back and no booking is removed; 404 when user 1 does not exist. */
  function CancelStep(db: Db, bookingId: int): (r: Step)
    ensures UserById(db.users, RefundUserId).None? <==> r == Step(db, HttpError(404, RefundFailed))
    ensures UserById(db.users, RefundUserId).Some? ==>
      var k := UserById(db.users, RefundUserId).value;
      && r.reply == Done
      && r.db == db.(users := db.users[k := db.users[k].(points := db.users[k].points + Fare)])
  {
    match UserById(db.users, RefundUserId)
    case None => Step(db, HttpError(404, RefundFailed))
    case Some(k) =>
      var u := db.users[k];
      Step(db.(users := db.users[k := u.(points := u.points + Fare)]), Done)
  }

  // ---------------------------------------------------------------------------
  // Properties over several requests
  // ---------------------------------------------------------------------------

  /** Every endpoint keeps the `users` table constraints: a signup inserts a
      fresh id and an unused e-mail, the others change neither column. */
  lemma SignupKeepsWellFormed(db: Db, email: string, code: string, password: string, name: string)
    requires WellFormed(db.users)
    ensures WellFormed(SignupStep(db, email, code, password, name).db.users)
  {
    if SignupStep(db, email, code, password, name).reply == Done {
      InsertKeepsWellFormed(db.users, User(NextId(db.users), email, password, name, 0));
    }
  }

  lemma ResetKeepsWellFormed(db: Db, email: string, code: string, newPassword: string)
    requires WellFormed(db.users)
    ensures WellFormed(ResetPasswordStep(db, email, code, newPassword).db.users)
  {
    if ResetPasswordStep(db, email, code, newPassword).reply == Done {
      var k := UserByEmail(db.users, email).value;
      UpdateKeepsWellFormed(db.users, k, db.users[k].(password := newPassword));
    }
  }

  lemma ReserveKeepsWellFormed(db: Db, routeId: int, userId: int, seat: Seat)
    requires WellFormed(db.users)
    ensures WellFormed(ReserveStep(db, routeId, userId, seat).db.users)
  {
    if ReserveStep(db, routeId, userId, seat).reply.Reserved? {
      var k := UserById(db.users, userId).value;
      UpdateKeepsWellFormed(db.users, k, db.users[k].(points := db.users[k].points - Fare));
    }
  }

  lemma CancelKeepsWellFormed(db: Db, bookingId: int)
    requires WellFormed(db.users)
    ensures WellFormed(CancelStep(db, bookingId).db.users)
  {
    if UserById(db.users, RefundUserId).Some? {
      var k := UserById(db.users, RefundUserId).value;
      UpdateKeepsWellFormed(db.users, k, db.users[k].(points := db.users[k].points + Fare));
    }
  }

  /** The balance guard: when every balance starts non-negative, a
      reservation (and a refund) leaves every balance non-negative. */
  lemma ReserveKeepsBalancesNonNegative(db: Db, routeId: int, userId: int, seat: Seat, bookingId: int)
    requires NonNegativePoints(db.users)
    ensures NonNegativePoints(ReserveStep(db, routeId, userId, seat).db.users)
    ensures NonNegativePoints(CancelStep(db, bookingId).db.users)
  {
  }

  /** A code is good for one successful signup: once it is used, the same
      e-mail and code are refused with a code mismatch, for a second signup
      and for a password reset alike. */
  lemma SignupConsumesCode(db: Db, email: string, code: string, password: string, name: string,
                           password2: string, name2: string)
    requires SignupStep(db, email, code, password, name).reply == Done
    ensures var after := SignupStep(db, email, code, password, name).db;
      && SignupStep(after, email, code, password2, name2) == Step(after, HttpError(400, CodeMismatch))
      && ResetPasswordStep(after, email, code, password2) == Step(after, HttpError(400, CodeMismatch))
  {
    var after := SignupStep(db, email, code, password, name).db;
    assert Get(after.codes, email) == None;
  }

  /** After a signup, logging in with the same e-mail and password answers
      the new account: a fresh id, the given name and 0 points. */
  lemma LoginAfterSignup(db: Db, email: string, code: string, password: string, name: string)
    requires WellFormed(db.users)
    requires SignupStep(db, email, code, password, name).reply == Done
    ensures LoginReply(SignupStep(db, email, code, password, name).db, email, password)
         == LoggedIn(Profile(NextId(db.users), name, email, 0))
  {
    var after := SignupStep(db, email, code, password, name).db;
    SignupKeepsWellFormed(db, email, code, password, name);
    UserByEmailUnique(after.users, |db.users|);
  }

  /** After a password reset, the new password logs in and an old, different
      one no longer does. */
  lemma LoginAfterReset(db: Db, email: string, code: string, oldPassword: string, newPassword: string)
    requires WellFormed(db.users)
    requires ResetPasswordStep(db, email, code, newPassword).reply == Done
    requires oldPassword != newPassword
    ensures var after := ResetPasswordStep(db, email, code, newPassword).db;
      && LoginReply(after, email, newPassword).LoggedIn?
      && LoginReply(after, email, oldPassword) == HttpError(401, BadCredentials)
  {
    var after := ResetPasswordStep(db, email, code, newPassword).db;
    var k := UserByEmail(db.users, email).value;
    ResetKeepsWellFormed(db, email, code, newPassword);
    UserByEmailUnique(after.users, k);
  }

  /** For user 1, a reservation followed by a cancellation gives the 3000
      points back and leaves the booking in place. */
  lemma ReserveThenCancelRefunds(db: Db, routeId: int, seat: Seat, bookingId: int)
    requires WellFormed(db.users)
    requires ReserveStep(db, routeId, RefundUserId, seat).reply.Reserved?
    ensures var reserved := ReserveStep(db, routeId, RefundUserId, seat).db;
      var cancelled := CancelStep(reserved, bookingId).db;
      && cancelled.users == db.users
      && cancelled.bookings == db.bookings + [Booking(RefundUserId, routeId, Some(seat as int))]
  {
    var k := UserById(db.users, RefundUserId).value;
    var reserved := ReserveStep(db, routeId, RefundUserId, seat).db;
    ReserveKeepsWellFormed(db, routeId, RefundUserId, seat);
    UserByIdUnique(reserved.users, k);
    assert reserved.users[k := reserved.users[k].(points := reserved.users[k].points + Fare)] == db.users;
  }

  // ---------------------------------------------------------------------------
  // The running server: the module-level dict and the tables as fields
  // ---------------------------------------------------------------------------

  class MainServer {
    var codes: map<string, string>
    var users: seq<User>
    var bookings: seq<Booking>
    const routeIds: set<int>

    function State(): Db
      reads this
    {
      Db(codes, users, bookings, routeIds)
    }

    /** A fresh process: no codes; the tables as given, with their constraints. */
    constructor (users: seq<User>, bookings: seq<Booking>, routeIds: set<int>)
      requires WellFormed(users)
      ensures State() == Db(map[], users, bookings, routeIds)
    {
      this.codes := map[];
      this.users := users;
      this.bookings := bookings;
      this.routeIds := routeIds;
    }

    method SendCode(email: string, drawn: SixDigit) returns (reply: Reply)
      modifies this
      ensures Step(State(), reply) == SendCodeStep(old(State()), email, drawn)
    {
      if !EndsWith(email, SchoolDomain) {
        return HttpError(400, NotSchoolEmail);
      }
      codes := codes[email := DecimalString(drawn)];
      return Done;
    }

    method SendCodeMailed(email: string, drawn: SixDigit, mailed: bool) returns (reply: Reply)
      modifies this
      ensures Step(State(), reply) == SendCodeMailedStep(old(State()), email, drawn, mailed)
    {
      if !EndsWith(email, SchoolDomain) {
        return HttpError(400, NotSchoolEmail);
      }
      codes := codes[email := DecimalString(drawn)];
      reply := if mailed then Done else StatusError(MailFailed);
    }

    method Signup(email: string, code: string, password: string, name: string) returns (reply: Reply)
      requires WellFormed(users)
      modifies this
      ensures Step(State(), reply) == SignupStep(old(State()), email, code, password, name)
      ensures WellFormed(users)
    {
      SignupKeepsWellFormed(State(), email, code, password, name);
      if Get(codes, email) != Some(code) {
        return HttpError(400, CodeMismatch);
      }
      var existing := ScanByEmail(users, email);
      if existing.Some? {
        return HttpError(400, EmailTaken);
      }
      var id := MaxId(users) + 1;
      users := users + [User(id, email, password, name, 0)];
      if email in codes {
        codes := codes - {email};
      }
      return Done;
    }

    method Login(email: string, password: string) returns (reply: Reply)
      ensures reply == LoginReply(State(), email, password)
    {
      var k := ScanByEmail(users, email);
      if k.None? || users[k.value].password != password {
        return HttpError(401, BadCredentials);
      }
      var u := users[k.value];
      return LoggedIn(Profile(u.id, u.name, u.email, u.points));
    }

    method ResetPassword(email: string, code: string, newPassword: string) returns (reply: Reply)
      requires WellFormed(users)
      modifies this
      ensures Step(State(), reply) == ResetPasswordStep(old(State()), email, code, newPassword)
      ensures WellFormed(users)
    {
      ResetKeepsWellFormed(State(), email, code, newPassword);
      if Get(codes, email) != Some(code) {
        return HttpError(400, CodeMismatch);
      }
      var k := ScanByEmail(users, email);
      if k.None? {
        return HttpError(404, UserNotFound);
      }
      users := users[k.value := users[k.value].(password := newPassword)];
      if email in codes {
        codes := codes - {email};
      }
      return Done;
    }

    method ReserveBus(routeId: int, userId: int, seat: Seat) returns (reply: Reply)
      requires WellFormed(users)
      modifies this
      ensures Step(State(), reply) == ReserveStep(old(State()), routeId, userId, seat)
      ensures WellFormed(users)
    {
      ReserveKeepsWellFormed(State(), routeId, userId, seat);
      var k := ScanById(users, userId);
      if k.None? {
        return HttpError(404, UserNotFound);
      }
      var u := users[k.value];
      if u.points < Fare {
        return StatusError(InsufficientPoints);
      }
      if routeId !in routeIds {
        // `bus.route_name` fails before `db.commit()`: the session is closed
        // uncommitted, so neither the deduction nor the booking is kept.
        return HttpError(500, RouteMissing);
      }
      users := users[k.value := u.(points := u.points - Fare)];
      bookings := bookings + [Booking(userId, routeId, Some(seat as int))];
      return Reserved(u.points - Fare);
    }

    method CancelBooking(bookingId: int) returns (reply: Reply)
      requires WellFormed(users)
      modifies this
      ensures Step(State(), reply) == CancelStep(old(State()), bookingId)
      ensures WellFormed(users)
    {
      CancelKeepsWellFormed(State(), bookingId);
      var k := ScanById(users, RefundUserId);
      if k.None? {
        return HttpError(404, RefundFailed);
      }
      var u := users[k.value];
      users := users[k.value := u.(points := u.points + Fare)];
      return Done;
    }
  }
}
