/** backend/utils.py: the older copy of the account and reservation
    endpoints, over its own `verification_codes` dict.

    It differs from backend/main.py in three ways the lemmas below pin down:
    codes are never deleted, every reservation failure is one 400, and a
    booking gets no seat (and the route is not looked up). */
module UtilsBackend {
  import opened Common
  import opened Records
  import MainBackend

  /** The user record `login` answers with (no e-mail in this copy). */
  datatype Session = Session(userId: int, name: string, points: int)

  datatype Reply =
    | Done                      // {"message": ...}
    | LoggedIn(session: Session)
    | HttpError(status: int, why: Refusal)

  datatype Step = Step(db: Db, reply: Reply)

  /** `send_verification_code`: only "@cu.ac.kr" addresses; stores the drawn
      code, replacing any earlier one. */
  function SendCodeStep(db: Db, email: string, drawn: SixDigit): (r: Step)
    ensures r.reply == Done <==> EndsWith(email, "@cu.ac.kr")
    ensures r.reply != Done ==> r == Step(db, HttpError(400, NotSchoolEmail))
    ensures r.reply == Done ==>
      && r.db == db.(codes := db.codes[email := DecimalString(drawn)])
      && |r.db.codes[email]| == 6
  {
    if !EndsWith(email, "@cu.ac.kr") then Step(db, HttpError(400, NotSchoolEmail))
    else
      CodeTextHasSixDigits(drawn);
      Step(db.(codes := db.codes[email := DecimalString(drawn)]), Done)
  }

  /** `signup`: 400 on a code mismatch or a taken e-mail; otherwise one user
      with 0 points is added and the code stays stored. */
  function SignupStep(db: Db, email: string, password: string, name: string, code: string): (r: Step)
    ensures Get(db.codes, email) != Some(code) ==> r == Step(db, HttpError(400, CodeMismatch))
    ensures Get(db.codes, email) == Some(code) && UserByEmail(db.users, email).Some? ==>
      r == Step(db, HttpError(400, EmailTaken))
    ensures r.reply == Done <==> Get(db.codes, email) == Some(code) && UserByEmail(db.users, email).None?
    ensures r.reply == Done ==>
      r.db == db.(users := db.users + [User(NextId(db.users), email, password, name, 0)])
  {
    if Get(db.codes, email) != Some(code) then Step(db, HttpError(400, CodeMismatch))
    else if UserByEmail(db.users, email).Some? then Step(db, HttpError(400, EmailTaken))
    else Step(db.(users := db.users + [User(NextId(db.users), email, password, name, 0)]), Done)
  }

  /** `login`: 401 on an unknown e-mail or a wrong password; changes nothing. */
  function LoginReply(db: Db, email: string, password: string): (r: Reply)
    ensures r.LoggedIn? || r == HttpError(401, BadCredentials)
    ensures r.LoggedIn? <==>
      UserByEmail(db.users, email).Some? && db.users[UserByEmail(db.users, email).value].password == password
    ensures r.LoggedIn? ==>
      var u := db.users[UserByEmail(db.users, email).value];
      r.session == Session(u.id, u.name, u.points)
  {
    match UserByEmail(db.users, email)
    case None => HttpError(401, BadCredentials)
    case Some(k) =>
      if db.users[k].password != password then HttpError(401, BadCredentials)
      else LoggedIn(Session(db.users[k].id, db.users[k].name, db.users[k].points))
  }

  /** `reset_password`: 400 on a code mismatch, then 404 on an unknown user;
      otherwise only that user's password changes, and the code stays. */
  function ResetPasswordStep(db: Db, email: string, newPassword: string, code: string): (r: Step)
    ensures Get(db.codes, email) != Some(code) ==> r == Step(db, HttpError(400, CodeMismatch))
    ensures Get(db.codes, email) == Some(code) && UserByEmail(db.users, email).None? ==>
      r == Step(db, HttpError(404, UserNotFound))
    ensures r.reply == Done <==> Get(db.codes, email) == Some(code) && UserByEmail(db.users, email).Some?
    ensures r.reply == Done ==>
      var k := UserByEmail(db.users, email).value;
      r.db == db.(users := db.users[k := db.users[k].(password := newPassword)])
  {
    if Get(db.codes, email) != Some(code) then Step(db, HttpError(400, CodeMismatch))
    else match UserByEmail(db.users, email)
      case None => Step(db, HttpError(404, UserNotFound))
      case Some(k) => Step(db.(users := db.users[k := db.users[k].(password := newPassword)]), Done)
  }

  /** `reserve_bus`: one 400 for a missing user or fewer than 3000 points;
      a 500 when the route row does not exist, because the commit breaks the
      `bookings.route_id` foreign key and the session is rolled back; any
      refusal changes nothing. Otherwise exactly 3000 points are deducted and
      one booking for (user, route) is added. */
  function ReserveStep(db: Db, routeId: int, userId: int): (r: Step)
    ensures r.reply != Done ==> r.db == db
    ensures UserById(db.users, userId).None? || db.users[UserById(db.users, userId).value].points < Fare ==>
      r == Step(db, HttpError(400, NoUserOrPoints))
    ensures UserById(db.users, userId).Some? && db.users[UserById(db.users, userId).value].points >= Fare
            && routeId !in db.routeIds ==>
      r == Step(db, HttpError(500, RouteMissing))
    ensures r.reply == Done <==>
      && UserById(db.users, userId).Some?
      && db.users[UserById(db.users, userId).value].points >= Fare
      && routeId in db.routeIds
    ensures r.reply == Done ==>
      var k := UserById(db.users, userId).value;
      r.db == db.(users := db.users[k := db.users[k].(points := db.users[k].points - Fare)],
                  bookings := db.bookings + [Booking(userId, routeId, None)])
  {
    match UserById(db.users, userId)
    case None => Step(db, HttpError(400, NoUserOrPoints))
    case Some(k) =>
      var u := db.users[k];
      if u.points < Fare then Step(db, HttpError(400, NoUserOrPoints))
      else if routeId !in db.routeIds then Step(db, HttpError(500, RouteMissing))
      else Step(db.(users := db.users[k := u.(points := u.points - Fare)],
                    bookings := db.bookings + [Booking(userId, routeId, None)]), Done)
  }

  // ---------------------------------------------------------------------------
  // Properties, and how this copy differs from backend/main.py
  // ---------------------------------------------------------------------------

  /** Codes are never consumed: after a signup the same code still resets
      the new account's password. */
  lemma CodeOutlivesSignup(db: Db, email: string, password: string, name: string, code: string, newPassword: string)
    requires SignupStep(db, email, password, name, code).reply == Done
    ensures var after := SignupStep(db, email, password, name, code).db;
      after.codes == db.codes && ResetPasswordStep(after, email, newPassword, code).reply == Done
  {
    var after := SignupStep(db, email, password, name, code).db;
    assert after.users[|db.users|].email == email;
  }

  /** The same e-mail and code reset the password any number of times. */
  lemma CodeOutlivesReset(db: Db, email: string, p1: string, p2: string, code: string)
    requires ResetPasswordStep(db, email, p1, code).reply == Done
    ensures ResetPasswordStep(ResetPasswordStep(db, email, p1, code).db, email, p2, code).reply == Done
  {
    var after := ResetPasswordStep(db, email, p1, code).db;
    var k := UserByEmail(db.users, email).value;
    assert after.users[k].email == email;
  }

  lemma SignupKeepsWellFormed(db: Db, email: string, password: string, name: string, code: string)
    requires WellFormed(db.users)
    ensures WellFormed(SignupStep(db, email, password, name, code).db.users)
  {
    if SignupStep(db, email, password, name, code).reply == Done {
      InsertKeepsWellFormed(db.users, User(NextId(db.users), email, password, name, 0));
    }
  }

  lemma ResetKeepsWellFormed(db: Db, email: string, newPassword: string, code: string)
    requires WellFormed(db.users)
    ensures WellFormed(ResetPasswordStep(db, email, newPassword, code).db.users)
  {
    if ResetPasswordStep(db, email, newPassword, code).reply == Done {
      var k := UserByEmail(db.users, email).value;
      UpdateKeepsWellFormed(db.users, k, db.users[k].(password := newPassword));
    }
  }

  /** A reservation keeps the table constraints and never drives a
      non-negative balance below zero. */
  lemma ReserveKeepsInvariants(db: Db, routeId: int, userId: int)
    requires WellFormed(db.users) && NonNegativePoints(db.users)
    ensures var after := ReserveStep(db, routeId, userId).db;
      WellFormed(after.users) && NonNegativePoints(after.users)
  {
    if ReserveStep(db, routeId, userId).reply == Done {
      var k := UserById(db.users, userId).value;
      UpdateKeepsWellFormed(db.users, k, db.users[k].(points := db.users[k].points - Fare));
    }
  }

  /** The two copies of `reserve_bus` succeed on the same requests and leave
      the same balances; where main.py answers 404 or an "error" status this
      copy answers one 400, both answer 500 for a missing route, and this
      copy books no seat. */
  lemma ReserveAgreesWithMain(db: Db, routeId: int, userId: int, seat: MainBackend.Seat)
    ensures var here := ReserveStep(db, routeId, userId);
      var there := MainBackend.ReserveStep(db, routeId, userId, seat);
      && (here.reply == Done <==> there.reply.Reserved?)
      && here.db.users == there.db.users
      && |here.db.bookings| == |there.db.bookings|
      && ((there.reply == MainBackend.HttpError(404, UserNotFound)
           || there.reply == MainBackend.StatusError(InsufficientPoints))
          ==> here.reply == HttpError(400, NoUserOrPoints))
      && (there.reply == MainBackend.HttpError(500, RouteMissing) <==> here.reply == HttpError(500, RouteMissing))
  {
  }

  /** Where both copies accept a signup, they add the same user; only main.py
      deletes the code. */
  lemma SignupAgreesWithMain(db: Db, email: string, password: string, name: string, code: string)
    ensures var here := SignupStep(db, email, password, name, code);
      var there := MainBackend.SignupStep(db, email, code, password, name);
      && (here.reply == Done <==> there.reply == MainBackend.Done)
      && here.db.users == there.db.users
      && (here.reply == Done ==> here.db.codes == db.codes && there.db.codes == db.codes - {email})
  {
  }

  // ---------------------------------------------------------------------------
  // The running server
  // ---------------------------------------------------------------------------

  class UtilsServer {
    var codes: map<string, string>
    var users: seq<User>
    var bookings: seq<Booking>
    const routeIds: set<int>

    function State(): Db
      reads this
    {
      Db(codes, users, bookings, routeIds)
    }

    constructor (users: seq<User>, bookings: seq<Booking>, routeIds: set<int>)
      requires WellFormed(users)
      ensures State() == Db(map[], users, bookings, routeIds)
    {
      this.codes := map[];
      this.users := users;
      this.bookings := bookings;
      this.routeIds := routeIds;
    }

    method SendVerificationCode(email: string, drawn: SixDigit) returns (reply: Reply)
      modifies this
      ensures Step(State(), reply) == SendCodeStep(old(State()), email, drawn)
    {
      if !EndsWith(email, "@cu.ac.kr") {
        return HttpError(400, NotSchoolEmail);
      }
      codes := codes[email := DecimalString(drawn)];
      return Done;
    }

    method Signup(email: string, password: string, name: string, code: string) returns (reply: Reply)
      requires WellFormed(users)
      modifies this
      ensures Step(State(), reply) == SignupStep(old(State()), email, password, name, code)
      ensures WellFormed(users)
    {
      SignupKeepsWellFormed(State(), email, password, name, code);
      if Get(codes, email) != Some(code) {
        return HttpError(400, CodeMismatch);
      }
      var existing := ScanByEmail(users, email);
      if existing.Some? {
        return HttpError(400, EmailTaken);
      }
      users := users + [User(MaxId(users) + 1, email, password, name, 0)];
      return Done;
    }

    method Login(email: string, password: string) returns (reply: Reply)
      ensures reply == LoginReply(State(), email, password)
    {
      var k := ScanByEmail(users, email);
      if k.None? || users[k.value].password != password {
        return HttpError(401, BadCredentials);
      }
      return LoggedIn(Session(users[k.value].id, users[k.value].name, users[k.value].points));
    }

    method ResetPassword(email: string, newPassword: string, code: string) returns (reply: Reply)
      requires WellFormed(users)
      modifies this
      ensures Step(State(), reply) == ResetPasswordStep(old(State()), email, newPassword, code)
      ensures WellFormed(users)
    {
      ResetKeepsWellFormed(State(), email, newPassword, code);
      if Get(codes, email) != Some(code) {
        return HttpError(400, CodeMismatch);
      }
      var k := ScanByEmail(users, email);
      if k.None? {
        return HttpError(404, UserNotFound);
      }
      users := users[k.value := users[k.value].(password := newPassword)];
      return Done;
    }

    method ReserveBus(routeId: int, userId: int) returns (reply: Reply)
      requires WellFormed(users)
      modifies this
      ensures Step(State(), reply) == ReserveStep(old(State()), routeId, userId)
      ensures WellFormed(users)
    {
      var k := ScanById(users, userId);
      if k.None? || users[k.value].points < Fare {
        return HttpError(400, NoUserOrPoints);
      }
      if routeId !in routeIds {
        // The insert breaks the foreign key at `db.commit()`: rolled back.
        return HttpError(500, RouteMissing);
      }
      UpdateKeepsWellFormed(users, k.value, users[k.value].(points := users[k.value].points - Fare));
      users := users[k.value := users[k.value].(points := users[k.value].points - Fare)];
      bookings := bookings + [Booking(userId, routeId, None)];
      return Done;
    }
  }
}
