/** The rows the backend reads and writes (the `users` and `bookings` tables
    of backend/models.py), the in-memory store of e-mail verification codes,
    and the two `.filter(...).first()` queries both backends run. */
module Records {
  import opened Common

  /** A row of `users`. The column is called `hashed_password` but both
      backends store and compare the password as given. */
  datatype User = User(id: int, email: string, password: string, name: string, points: int)

  /** A row of `bookings` (its `status` column always keeps its default "reserved"). */
  datatype Booking = Booking(userId: int, routeId: int, seat: Option<int>)

  /** What one backend process holds: its `verification_codes` dict, the
      `users` and `bookings` tables in row order, and the ids of `bus_routes`. */
  datatype Db = Db(codes: map<string, string>, users: seq<User>, bookings: seq<Booking>, routeIds: set<int>)

  /** Why a request was refused; each names one `detail` or `message` text. */
  datatype Refusal =
    | NotSchoolEmail      // "...(@cu.ac.kr)만 사용 가능합니다."
    | CodeMismatch        // "인증번호가 일치하지 않습니다."
    | EmailTaken          // "이미 가입된 이메일입니다." / "이미 존재하는 계정입니다."
    | BadCredentials      // "이메일 또는 비밀번호가 틀렸습니다."
    | UserNotFound        // "사용자를 찾을 수 없습니다."
    | InsufficientPoints  // "포인트가 부족합니다."
    | NoUserOrPoints      // "포인트가 부족하거나 유저가 없습니다."
    | MailFailed          // "메일 발송 실패 (터미널 로그 확인)"
    | RouteMissing        // a missing route row: an unhandled error (500)
    | RefundFailed        // "환불 실패"

  /** The fixed fare both backends deduct per reservation. */
  const Fare: int := 3000

  /** `random.randint(100000, 999999)`: the range verification codes are drawn from. */
  type SixDigit = n: int | 100000 <= n <= 999999 witness 100000

  /** The text stored for a drawn code (`str(...)`) has exactly six digits. */
  lemma CodeTextHasSixDigits(n: SixDigit)
    ensures |DecimalString(n)| == 6
  {
    assert Pow10(5) == 100000 && Pow10(6) == 1000000;
    DecimalLength(n, 6);
  }

  function HasEmail(email: string): User -> bool
  {
    (u: User) => u.email == email
  }

  function HasId(id: int): User -> bool
  {
    (u: User) => u.id == id
  }

  /** `db.query(User).filter(User.email == email).first()`, as a row index. */
  function UserByEmail(users: seq<User>, email: string): (r: Option<nat>)
    ensures r.Some? ==> r.value < |users| && users[r.value].email == email
    ensures r.None? <==> forall j :: 0 <= j < |users| ==> users[j].email != email
  {
    FindIndex(users, HasEmail(email))
  }

  /** `db.query(User).filter(User.id == id).first()`, as a row index. */
  function UserById(users: seq<User>, id: int): (r: Option<nat>)
    ensures r.Some? ==> r.value < |users| && users[r.value].id == id
    ensures r.None? <==> forall j :: 0 <= j < |users| ==> users[j].id != id
  {
    FindIndex(users, HasId(id))
  }

  /** The scan the database runs for `.filter(User.email == email).first()`:
      row by row, stopping at the first match. */
  method ScanByEmail(users: seq<User>, email: string) returns (k: Option<nat>)
    ensures k == UserByEmail(users, email)
  {
    var i := 0;
    while i < |users|
      invariant 0 <= i <= |users|
      invariant forall j :: 0 <= j < i ==> users[j].email != email
    {
      if users[i].email == email {
        return Some(i);
      }
      i := i + 1;
    }
    return None;
  }

  /** The scan for `.filter(User.id == id).first()`. */
  method ScanById(users: seq<User>, id: int) returns (k: Option<nat>)
    ensures k == UserById(users, id)
  {
    var i := 0;
    while i < |users|
      invariant 0 <= i <= |users|
      invariant forall j :: 0 <= j < i ==> users[j].id != id
    {
      if users[i].id == id {
        return Some(i);
      }
      i := i + 1;
    }
    return None;
  }

  /** The largest id in the table, 0 when it is empty. */
  function MaxId(users: seq<User>): (r: int)
    ensures r >= 0
    ensures forall j :: 0 <= j < |users| ==> users[j].id <= r
  {
    if users == [] then 0
    else
      var rest := MaxId(users[..|users| - 1]);
      var last := users[|users| - 1].id;
      if last > rest then last else rest
  }

  /** The id the `users.id` sequence gives a new row, taken as one more than
      the largest id present (1 for an empty table): a sequence that has
      never skipped a value. */
  function NextId(users: seq<User>): (r: int)
    ensures r > 0
    ensures UserById(users, r).None?
  {
    MaxId(users) + 1
  }

  /** The table constraints of `users`: positive primary keys, and unique
      ids and unique e-mail addresses (`unique=True`). */
  predicate WellFormed(users: seq<User>)
  {
    && (forall i :: 0 <= i < |users| ==> users[i].id > 0)
    && (forall i, j :: 0 <= i < j < |users| ==> users[i].id != users[j].id)
    && (forall i, j :: 0 <= i < j < |users| ==> users[i].email != users[j].email)
  }

  /** In a well-formed table, a row whose e-mail matches is the one `.first()` returns. */
  lemma UserByEmailUnique(users: seq<User>, k: nat)
    requires WellFormed(users) && k < |users|
    ensures UserByEmail(users, users[k].email) == Some(k)
  {
  }

  /** In a well-formed table, a row whose id matches is the one `.first()` returns. */
  lemma UserByIdUnique(users: seq<User>, k: nat)
    requires WellFormed(users) && k < |users|
    ensures UserById(users, users[k].id) == Some(k)
  {
  }

  /** Inserting a row with a fresh id and an unused e-mail keeps the constraints. */
  lemma InsertKeepsWellFormed(users: seq<User>, u: User)
    requires WellFormed(users)
    requires u.id == NextId(users) && UserByEmail(users, u.email).None?
    ensures WellFormed(users + [u])
  {
    var us := users + [u];
    forall i | 0 <= i < |users|
      ensures us[i].id != u.id && us[i].email != u.email
    {
      assert us[i] == users[i];
    }
  }

  /** Changing any column of one row except the id and the e-mail keeps the constraints. */
  lemma UpdateKeepsWellFormed(users: seq<User>, k: nat, u: User)
    requires WellFormed(users) && k < |users|
    requires u.id == users[k].id && u.email == users[k].email
    ensures WellFormed(users[k := u])
  {
  }

  predicate NonNegativePoints(users: seq<User>)
  {
    forall i :: 0 <= i < |users| ==> users[i].points >= 0
  }
}
