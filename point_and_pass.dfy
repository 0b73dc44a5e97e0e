/** frontend/src/pages/PointAndPass.tsx: the points screen. The pending
    virtual-account payment is set and cleared step by step by the handlers
    and by the once-a-second countdown tick, so the screen is a class; the
    countdown arithmetic, the fee, the user-id fallback and the status
    defaults are functions. The clock is the `now` parameter of one tick
    (milliseconds); network replies are parameters. */
module PointAndPass {
  import opened Common

  /** The fee added to every deposit. */
  const ChargeFee: int := 330

  /** The point amounts the charge menu offers. */
  const ChargeMenu: seq<int> := [10000, 30000, 50000, 100000, 200000, 300000]

  /** A requested charge awaiting a bank deposit; `expireAt` is the expiry
      instant in milliseconds. */
  datatype PendingPayment = PendingPayment(paymentId: string, amount: int, expireAt: int, account: string)

  /** The `user` object kept in localStorage, as far as this screen reads it. */
  datatype StoredUser = StoredUser(userId: Option<int>, id: Option<int>)

  /** The body of the status reply; any field may be missing. */
  datatype StatusReply = StatusReply(points: Option<int>, hasSemesterPass: Option<bool>, passExpiryDate: Option<string>)

  datatype Status = Status(points: int, hasPass: bool, expiryDate: string)

  /** The amount of money to deposit for a charge of `amount` points. */
  function DepositAmount(amount: int): int
  {
    amount + ChargeFee
  }

  /** The buttons of the charge menu: the points offered and the price shown. */
  function ChargeButtons(): (r: seq<(int, int)>)
    ensures |r| == 6
    ensures forall i :: 0 <= i < 6 ==> r[i].0 == [10000, 30000, 50000, 100000, 200000, 300000][i]
    ensures forall i :: 0 <= i < 6 ==> r[i].1 == r[i].0 + 330
  {
    seq(|ChargeMenu|, i requires 0 <= i < |ChargeMenu| => (ChargeMenu[i], DepositAmount(ChargeMenu[i])))
  }

  /** `Math.floor((distance % 60000) / 1000)` for a positive distance: the
      seconds within the current minute of what remains. */
  function SecondsInMinute(distance: int): (r: int)
    requires distance > 0
    ensures 0 <= r <= 59
    ensures exists minutes: int :: minutes >= 0 && minutes * 60000 + r * 1000 <= distance < minutes * 60000 + r * 1000 + 1000
  {
    var minutes := distance / 60000;
    var within := distance % 60000;
    assert distance == minutes * 60000 + within;
    within / 1000
  }

  /** The shown value repeats every minute: it is not the total number of
      seconds left. */
  lemma SecondsRepeatEveryMinute(distance: int)
    requires distance > 0
    ensures SecondsInMinute(distance + 60000) == SecondsInMinute(distance)
  {
    assert (distance + 60000) % 60000 == distance % 60000;
  }

  /** `user.user_id || user.id`, where 0 and a missing field are falsy; None
      means no status request is made. */
  function UserIdOf(stored: Option<StoredUser>): (r: Option<int>)
    ensures r.Some? ==> r.value != 0
    ensures stored.Some? && stored.value.userId.Some? && stored.value.userId.value != 0 ==> r == stored.value.userId
    ensures stored.Some? && (stored.value.userId.None? || stored.value.userId.value == 0) ==>
      r == (if stored.value.id.Some? && stored.value.id.value != 0 then stored.value.id else None)
    ensures stored.None? ==> r.None?
  {
    match stored
    case None => None
    case Some(u) =>
      if u.userId.Some? && u.userId.value != 0 then u.userId
      else if u.id.Some? && u.id.value != 0 then u.id
      else None
  }

  /** The `??` defaults: missing points are 0, a missing pass flag is false,
      a missing expiry date is empty. Present values, 0 and false included,
      are kept. */
  function ApplyStatus(reply: StatusReply): (r: Status)
    ensures r.points == (if reply.points.Some? then reply.points.value else 0)
    ensures r.hasPass <==> reply.hasSemesterPass == Some(true)
    ensures r.expiryDate == (if reply.passExpiryDate.Some? then reply.passExpiryDate.value else "")
  {
    Status(
      if reply.points.Some? then reply.points.value else 0,
      if reply.hasSemesterPass.Some? then reply.hasSemesterPass.value else false,
      if reply.passExpiryDate.Some? then reply.passExpiryDate.value else "")
  }

  class PointScreen {
    var status: Status
    var loading: bool
    var pending: Option<PendingPayment>
    var timeLeft: int
    /** Whether the countdown interval is installed. */
    var timerOn: bool

    /** The countdown runs exactly while a payment is pending. */
    predicate Valid()
      reads this
    {
      timerOn == pending.Some?
    }

    constructor ()
      ensures Valid() && status == Status(0, false, "") && loading && pending.None? && timeLeft == 0
    {
      status := Status(0, false, "");
      loading := true;
      pending := None;
      timeLeft := 0;
      timerOn := false;
    }

    /** `fetchUserStatus`: without a user id nothing is requested; a reply
        replaces the status (with the defaults); a failed request keeps it. */
    method FetchUserStatus(stored: Option<StoredUser>, reply: Option<StatusReply>) returns (requested: bool)
      modifies this`status, this`loading
      ensures requested <==> UserIdOf(stored).Some?
      ensures status == (if requested && reply.Some? then ApplyStatus(reply.value) else old(status))
      ensures !loading
    {
      loading := true;
      var userId := UserIdOf(stored);
      if userId.None? {
        loading := false;
        return false;
      }
      requested := true;
      if reply.Some? {
        status := ApplyStatus(reply.value);
      }
      loading := false;
    }

    /** One run of the interval callback at instant `now`: at or past the
        expiry the payment is dropped and the interval cleared; before it the
        seconds-in-minute display is updated. */
    method Tick(now: int) returns (expired: bool)
      requires Valid() && timerOn
      modifies this`pending, this`timeLeft, this`timerOn
      ensures Valid()
      ensures expired <==> old(pending).value.expireAt - now <= 0
      ensures expired ==> pending.None? && !timerOn && timeLeft == old(timeLeft)
      ensures !expired ==> pending == old(pending) && timerOn
      ensures !expired ==> timeLeft == SecondsInMinute(old(pending).value.expireAt - now) && 0 <= timeLeft <= 59
    {
      var distance := pending.value.expireAt - now;
      if distance <= 0 {
        timerOn := false;
        pending := None;
        return true;
      }
      timeLeft := SecondsInMinute(distance);
      return false;
    }

    /** `handleRequestCharge`: a reply with a pending payment shows it (and
        starts the countdown); a failed request changes nothing. */
    method RequestCharge(amount: int, reply: Option<PendingPayment>)
      requires Valid()
      modifies this`pending, this`timerOn
      ensures Valid()
      ensures pending == if reply.Some? then reply else old(pending)
    {
      if reply.Some? {
        pending := reply;
        timerOn := true;
      }
    }

    /** `handleConfirmCharge`: nothing without a pending payment; on a
        confirmed deposit the status is fetched again and the payment cleared;
        on a refusal everything stays. */
    method ConfirmCharge(confirmed: bool, stored: Option<StoredUser>, reply: Option<StatusReply>)
      requires Valid()
      modifies this`status, this`loading, this`pending, this`timerOn
      ensures Valid()
      ensures timeLeft == old(timeLeft)
      ensures old(pending).None? || !confirmed ==>
        pending == old(pending) && status == old(status) && loading == old(loading)
      ensures old(pending).Some? && confirmed ==>
        && pending.None? && !loading
        && status == (if UserIdOf(stored).Some? && reply.Some? then ApplyStatus(reply.value) else old(status))
    {
      if pending.None? {
        return;
      }
      if confirmed {
        var _ := FetchUserStatus(stored, reply);
        pending := None;
        timerOn := false;
      }
    }

    /** The cancel button drops the pending payment. */
    method Cancel()
      requires Valid()
      modifies this`pending, this`timerOn
      ensures Valid() && pending.None?
    {
      pending := None;
      timerOn := false;
    }

    /** The amount the pending card asks to deposit. */
    function DepositShown(): (r: Option<int>)
      reads this
      ensures r.Some? <==> pending.Some?
      ensures r.Some? ==> r.value == pending.value.amount + 330
    {
      if pending.Some? then Some(DepositAmount(pending.value.amount)) else None
    }
  }
}
