/** frontend/src/pages/Signup.tsx: the client-side domain guard before a code
    is requested, the body sent on submit, and the text shown when the
    server refuses the signup. Server replies are parameters. */
module Signup {
  import opened Common
  import MainBackend

  // ---------------------------------------------------------------------------
  // Requesting a code
  // ---------------------------------------------------------------------------

  /** `email.endsWith("@cu.ac.kr")`, the test `handleSendCode` makes before
      any request. */
  predicate SendCodeAllowed(email: string)
    ensures SendCodeAllowed(email) <==> exists local: string :: email == local + "@cu.ac.kr"
  {
    EndsWithIffConcat(email, "@cu.ac.kr");
    EndsWith(email, "@cu.ac.kr")
  }

  /** The client guard and the server's `is_cu_email` accept the same
      addresses, so a request the page lets through is never refused for
      its domain. */
  lemma SendCodeGuardAgreesWithServer(email: string)
    ensures SendCodeAllowed(email) <==> MainBackend.IsCuEmail(email)
  {
  }

  /** `handleSendCode` and the `isSent` flag after it: no request when the
      guard fails; otherwise the flag is raised only by an OK reply
      (`replyOk` is None when the request fails). */
  function SendCode(email: string, isSent: bool, replyOk: Option<bool>): (r: (bool, bool))
    ensures r.0 <==> SendCodeAllowed(email)
    ensures r.1 <==> isSent || (SendCodeAllowed(email) && replyOk == Some(true))
  {
    if !SendCodeAllowed(email) then (false, isSent)
    else (true, isSent || replyOk == Some(true))
  }

  // ---------------------------------------------------------------------------
  // The signup body
  // ---------------------------------------------------------------------------

  datatype SignupBody = SignupBody(email: string, code: string, password: string, name: string)

  /** No white space at either end of `s`. */
  predicate Trimmed(s: string)
  {
    s == [] || (!IsJsSpace(s[0]) && !IsJsSpace(s[|s| - 1]))
  }

  /** `Trim(s)` is `s` less white space at both ends, and has none left there. */
  lemma TrimIsCore(s: string)
    ensures Trimmed(Trim(s))
    ensures exists i, j :: 0 <= i <= j <= |s| && Trim(s) == s[i..j] && AllSpace(s[..i]) && AllSpace(s[j..])
  {
    var i, j := TrimSlice(s);
  }

  /** The JSON body `handleSubmit` posts: e-mail, code and name trimmed,
      the password exactly as typed. */
  function BodyOf(email: string, code: string, password: string, name: string): (r: SignupBody)
    ensures r.password == password
    ensures Trimmed(r.email) && Trimmed(r.code) && Trimmed(r.name)
    ensures exists i, j :: 0 <= i <= j <= |email| && r.email == email[i..j] && AllSpace(email[..i]) && AllSpace(email[j..])
    ensures exists i, j :: 0 <= i <= j <= |code| && r.code == code[i..j] && AllSpace(code[..i]) && AllSpace(code[j..])
    ensures exists i, j :: 0 <= i <= j <= |name| && r.name == name[i..j] && AllSpace(name[..i]) && AllSpace(name[j..])
  {
    TrimIsCore(email);
    TrimIsCore(code);
    TrimIsCore(name);
    SignupBody(Trim(email), Trim(code), password, Trim(name))
  }

  /** Submitting the fields of a body again yields the same body: trimming
      is done once and for all. The password is never altered, so white
      space typed around it reaches the server. */
  lemma {:induction false} BodyStable(email: string, code: string, password: string, name: string)
    ensures var b := BodyOf(email, code, password, name);
      BodyOf(b.email, b.code, b.password, b.name) == b
  {
    TrimIdempotent(email);
    TrimIdempotent(code);
    TrimIdempotent(name);
  }

  // ---------------------------------------------------------------------------
  // The refusal text
  // ---------------------------------------------------------------------------

  /** One entry of a validation-error `detail` array: its `loc` path and `msg`. */
  datatype ErrItem = ErrItem(loc: seq<string>, msg: string)

  /** The `detail` field of an error reply: an array, a string, or anything
      else (missing, null, a number, an object). */
  datatype Detail = DArray(items: seq<ErrItem>) | DString(s: string) | DOther

  const DefaultMessage: string := "정보를 다시 확인해주세요."

  /** `${err.loc[1]}: ${err.msg}`; a missing `loc[1]` prints as "undefined". */
  function ItemLine(item: ErrItem): (r: string)
    ensures |item.loc| >= 2 ==> r == item.loc[1] + ": " + item.msg
    ensures |item.loc| < 2 ==> r == "undefined: " + item.msg
  {
    (if |item.loc| >= 2 then item.loc[1] else "undefined") + ": " + item.msg
  }

  function Lines(items: seq<ErrItem>): (r: seq<string>)
    ensures |r| == |items|
    ensures forall i :: 0 <= i < |items| ==> r[i] == ItemLine(items[i])
  {
    seq(|items|, i requires 0 <= i < |items| => ItemLine(items[i]))
  }

  /** The message built in `handleSubmit`. An array, even an empty one, is
      truthy and gives one line per entry; a string is shown as is (an empty
      string fails the truthiness test but passes the `typeof` test, so it
      is shown too); anything else gives the fixed default. */
  function ErrorMessage(detail: Detail): (r: string)
    ensures detail.DArray? ==> r == Join(Lines(detail.items), "\n")
    ensures detail.DString? ==> r == detail.s
    ensures detail.DOther? ==> r == DefaultMessage
  {
    match detail
    case DArray(items) => Join(Lines(items), "\n")
    case DString(s) => s
    case DOther => DefaultMessage
  }

  /** When no entry's text contains a line break, each line of the message
      is exactly one entry, in order. */
  lemma ErrorLinesRecoverable(items: seq<ErrItem>)
    requires items != []
    requires forall i :: 0 <= i < |items| ==> '\n' !in ItemLine(items[i])
    ensures Split(ErrorMessage(DArray(items)), '\n') == Lines(items)
  {
    SplitJoin(Lines(items), '\n');
  }

  /** The reply to the signup POST: unreachable (the request or its JSON
      decoding failed), or a status with its decoded `detail`. */
  datatype Reply = Unreachable | Replied(ok: bool, detail: Detail)

  datatype Outcome = NavigateTo(path: string) | Alert(text: string)

  const FailurePrefix: string := "회원가입 실패:\n"
  const NetworkMessage: string := "서버와 통신할 수 없습니다. 잠시 후 다시 시도해주세요."

  /** What `handleSubmit` ends with: the login page after an OK reply, the
      refusal text after any other reply, the network alert otherwise. */
  function Submit(reply: Reply): (r: Outcome)
    ensures r == NavigateTo("/login") <==> reply.Replied? && reply.ok
    ensures reply.Replied? && !reply.ok ==> r == Alert(FailurePrefix + ErrorMessage(reply.detail))
    ensures reply.Unreachable? ==> r == Alert(NetworkMessage)
  {
    match reply
    case Unreachable => Alert(NetworkMessage)
    case Replied(ok, detail) =>
      if ok then NavigateTo("/login") else Alert(FailurePrefix + ErrorMessage(detail))
  }
}
