/** frontend/src/App.tsx: which screen a path shows, the login guard around
    every service page, and when the bottom navigation bar is drawn. The
    stored token is a parameter (None when `localStorage` has no "token"). */
module App {
  import opened Common

  /** The pages of the application. */
  datatype Page = Login | Signup | ForgotPassword | Home | Track | Messages | Points
                | TicketPage(id: string) | NfcScan | MyPage

  /** What the router renders for a location. */
  datatype View = Render(page: Page) | Redirect(to: string)

  /** The paths on which the bottom bar is hidden. */
  const HideNavPaths: seq<string> := ["/login", "/signup", "/forgot-password"]

  /** `PrivateRoute`: the wrapped page when a token is stored, otherwise a
      redirect to the login page. */
  function PrivateRoute(token: Option<string>, page: Page): (r: View)
    ensures r == Render(page) <==> Truthy(token)
    ensures r.Redirect? <==> !Truthy(token)
    ensures r.Redirect? ==> r.to == "/login"
  {
    if Truthy(token) then Render(page) else Redirect("/login")
  }

  /** `NavigationWrapper`: the bar is drawn exactly when a token is stored
      and the path is not one of the three sign-in pages. */
  function ShowBottomNav(token: Option<string>, path: string): (r: bool)
    ensures r <==> Truthy(token) && path != "/login" && path != "/signup" && path != "/forgot-password"
  {
    !(path in HideNavPaths) && Truthy(token)
  }

  /** The page a `/ticket/:id` path names: one non-empty segment after the prefix. */
  function TicketId(path: string): (r: Option<string>)
    ensures r.Some? ==> path == "/ticket/" + r.value && r.value != [] && '/' !in r.value
    ensures r.None? ==> forall id :: id != [] && '/' !in id ==> path != "/ticket/" + id
  {
    var prefix := "/ticket/";
    if |path| > |prefix| && path[..|prefix|] == prefix && '/' !in path[|prefix|..] then
      assert path == prefix + path[|prefix|..];
      Some(path[|prefix|..])
    else
      assert forall id :: (prefix + id)[..|prefix|] == prefix && (prefix + id)[|prefix|..] == id;
      None
  }

  /** The route table: the three public pages, the seven guarded pages, and
      the wildcard that sends every other path to "/". Paths are matched
      exactly. */
  function Resolve(path: string, token: Option<string>): (r: View)
    ensures path == "/login" ==> r == Render(Login)
    ensures path == "/signup" ==> r == Render(Signup)
    ensures path == "/forgot-password" ==> r == Render(ForgotPassword)
    ensures r.Render? && r.page != Login && r.page != Signup && r.page != ForgotPassword ==> Truthy(token)
    ensures r.Redirect? ==> r.to == "/login" || r.to == "/"
    ensures PageAt(path).None? ==> r == Redirect("/")
    ensures PageAt(path).Some? && Truthy(token) ==> r == Render(PageAt(path).value)
    ensures PageAt(path).Some? && !Truthy(token) ==>
      r == (if PageAt(path).value in {Login, Signup, ForgotPassword} then Render(PageAt(path).value) else Redirect("/login"))
  {
    match PageAt(path)
    case None => Redirect("/")
    case Some(page) =>
      if page == Login || page == Signup || page == ForgotPassword then Render(page)
      else PrivateRoute(token, page)
  }

  /** The page a path is declared for, None for a path no route declares. */
  function PageAt(path: string): (r: Option<Page>)
    ensures r == Some(Login) <==> path == "/login"
    ensures r == Some(Signup) <==> path == "/signup"
    ensures r == Some(ForgotPassword) <==> path == "/forgot-password"
    ensures r == Some(Home) <==> path == "/"
    ensures r == Some(Track) <==> path == "/track"
    ensures r == Some(Messages) <==> path == "/messages"
    ensures r == Some(Points) <==> path == "/points"
    ensures r == Some(NfcScan) <==> path == "/nfc-scan"
    ensures r == Some(MyPage) <==> path == "/mypage"
    ensures r.Some? && r.value.TicketPage? <==> TicketId(path).Some?
    ensures r.Some? && r.value.TicketPage? ==> path == "/ticket/" + r.value.id && r.value.id == TicketId(path).value
  {
    // A ticket path starts with "/ti", which no fixed path does.
    assert TicketId(path).Some? ==> path[1] == 't' && path[2] == 'i' by {
      if TicketId(path).Some? {
        var id := TicketId(path).value;
        assert path[1] == ("/ticket/" + id)[1] && path[2] == ("/ticket/" + id)[2];
      }
    }
    if path == "/login" then Some(Login)
    else if path == "/signup" then Some(Signup)
    else if path == "/forgot-password" then Some(ForgotPassword)
    else if path == "/" then Some(Home)
    else if path == "/track" then Some(Track)
    else if path == "/messages" then Some(Messages)
    else if path == "/points" then Some(Points)
    else if path == "/nfc-scan" then Some(NfcScan)
    else if path == "/mypage" then Some(MyPage)
    else match TicketId(path)
      case Some(id) => Some(TicketPage(id))
      case None => None
  }

  /** An unknown path is sent home, with or without a token; with a token
      the home page then renders, without one it sends the user on to the
      login page. */
  lemma UnknownPathGoesHome(path: string, token: Option<string>)
    requires PageAt(path).None?
    ensures Resolve(path, token) == Redirect("/")
    ensures Truthy(token) ==> Resolve("/", token) == Render(Home)
    ensures !Truthy(token) ==> Resolve("/", token) == Redirect("/login")
  {
  }

  /** With a token, every declared path renders its own page. */
  lemma TokenRendersDeclaredPages(token: Option<string>, id: string)
    requires Truthy(token)
    requires id != [] && '/' !in id
    ensures Resolve("/", token) == Render(Home)
    ensures Resolve("/track", token) == Render(Track)
    ensures Resolve("/messages", token) == Render(Messages)
    ensures Resolve("/points", token) == Render(Points)
    ensures Resolve("/nfc-scan", token) == Render(NfcScan)
    ensures Resolve("/mypage", token) == Render(MyPage)
    ensures Resolve("/ticket/" + id, token) == Render(TicketPage(id))
  {
    var p := "/ticket/" + id;
    assert p[..|"/ticket/"|] == "/ticket/" && p[|"/ticket/"|..] == id;
  }

  /** Without a token, no guarded page is ever rendered, and the bottom bar is not drawn. */
  lemma NoTokenNoServicePage(path: string, token: Option<string>)
    requires !Truthy(token)
    ensures Resolve(path, token).Render? ==> Resolve(path, token).page in {Login, Signup, ForgotPassword}
    ensures !ShowBottomNav(token, path)
  {
  }
}
