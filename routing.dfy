/**
 * The route table of the `App` component: `/login` always shows the Login
 * page, `/dashboard` shows the Dashboard to a signed-in user and sends
 * everyone else to `/login`, and every other path is sent to `/dashboard`
 * or `/login` depending on the session.
 */
module Routing {

  const LoginPath: string := "/login"
  const DashboardPath: string := "/dashboard"

  datatype Page = LoginPage | DashboardPage

  /** What a route element does: render a page, or `<Navigate to=…>`. */
  datatype Outcome = Render(page: Page) | Redirect(target: string)

  /** A JSON value, as far as its JavaScript truthiness goes. */
  datatype Json = JNull | JBool(b: bool) | JNumber(n: real) | JString(s: string) | JArray | JObject

  /** JavaScript truthiness of a parsed JSON value (JSON has no NaN or undefined). */
  predicate Truthy(v: Json): (r: bool)
    ensures r <==> !(v == JNull || v == JBool(false) || v == JNumber(0.0) || v == JString(""))
  {
    match v
    case JNull => false
    case JBool(b) => b
    case JNumber(n) => n != 0.0
    case JString(s) => s != ""
    case JArray => true
    case JObject => true
  }

  /**
   * The stored `userInfo` item: missing (`getItem` gives null, which
   * `JSON.parse` turns into null), text that parses to a value, or text
   * that `JSON.parse` rejects.
   */
  datatype Stored = Missing | Parses(value: Json) | Malformed

  /** The route element chosen for `path`, with the session read once per render. */
  function Route(path: string, signedIn: bool): (r: Outcome)
    ensures r.Redirect? ==> r.target == LoginPath || r.target == DashboardPath
    ensures r == Render(DashboardPage) ==> signedIn
  {
    if path == LoginPath then Render(LoginPage)
    else if path == DashboardPath then (if signedIn then Render(DashboardPage) else Redirect(LoginPath))
    else Redirect(if signedIn then DashboardPath else LoginPath)
  }

  /** The result of rendering `App`: the routed outcome, or an exception from `JSON.parse`. */
  datatype AppResult = Shown(outcome: Outcome) | Thrown

  /** `App()` at `path`: parse the stored session, then route on its truthiness. */
  function App(stored: Stored, path: string): (r: AppResult)
    ensures r.Thrown? <==> stored.Malformed?
    ensures stored == Missing ==> r == Shown(Route(path, false))
    ensures stored.Parses? ==> r == Shown(Route(path, Truthy(stored.value)))
  {
    match stored
    case Missing => Shown(Route(path, Truthy(JNull)))
    case Parses(v) => Shown(Route(path, Truthy(v)))
    case Malformed => Thrown
  }

  /** `/dashboard` renders the Dashboard for a session and redirects to `/login` without one. */
  lemma DashboardGuarded(signedIn: bool)
    ensures Route(DashboardPath, signedIn) == if signedIn then Render(DashboardPage) else Redirect(LoginPath)
  {
  }

  /** `/login` renders the Login page whatever the session. */
  lemma LoginAlwaysRenders(signedIn: bool)
    ensures Route(LoginPath, signedIn) == Render(LoginPage)
  {
  }

  /** Any other path, `/signup` included, redirects according to the session. */
  lemma OtherPathsRedirect(path: string, signedIn: bool)
    requires path != LoginPath && path != DashboardPath
    ensures Route(path, signedIn) == Redirect(if signedIn then DashboardPath else LoginPath)
  {
  }

  /** There is no signup route: `/signup` never renders a page. */
  lemma SignupRedirects(signedIn: bool)
    ensures Route("/signup", signedIn) == Redirect(if signedIn then DashboardPath else LoginPath)
  {
    OtherPathsRedirect("/signup", signedIn);
  }

  /** Follows at most `hops` redirects from `path`, the session staying the same. */
  function Follow(path: string, signedIn: bool, hops: nat): Outcome
    decreases hops
  {
    match Route(path, signedIn)
    case Render(p) => Render(p)
    case Redirect(t) => if hops == 0 then Redirect(t) else Follow(t, signedIn, hops - 1)
  }

  /** The page a path finally shows: Login, unless signed in and not at `/login`. */
  function Destination(path: string, signedIn: bool): Page {
    if signedIn && path != LoginPath then DashboardPage else LoginPage
  }

  /** A redirect target renders a page at once: redirects never chain. */
  lemma RedirectTargetRenders(path: string, signedIn: bool)
    requires Route(path, signedIn).Redirect?
    ensures Route(Route(path, signedIn).target, signedIn) == Render(Destination(path, signedIn))
  {
  }

  /**
   * No redirect loops: from any path, following redirects reaches a
   * rendered page within one hop, and that page is `Destination`.
   */
  lemma {:induction false} NoRedirectLoops(path: string, signedIn: bool, hops: nat)
    requires hops >= 1
    ensures Follow(path, signedIn, hops) == Render(Destination(path, signedIn))
  {
    match Route(path, signedIn)
    case Render(p) =>
    case Redirect(t) =>
      RedirectTargetRenders(path, signedIn);
      assert Follow(t, signedIn, hops - 1) == Render(Destination(path, signedIn));
  }
}
