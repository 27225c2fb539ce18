/** The application's route table and its two guards. A guard is a pure
    function of the auth hook's `loading` flag, whether a user is signed in,
    the profile-completeness flag and the current path. The router matches
    a path ignoring ASCII case and trailing slashes, but `AuthRoute` compares
    the raw `location.pathname`, so the two can disagree. */
module Routes {
  import opened Wrappers
  import opened Text

  /** What a guard does: show a spinner, redirect (replacing the history
      entry), or render the guarded page. */
  datatype Decision = Spinner | Redirect(to: string) | Render

  /** The auth hook's answers a guard reads. */
  datatype Session = Session(loading: bool, signedIn: bool, complete: bool)

  /** `ProtectedRoute`: loading shows the spinner; no user goes to /welcome;
      an incomplete profile goes to /onboarding; otherwise the page renders
      inside the app layout. */
  function ProtectedRoute(s: Session): (r: Decision)
    ensures r == Render <==> !s.loading && s.signedIn && s.complete
    ensures r == Spinner <==> s.loading
    ensures r.Redirect? ==> r.to == (if s.signedIn then "/onboarding" else "/welcome")
  {
    if s.loading then Spinner
    else if !s.signedIn then Redirect("/welcome")
    else if !s.complete then Redirect("/onboarding")
    else Render
  }

  /** `AuthRoute`, guarding /onboarding, /login and /signup: loading shows the
      spinner; /onboarding needs a user and sends a complete profile to the
      dashboard; /login and /signup send a signed-in user on; any other path
      renders. */
  function AuthRoute(s: Session, path: string): (r: Decision)
    ensures s.loading <==> r == Spinner
    ensures !s.loading && path == "/onboarding" ==>
      r == (if !s.signedIn then Redirect("/welcome") else if s.complete then Redirect("/dashboard") else Render)
    ensures !s.loading && (path == "/login" || path == "/signup") ==>
      r == (if !s.signedIn then Render else if s.complete then Redirect("/dashboard") else Redirect("/onboarding"))
    ensures !s.loading && path !in {"/onboarding", "/login", "/signup"} ==> r == Render
  {
    if s.loading then Spinner
    else if path == "/onboarding" then
      if !s.signedIn then Redirect("/welcome")
      else if s.complete then Redirect("/dashboard")
      else Render
    else if path == "/welcome" then Render
    else if path == "/login" || path == "/signup" then
      if s.signedIn then
        if s.complete then Redirect("/dashboard") else Redirect("/onboarding")
      else Render
    else Render
  }

  datatype Screen =
    | WelcomeScreen | LoginScreen | SignupScreen | OnboardingScreen
    | DashboardScreen | InquiriesScreen | BookingsScreen | ProfileScreen

  /** How a route is wrapped. */
  datatype Guard = Unguarded | ByAuthRoute | ByProtectedRoute

  datatype RouteEntry = RouteEntry(guard: Guard, screen: Screen)

  /** `path` is `base` itself or lies below it, as a splat route under `base` matches. */
  predicate Under(path: string, base: string) {
    path == base || (|path| > |base| && path[..|base|] == base && path[|base|] == '/')
  }

  /** `s` without its trailing slashes. */
  function StripTrailingSlashes(s: string): (r: string)
    ensures r <= s && (r == [] || r[|r| - 1] != '/')
    ensures forall i | |r| <= i < |s| :: s[i] == '/'
    decreases |s|
  {
    if s != [] && s[|s| - 1] == '/' then StripTrailingSlashes(s[..|s| - 1]) else s
  }

  /** The spelling the router compares with its route patterns: its patterns
      are case-insensitive regular expressions (without the Unicode flag, so
      only ASCII letters fold onto the routes' ASCII letters) ending in
      a run of slashes, so any number of trailing slashes is accepted. */
  function RouterKey(path: string): string {
    StripTrailingSlashes(ToLower(path))
  }

  /** The route table: which screen a path selects and how it is guarded;
      `None` for the root (one or more slashes, a redirect of its own) and for
      paths no route matches. */
  function Match(path: string): (r: Option<RouteEntry>)
    ensures r.Some? && r.value.guard == ByAuthRoute <==> RouterKey(path) in {"/login", "/signup", "/onboarding"}
    ensures RouterKey(path) == "" ==> r.None?
  {
    var key := RouterKey(path);
    if key == "/welcome" then Some(RouteEntry(Unguarded, WelcomeScreen))
    else if key == "/login" then Some(RouteEntry(ByAuthRoute, LoginScreen))
    else if key == "/signup" then Some(RouteEntry(ByAuthRoute, SignupScreen))
    else if key == "/onboarding" then Some(RouteEntry(ByAuthRoute, OnboardingScreen))
    else if key == "/dashboard" then Some(RouteEntry(ByProtectedRoute, DashboardScreen))
    else if Under(key, "/inquiries") then Some(RouteEntry(ByProtectedRoute, InquiriesScreen))
    else if Under(key, "/bookings") then Some(RouteEntry(ByProtectedRoute, BookingsScreen))
    else if Under(key, "/profile") then Some(RouteEntry(ByProtectedRoute, ProfileScreen))
    else None
  }

  /** A trailing slash and ASCII case select the same route. */
  lemma MatchIgnoresSpelling(path: string)
    ensures Match(path + "/") == Match(path)
    ensures Match(ToLower(path)) == Match(path)
  {
    assert ToLower(path + "/") == ToLower(path) + "/";
    assert (ToLower(path) + "/")[..|ToLower(path) + "/"| - 1] == ToLower(path);
    ToLowerIdempotent(path);
  }

  /** The decision of the guard wrapping a route. */
  function GuardDecision(g: Guard, s: Session, path: string): Decision {
    match g
    case Unguarded => Render
    case ByAuthRoute => AuthRoute(s, path)
    case ByProtectedRoute => ProtectedRoute(s)
  }

  /** What the app shows at a path. */
  datatype View = Loading | GoTo(to: string) | Show(screen: Screen) | NothingShown

  /** The redirect targets are spelled as the router spells them. */
  lemma TargetsCanonical()
    ensures RouterKey("/welcome") == "/welcome"
    ensures RouterKey("/onboarding") == "/onboarding"
    ensures RouterKey("/dashboard") == "/dashboard"
  {
    assert ToLower("/welcome") == "/welcome";
    assert ToLower("/onboarding") == "/onboarding";
    assert ToLower("/dashboard") == "/dashboard";
  }

  /** The pathnames the root route `/` matches: one or more slashes. */
  predicate IsRoot(path: string) {
    path != "" && RouterKey(path) == ""
  }

  /** The app at `path`: the root redirects to /welcome; a matched route runs
      its guard, which reads the raw path; an unmatched path shows nothing. */
  function Visit(s: Session, path: string): (r: View)
    ensures IsRoot(path) ==> r == GoTo("/welcome")
    ensures r.GoTo? ==> r.to != path
    ensures r == Loading ==> s.loading
  {
    TargetsCanonical();
    if IsRoot(path) then GoTo("/welcome")
    else if Match(path).None? then NothingShown
    else
      var e := Match(path).value;
      match GuardDecision(e.guard, s, path)
      case Spinner => Loading
      case Redirect(to) => GoTo(to)
      case Render => Show(e.screen)
  }

  /** As written, a trailing slash or a change of case gets past the
      onboarding guard: the router mounts the wizard, and the guard, not
      recognising the raw path, renders it, so a signed-out visitor sees the
      wizard at "/Onboarding" or "/onboarding/". (At such spellings of /login
      and /signup the guard renders too, but those screens redirect a
      signed-in user on their own.) */
  lemma SpellingBypassesGuard(s: Session)
    requires !s.loading && !s.signedIn
    ensures Visit(s, "/Onboarding") == Show(OnboardingScreen)
    ensures Visit(s, "/onboarding/") == Show(OnboardingScreen)
  {
    assert RouterKey("/Onboarding") == "/onboarding" by {
      assert ToLower("/Onboarding") == "/onboarding";
      assert StripTrailingSlashes("/onboarding") == "/onboarding";
    }
    assert RouterKey("/onboarding/") == "/onboarding" by {
      assert ToLower("/onboarding/") == "/onboarding/";
      assert StripTrailingSlashes("/onboarding") == "/onboarding";
    }
  }

  /** The intended app: the guard judges the path the router matched. */
  function VisitIntended(s: Session, path: string): (r: View)
    ensures IsRoot(path) ==> r == GoTo("/welcome")
    ensures r == Loading ==> s.loading
  {
    if IsRoot(path) then GoTo("/welcome")
    else if Match(path).None? then NothingShown
    else
      var e := Match(path).value;
      match GuardDecision(e.guard, s, RouterKey(path))
      case Spinner => Loading
      case Redirect(to) => GoTo(to)
      case Render => Show(e.screen)
  }

  /** With the guard reading the matched path, every spelling of a guarded
      page is decided as its canonical spelling is: the wizard shows only to a
      signed-in user with an incomplete profile, and the login and sign-up
      screens only to a signed-out visitor. */
  lemma IntendedGuardIgnoresSpelling(s: Session, path: string)
    ensures RouterKey(path) == "/onboarding" ==>
      (VisitIntended(s, path) == Show(OnboardingScreen) <==> !s.loading && s.signedIn && !s.complete)
    ensures RouterKey(path) in {"/login", "/signup"} ==>
      (VisitIntended(s, path).Show? <==> !s.loading && !s.signedIn)
  {
  }

  /** Once loading is over, every redirect lands on a page that shows a
      screen: no path redirects more than once, so there is no redirect
      loop. */
  lemma {:induction false} RedirectsSettle(s: Session, path: string)
    requires !s.loading && Visit(s, path).GoTo?
    ensures Visit(s, Visit(s, path).to).Show?
  {
    var to := Visit(s, path).to;
    assert to in {"/welcome", "/onboarding", "/dashboard"};
    if to == "/onboarding" {
      assert s.signedIn && !s.complete;
    } else if to == "/dashboard" {
      assert s.signedIn && s.complete;
    }
  }

  /** The protected pages show their screen exactly for a signed-in user with
      a complete profile. */
  lemma ProtectedScreensNeedCompleteProfile(s: Session, path: string)
    requires Match(path).Some? && Match(path).value.guard == ByProtectedRoute
    ensures Visit(s, path).Show? <==> !s.loading && s.signedIn && s.complete
  {
  }

  /** The onboarding wizard shows exactly for a signed-in user whose profile
      is not complete. */
  lemma OnboardingShownIff(s: Session)
    ensures Visit(s, "/onboarding") == Show(OnboardingScreen) <==> !s.loading && s.signedIn && !s.complete
  {
    assert RouterKey("/onboarding") == "/onboarding" by {
      assert ToLower("/onboarding") == "/onboarding";
    }
  }
}
