/** The application's route table: which page a path shows, depending on
    whether a user is signed in. Paths are matched as the router does by
    default: ignoring ASCII case and any trailing slashes. */
module Routes {
  import opened Text

  datatype Screen =
    | LoginView | SignupView | AboutView | GeneratorView | SuccessView | ProjectsView
    | Redirect(to: string)

  /** `path` with its trailing '/' characters removed. */
  function StripTrailingSlashes(path: string): (r: string)
    ensures |r| <= |path| && r == path[..|r|]
    ensures forall i :: |r| <= i < |path| ==> path[i] == '/'
    ensures r == [] || r[|r| - 1] != '/'
    decreases |path|
  {
    if path != [] && path[|path| - 1] == '/' then StripTrailingSlashes(path[..|path| - 1]) else path
  }

  /** The path matches the lower-case static `pattern`. */
  predicate PathMatches(path: string, pattern: string) {
    ToLower(StripTrailingSlashes(path)) == pattern
  }

  /** `AppRoutes`: the signed-out table, or the signed-in one; a path no
      route matches falls to the catch-all redirect. */
  function Route(signedIn: bool, path: string): Screen {
    if !signedIn then
      if PathMatches(path, "/login") then LoginView
      else if PathMatches(path, "/signup") then SignupView
      else if PathMatches(path, "/about") then AboutView
      else Redirect("/login")
    else
      if PathMatches(path, "/opm_code_generator") then GeneratorView
      else if PathMatches(path, "/opm_success") then SuccessView
      else if PathMatches(path, "/about") then AboutView
      else if PathMatches(path, "/projects") then ProjectsView
      else Redirect("/opm_code_generator")
  }

  /** Signed out, only the login, sign-up and about pages are shown, and
      everything else leads to /login; signed in, the sign-in pages are never
      shown and everything unknown leads to the generator. */
  lemma ScreensByState(path: string)
    ensures Route(false, path) in {LoginView, SignupView, AboutView, Redirect("/login")}
    ensures Route(true, path) in {GeneratorView, SuccessView, AboutView, ProjectsView, Redirect("/opm_code_generator")}
  {
  }

  /** The generator, success and projects pages need a signed-in user. */
  lemma ProtectedPagesNeedUser(path: string)
    ensures Route(false, path) != GeneratorView && Route(false, path) != SuccessView
    ensures Route(false, path) != ProjectsView
  {
  }

  lemma StripOfLowerPattern(pattern: string)
    requires pattern != [] && pattern[|pattern| - 1] != '/'
    ensures StripTrailingSlashes(pattern) == pattern
  {
  }

  lemma LowerOfLower(pattern: string)
    requires forall i :: 0 <= i < |pattern| ==> !('A' <= pattern[i] <= 'Z')
    ensures ToLower(pattern) == pattern
  {
  }

  /** /about shows the about page in both states, and so does any spelling
      of it that differs in case or trailing slashes. */
  lemma AboutInBothStates(path: string)
    requires PathMatches(path, "/about")
    ensures Route(false, path) == AboutView && Route(true, path) == AboutView
  {
  }

  /** Every redirect lands on a path that is itself shown in the same state,
      so no path redirects more than once. */
  lemma RedirectsSettle(signedIn: bool, path: string)
    ensures Route(signedIn, path).Redirect? ==> !Route(signedIn, Route(signedIn, path).to).Redirect?
  {
    StripOfLowerPattern("/login");
    LowerOfLower("/login");
    StripOfLowerPattern("/opm_code_generator");
    LowerOfLower("/opm_code_generator");
  }

  /** Each rendered page is reached from its own path. */
  lemma OwnPathsRender()
    ensures Route(false, "/login") == LoginView && Route(false, "/signup") == SignupView
    ensures Route(true, "/projects") == ProjectsView && Route(true, "/opm_success") == SuccessView
  {
    StripOfLowerPattern("/login");
    LowerOfLower("/login");
    StripOfLowerPattern("/signup");
    LowerOfLower("/signup");
    StripOfLowerPattern("/projects");
    LowerOfLower("/projects");
    StripOfLowerPattern("/opm_success");
    LowerOfLower("/opm_success");
  }
}
