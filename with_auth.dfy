/**
 * The route guard (components/layout/with-auth.tsx): what the wrapped page
 * renders for an auth state, whether it sends the browser to the login
 * page, and the wrapper's display name.
 */
module WithAuth {
  import opened Wrappers
  import AuthProvider

  datatype GateView<P> = Spinner | RenderNothing | Wrapped(props: P)

  /** What renders, and where the effect navigates to, if anywhere. */
  datatype Gate<P> = Gate(view: GateView<P>, redirect: Option<string>)

  function Decide<P>(isAuthenticated: bool, isLoading: bool, props: P): (g: Gate<P>)
    ensures g.view.Spinner? <==> isLoading
    ensures g.view.RenderNothing? <==> !isLoading && !isAuthenticated
    ensures g.view.Wrapped? <==> !isLoading && isAuthenticated
    ensures g.view.Wrapped? ==> g.view.props == props
    ensures g.redirect.Some? <==> g.view.RenderNothing?
    ensures g.redirect.Some? ==> g.redirect.value == "/login"
  {
    var redirect := if !isLoading && !isAuthenticated then Some("/login") else None;
    if isLoading then Gate(Spinner, redirect)
    else if !isAuthenticated then Gate(RenderNothing, redirect)
    else Gate(Wrapped(props), redirect)
  }

  /** The gate over the session record the provider holds. */
  function GateFor<P>(auth: AuthProvider.AuthState, props: P): Gate<P> {
    Decide(auth.isAuthenticated, auth.isLoading, props)
  }

  /** Before start-up the gate shows the spinner; with no stored token start-up makes it redirect to the login page. */
  lemma GateAroundStartup<P>(storage: map<string, string>, decodedExp: Option<Option<int>>, now: int, props: P)
    requires !Truthy(AuthProvider.StoredToken(storage))
    ensures var s := AuthProvider.Session(AuthProvider.InitialAuth(), storage);
      && GateFor(s.auth, props).view.Spinner?
      && GateFor(AuthProvider.Startup(s, decodedExp, now).0.auth, props).redirect == Some("/login")
  {
  }

  /** The page renders exactly when the provider's record is authenticated and, by its invariant, carries a user. */
  lemma WrappedHasUser<P>(auth: AuthProvider.AuthState, props: P)
    requires AuthProvider.AuthValid(auth)
    requires GateFor(auth, props).view.Wrapped?
    ensures auth.user.Some? && auth.token.Some?
  {
  }

  /** JavaScript `a || b` on strings: an empty or missing `a` gives `b`. */
  function OrElse(a: Option<string>, b: string): string {
    if Truthy(a) then a.value else b
  }

  /** `withAuth(<displayName || name || "Component">)`. */
  function DisplayName(displayName: Option<string>, name: Option<string>): (r: string)
    ensures |r| >= 11 && r[..9] == "withAuth(" && r[|r| - 1] == ')'
    ensures Truthy(displayName) ==> r[9..|r| - 1] == displayName.value
    ensures !Truthy(displayName) && Truthy(name) ==> r[9..|r| - 1] == name.value
    ensures !Truthy(displayName) && !Truthy(name) ==> r[9..|r| - 1] == "Component"
  {
    var inner := OrElse(displayName, OrElse(name, "Component"));
    var r := "withAuth(" + inner + ")";
    assert r[9..|r| - 1] == inner;
    r
  }
}
