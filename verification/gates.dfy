/** The decisions pages take from the session store before rendering:
    `ProtectedRoute`, the redirect effects of the Transfer, Profile and Cards
    pages, and the Auth page's redirect once a user appears. Navigation is a
    returned value, not an effect. */
module Gates {
  import opened Wrappers
  import opened AuthStore
  import AuthStoreProofs

  /** A router navigation: target path, whether it replaces the history entry,
      and the `state.from` it carries. */
  datatype Navigation = Navigation(to: string, replace: bool, from: Option<string>)

  datatype RouteView = LoadingScreen | Redirect(nav: Navigation) | Children

  /** `ProtectedRoute`: loading first, then the session; user and profile
      play no part. Exactly one of the three outcomes, by construction. */
  function ProtectedRoute(a: Auth, pathname: string): (v: RouteView)
    ensures v == LoadingScreen <==> a.loading
    ensures v.Redirect? <==> !a.loading && a.session.None?
    ensures v.Redirect? ==> v.nav == Navigation("/auth", true, Some(pathname))
    ensures v == Children <==> !a.loading && a.session.Some?
  {
    if a.loading then LoadingScreen
    else if a.session.None? then Redirect(Navigation("/auth", true, Some(pathname)))
    else Children
  }

  /** Two states that agree on `loading` and `session` get the same outcome,
      whatever their user and profile. */
  lemma ProtectedRouteIgnoresUserAndProfile(a: Auth, b: Auth, pathname: string)
    requires a.loading == b.loading && a.session == b.session
    ensures ProtectedRoute(a, pathname) == ProtectedRoute(b, pathname)
  {
  }

  datatype PageView = PageLoading | Nothing | Page

  /** What a gated page renders, and where its redirect effect navigates. */
  datatype Gate = Gate(view: PageView, navigate: Option<Navigation>)

  /** The gate of the Transfer and Profile pages: the effect navigates to
      `/auth` (without `replace`) once loading is over with no session; while
      loading only the loading view shows; with no session, nothing. */
  function SessionGate(a: Auth): (g: Gate)
    ensures g.navigate.Some? <==> !a.loading && a.session.None?
    ensures g.navigate.Some? ==> g.navigate.value == Navigation("/auth", false, None)
    ensures g.view == PageLoading <==> a.loading
    ensures g.view == Page <==> !a.loading && a.session.Some?
  {
    var navigate := if !a.loading && a.session.None? then Some(Navigation("/auth", false, None)) else None;
    var view := if a.loading then PageLoading else if a.session.None? then Nothing else Page;
    Gate(view, navigate)
  }

  /** The gate of the Cards page, which tests the user instead of the session. */
  function UserGate(a: Auth): (g: Gate)
    ensures g.navigate.Some? <==> !a.loading && a.user.None?
    ensures g.navigate.Some? ==> g.navigate.value == Navigation("/auth", false, None)
    ensures g.view == PageLoading <==> a.loading
    ensures g.view == Page <==> !a.loading && a.user.Some?
  {
    var navigate := if !a.loading && a.user.None? then Some(Navigation("/auth", false, None)) else None;
    var view := if a.loading then PageLoading else if a.user.None? then Nothing else Page;
    Gate(view, navigate)
  }

  /** The two gates disagree only when the user does not belong to the session,
      which no trace of the store produces. */
  lemma GatesAgreeOnReachableStates(trace: seq<Event>)
    requires ValidTrace(Start, trace)
    ensures SessionGate(Run(Start, trace).auth) == UserGate(Run(Start, trace).auth)
  {
    AuthStoreProofs.UserFollowsSession(trace);
  }

  /** The Auth page's effect: as soon as there is a user, go to `/` replacing
      the history entry. The submit handler never navigates. */
  function AuthPageRedirect(a: Auth): (nav: Option<Navigation>)
    ensures nav.Some? <==> a.user.Some?
    ensures nav.Some? ==> nav.value == Navigation("/", true, None)
  {
    if a.user.Some? then Some(Navigation("/", true, None)) else None
  }

  /** In every state the store reaches, the Auth page leaves for `/` exactly
      when there is a session, which is also exactly when the protected
      routes let the visitor through once loading is over. */
  lemma AuthPageRedirectFollowsSession(trace: seq<Event>)
    requires ValidTrace(Start, trace)
    ensures AuthPageRedirect(Run(Start, trace).auth).Some? <==> Run(Start, trace).auth.session.Some?
    ensures !Run(Start, trace).auth.loading ==>
      (AuthPageRedirect(Run(Start, trace).auth).Some? <==> ProtectedRoute(Run(Start, trace).auth, "/") == Children)
  {
    AuthStoreProofs.UserFollowsSession(trace);
  }
}
