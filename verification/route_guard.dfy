/** The decision inside `AuthRoute` (`src/util/AuthRoute.js`): an auth-only
    page (login, register) is rendered only for an anonymous visitor; a
    logged-in user is sent home. Route matching and rendering belong to the
    router and are not modelled; `C` stands for any page component. */
module RouteGuard {
  import opened Wrappers
  import AuthContext

  /** Props are opaque name/value pairs passed through untouched. */
  type Props = map<string, string>

  const Home: string := "/"

  /** What the route's `render` callback yields. */
  datatype View<C> = Redirect(to: string) | Render(component: C, props: Props)

  /** `<Route {...rest} render={...} />`, with the callback applied to the
      props the router hands it. */
  datatype RouteElement<C> = RouteElement(props: Props, view: View<C>)

  /** `AuthRoute({ component, ...rest })` with `user` read from the session. */
  function AuthRoute<C>(user: Option<AuthContext.User>, component: C, rest: Props, routeProps: Props)
    : (r: RouteElement<C>)
    ensures r.props == rest
    ensures user.Some? ==> r.view == Redirect(Home)
    ensures user.None? ==> r.view == Render(component, routeProps)
  {
    RouteElement(rest, if user.Some? then Redirect(Home) else Render(component, routeProps))
  }

  /** The decision reads nothing but whether a user is present: two sessions
      that agree on that get the same outcome kind, and every logged-in user
      is redirected to the same place whatever the target page. */
  lemma DecisionDependsOnlyOnPresence<C>(u1: Option<AuthContext.User>, u2: Option<AuthContext.User>,
                                         c1: C, c2: C, rest1: Props, rest2: Props, p: Props)
    requires u1.Some? == u2.Some?
    ensures AuthRoute(u1, c1, rest1, p).view.Redirect? == AuthRoute(u2, c2, rest2, p).view.Redirect?
    ensures u1.Some? ==> AuthRoute(u1, c1, rest1, p).view == AuthRoute(u2, c2, rest2, p).view
    ensures u1.None? ==> AuthRoute(u1, c1, rest1, p).view == AuthRoute(u2, c1, rest2, p).view
  {
  }
}
