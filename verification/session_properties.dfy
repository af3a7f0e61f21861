/** Facts that tie the session store to its two readers: the route guard
    and the `Authorization` header. */
module SessionProperties {
  import opened Wrappers
  import opened Storage
  import opened AuthContext
  import opened RouteGuard
  import opened ApolloLink

  /** After `login` with token `t`, the next request carries `Bearer t` and
      auth-only pages redirect home. */
  lemma AfterLogin<C>(s: Session, data: UserData, page: C, rest: Props, p: Props)
    requires data.token != ""
    ensures AuthLink(Login(s, data).store).headers[Authorization] == BearerPrefix + data.token
    ensures AuthRoute(Login(s, data).state.user, page, rest, p).view == Redirect(Home)
  {
  }

  /** After `login` with an empty token the two readers disagree: the guard
      still redirects home, but the stored token is falsy, so requests carry
      an empty `Authorization` header. */
  lemma AfterEmptyTokenLogin<C>(s: Session, data: UserData, page: C, rest: Props, p: Props)
    requires data.token == ""
    ensures AuthLink(Login(s, data).store).headers[Authorization] == ""
    ensures AuthRoute(Login(s, data).state.user, page, rest, p).view == Redirect(Home)
  {
  }

  /** After `logout`, requests carry an empty `Authorization` header and the
      guard renders the requested page with the router's props. */
  lemma AfterLogout<C>(s: Session, page: C, rest: Props, p: Props)
    ensures AuthLink(Logout(s).store).headers[Authorization] == ""
    ensures AuthRoute(Logout(s).state.user, page, rest, p).view == Render(page, p)
  {
  }

  /** In a consistent session the two readers agree: the guard redirects
      exactly when requests carry a bearer credential, and that credential is
      the stored token. */
  lemma GuardAgreesWithHeader<C>(s: Session, decode: string -> Option<Claims>,
                                                   page: C, rest: Props, p: Props)
    requires InSync(s, decode)
    ensures (AuthRoute(s.state.user, page, rest, p).view.Redirect?
             <==> AuthLink(s.store).headers[Authorization] != "")
    ensures s.state.user.Some? ==>
              BearerCredential(AuthLink(s.store).headers[Authorization]) == GetItem(s.store, TokenKey)
  {
  }

  /** A session seeded from a valid stored token sends that very token, and
      the user it holds is what the token decodes to. */
  lemma StartupSendsStoredToken(store: Store, now: int, decode: string -> Option<Claims>, c: Claims)
    requires TokenKey in store && store[TokenKey] != ""
    requires decode(store[TokenKey]) == Some(c) && !IsExpired(c, now)
    ensures Startup(store, now, decode).Success?
    ensures Startup(store, now, decode).value.state.user == Some(Decoded(c))
    ensures AuthLink(Startup(store, now, decode).value.store).headers[Authorization]
              == BearerPrefix + store[TokenKey]
  {
  }

  /** A session seeded from an expired token sends no credential and lets
      the visitor reach auth-only pages. */
  lemma StartupExpiredIsAnonymous<C>(store: Store, now: int, decode: string -> Option<Claims>, c: Claims,
                                     page: C, rest: Props, p: Props)
    requires TokenKey in store && store[TokenKey] != ""
    requires decode(store[TokenKey]) == Some(c) && IsExpired(c, now)
    ensures Startup(store, now, decode).Success?
    ensures AuthLink(Startup(store, now, decode).value.store).headers[Authorization] == ""
    ensures AuthRoute(Startup(store, now, decode).value.state.user, page, rest, p).view == Render(page, p)
  {
  }

  /** Whatever logins and logouts follow a successful startup, guard and
      header keep agreeing. */
  lemma {:induction false} AgreementAfterAnyHistory<C>(store: Store, now: int, decode: string -> Option<Claims>,
                                                      ops: seq<Op>, page: C, rest: Props, p: Props)
    requires Startup(store, now, decode).Success?
    requires TokensNonEmpty(ops)
    ensures var s := Run(Startup(store, now, decode).value, ops);
            (AuthRoute(s.state.user, page, rest, p).view.Redirect?
             <==> AuthLink(s.store).headers[Authorization] != "")
  {
    var s0 := Startup(store, now, decode).value;
    RunKeepsInSync(s0, ops, decode);
    GuardAgreesWithHeader(Run(s0, ops), decode, page, rest, p);
  }
}
