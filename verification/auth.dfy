/** The session store of `src/context/auth.js`: startup seeding from the
    persisted token, the two-action reducer, and the `login`/`logout`
    closures that pair a storage effect with a dispatch. React's context and
    `useReducer` are replaced by a `Session` value threaded explicitly; the
    clock is an `int` (milliseconds) and `jwtDecode` a function parameter. */
module AuthContext {
  import opened Wrappers
  import opened Storage

  /** The decoded JWT payload: `exp` in seconds since the epoch (a token may
      carry none) and the remaining claims, opaque to this code. */
  datatype Claims = Claims(exp: Option<int>, rest: map<string, string>)

  /** The object the login/register mutation hands to `login`: the token and
      the profile fields that come with it. */
  datatype UserData = UserData(token: string, profile: map<string, string>)

  /** What `user` holds: the decoded claims when seeded at startup, the whole
      `userData` object after `login`. Both are objects, hence truthy. */
  datatype User = Decoded(claims: Claims) | Authenticated(data: UserData)

  /** Reducer state: `user` and every other field of the record, which the
      reducer copies with a spread. */
  datatype AuthState = AuthState(user: Option<User>, others: map<string, string>)

  /** A dispatched action: its `type` string and its payload (`undefined` when
      the action carries none). */
  datatype Action = Action(kind: string, payload: Option<User>)

  const LOGIN: string := "LOGIN"
  const LOGOUT: string := "LOGOUT"

  /** `initialState` before seeding: `{ user: null }`. */
  const InitialState: AuthState := AuthState(None, map[])

  // ---------------------------------------------------------------------------
  // Reducer

  /** `authReducer`: LOGIN installs the payload as `user`, LOGOUT clears it,
      any other action type passes the state through; only `user` changes. */
  function AuthReducer(state: AuthState, action: Action): (r: AuthState)
    ensures r.others == state.others
    ensures action.kind == LOGIN ==> r.user == action.payload
    ensures action.kind == LOGOUT ==> r.user == None
    ensures action.kind != LOGIN && action.kind != LOGOUT ==> r == state
  {
    if action.kind == LOGIN then state.(user := action.payload)
    else if action.kind == LOGOUT then state.(user := None)
    else state
  }

  lemma LogoutIdempotent(state: AuthState, a: Action, b: Action)
    requires a.kind == LOGOUT && b.kind == LOGOUT
    ensures AuthReducer(AuthReducer(state, a), b) == AuthReducer(state, a)
  {
  }

  lemma LoginOverwrites(state: AuthState, a: Action, b: Action)
    requires a.kind == LOGIN && b.kind == LOGIN
    ensures AuthReducer(AuthReducer(state, a), b) == state.(user := b.payload)
  {
  }

  /** The dispatches `useReducer` applies, in order. */
  function ReduceAll(state: AuthState, actions: seq<Action>): AuthState
    decreases |actions|
  {
    if |actions| == 0 then state
    else ReduceAll(AuthReducer(state, actions[0]), actions[1..])
  }

  /** Reference reading of a dispatch history: `user` is the payload of the
      last LOGIN, or null if the last session-changing action was a LOGOUT,
      or the initial user when there was neither. */
  function LastUser(initial: Option<User>, actions: seq<Action>): Option<User>
    decreases |actions|
  {
    if |actions| == 0 then initial
    else
      var last := actions[|actions| - 1];
      if last.kind == LOGIN then last.payload
      else if last.kind == LOGOUT then None
      else LastUser(initial, actions[..|actions| - 1])
  }

  lemma {:induction false} LastUserCons(initial: Option<User>, a: Action, rest: seq<Action>)
    ensures LastUser(initial, [a] + rest) == LastUser(AuthReducer(AuthState(initial, map[]), a).user, rest)
    decreases |rest|
  {
    if |rest| == 0 {
      assert [a] + rest == [a];
      assert ([a] + rest)[..0] == [];
    } else {
      var front := rest[..|rest| - 1];
      assert ([a] + rest)[..|[a] + rest| - 1] == [a] + front;
      assert ([a] + rest)[|[a] + rest| - 1] == rest[|rest| - 1];
      LastUserCons(initial, a, front);
    }
  }

  /** Any dispatch history leaves every non-`user` field as it was and sets
      `user` as the last session-changing action says. */
  lemma {:induction false} ReduceAllIsLastUser(state: AuthState, actions: seq<Action>)
    ensures ReduceAll(state, actions) == AuthState(LastUser(state.user, actions), state.others)
    decreases |actions|
  {
    if |actions| == 0 {
    } else {
      var a := actions[0];
      var next := AuthReducer(state, a);
      ReduceAllIsLastUser(next, actions[1..]);
      assert actions == [a] + actions[1..];
      LastUserCons(state.user, a, actions[1..]);
    }
  }

  // ---------------------------------------------------------------------------
  // Token expiry

  /** `decodedToken.exp * 1000 < Date.now()`: `exp` is in seconds, the clock
      in milliseconds. A missing `exp` makes the product NaN, which compares
      false, so such a token never counts as expired. */
  predicate IsExpired(c: Claims, now: int)
  {
    c.exp.Some? && c.exp.value * 1000 < now
  }

  /** The boundary: at exactly `exp * 1000` ms the token is still valid, one
      millisecond later it has expired. */
  lemma ExpiryBoundary(c: Claims, e: int)
    requires c.exp == Some(e)
    ensures !IsExpired(c, e * 1000)
    ensures IsExpired(c, e * 1000 + 1)
  {
  }

  /** Expiry in whole seconds: a token expires once the clock's second
      (rounded up) has passed `exp`. */
  lemma ExpiredInSeconds(c: Claims, now: int)
    ensures IsExpired(c, now) <==> c.exp.Some? && c.exp.value < (now + 999) / 1000
  {
  }

  /** Once expired, a token stays expired as the clock advances. */
  lemma ExpiryMonotone(c: Claims, now: int, later: int)
    requires IsExpired(c, now) && now <= later
    ensures IsExpired(c, later)
  {
  }

  // ---------------------------------------------------------------------------
  // Sessions: reducer state plus the store it is kept consistent with

  datatype Session = Session(state: AuthState, store: Store)

  /** `jwtDecode` throws on a stored value that is not a token; the source
      does not catch it, so startup fails. */
  datatype StartupError = MalformedToken(token: string)

  /** The stored token backs `u`: startup claims are what the token decodes
      to, a logged-in user carries the token itself. */
  predicate Backs(u: User, token: string, decode: string -> Option<Claims>)
  {
    match u
    case Decoded(c) => decode(token) == Some(c)
    case Authenticated(d) => d.token == token
  }

  /** The session invariant: a user is present exactly when a (truthy) token
      is stored, and that token backs the user. */
  predicate InSync(s: Session, decode: string -> Option<Claims>)
  {
    var stored := GetItem(s.store, TokenKey);
    match s.state.user
    case None => !Truthy(stored)
    case Some(u) => Truthy(stored) && Backs(u, stored.value, decode)
  }

  /** Module-load seeding of `initialState`. */
  function Startup(store: Store, now: int, decode: string -> Option<Claims>): (r: Result<Session, StartupError>)
    ensures r.Failure? <==> Truthy(GetItem(store, TokenKey)) && decode(store[TokenKey]).None?
    ensures r.Success? ==> InSync(r.value, decode)
    ensures r.Success? ==> r.value.state.others == map[]
    ensures r.Success? ==>
              (r.value.state.user ==
                 if Truthy(GetItem(store, TokenKey)) && !IsExpired(decode(store[TokenKey]).value, now)
                 then Some(Decoded(decode(store[TokenKey]).value))
                 else None)
    ensures r.Success? ==>
              (r.value.store ==
                 if Truthy(GetItem(store, TokenKey)) && IsExpired(decode(store[TokenKey]).value, now)
                 then RemoveItem(store, TokenKey)
                 else store)
  {
    var stored := GetItem(store, TokenKey);
    if !Truthy(stored) then Success(Session(InitialState, store))
    else
      match decode(stored.value)
      case None => Failure(MalformedToken(stored.value))
      case Some(c) =>
        if IsExpired(c, now) then Success(Session(InitialState, RemoveItem(store, TokenKey)))
        else Success(Session(InitialState.(user := Some(Decoded(c))), store))
  }

  /** No token (or an empty one): no user, storage untouched. */
  lemma StartupWithoutToken(store: Store, now: int, decode: string -> Option<Claims>)
    requires !Truthy(GetItem(store, TokenKey))
    ensures Startup(store, now, decode) == Success(Session(AuthState(None, map[]), store))
  {
  }

  /** An expired token: the slot is cleared, no user, every other key kept. */
  lemma StartupExpired(store: Store, now: int, decode: string -> Option<Claims>, c: Claims)
    requires TokenKey in store && store[TokenKey] != ""
    requires decode(store[TokenKey]) == Some(c) && c.exp.Some? && c.exp.value * 1000 < now
    ensures Startup(store, now, decode).Success?
    ensures Startup(store, now, decode).value.state.user == None
    ensures TokenKey !in Startup(store, now, decode).value.store
    ensures AgreeExcept(store, Startup(store, now, decode).value.store, TokenKey)
  {
  }

  /** A token not yet expired (equality included, or no `exp` at all): the
      decoded claims become `user` and storage is unchanged. */
  lemma StartupValid(store: Store, now: int, decode: string -> Option<Claims>, c: Claims)
    requires TokenKey in store && store[TokenKey] != ""
    requires decode(store[TokenKey]) == Some(c)
    requires c.exp.None? || c.exp.value * 1000 >= now
    ensures Startup(store, now, decode) == Success(Session(AuthState(Some(Decoded(c)), map[]), store))
  {
  }

  /** `login(userData)`: store `userData.token`, then dispatch LOGIN with the
      whole object as payload. */
  function Login(s: Session, data: UserData): (r: Session)
    ensures GetItem(r.store, TokenKey) == Some(data.token)
    ensures r.state == AuthState(Some(Authenticated(data)), s.state.others)
    ensures AgreeExcept(s.store, r.store, TokenKey)
  {
    Session(AuthReducer(s.state, Action(LOGIN, Some(Authenticated(data)))),
            SetItem(s.store, TokenKey, data.token))
  }

  /** `logout()`: remove the token, then dispatch LOGOUT. */
  function Logout(s: Session): (r: Session)
    ensures TokenKey !in r.store
    ensures r.state == AuthState(None, s.state.others)
    ensures AgreeExcept(s.store, r.store, TokenKey)
  {
    Session(AuthReducer(s.state, Action(LOGOUT, None)),
            RemoveItem(s.store, TokenKey))
  }

  lemma LogoutTwice(s: Session)
    ensures Logout(Logout(s)) == Logout(s)
  {
  }

  /** `login` followed by `logout` leaves no trace: the same session as
      logging out directly, so every other storage key is as before. */
  lemma LoginThenLogout(s: Session, data: UserData)
    ensures Logout(Login(s, data)) == Logout(s)
    ensures Logout(Login(s, data)).state.user == None
    ensures TokenKey !in Logout(Login(s, data)).store
    ensures AgreeExcept(s.store, Logout(Login(s, data)).store, TokenKey)
  {
  }

  lemma LoginTwice(s: Session, a: UserData, b: UserData)
    ensures Login(Login(s, a), b) == Login(s, b)
  {
  }

  lemma LoginKeepsInSync(s: Session, data: UserData, decode: string -> Option<Claims>)
    requires data.token != ""
    ensures InSync(Login(s, data), decode)
  {
  }

  /** `login` with an empty token stores a falsy value next to a present
      user: on reload (and for the `Authorization` header) that session is
      anonymous. */
  lemma LoginEmptyTokenBreaksSync(s: Session, data: UserData, decode: string -> Option<Claims>)
    requires data.token == ""
    ensures !InSync(Login(s, data), decode)
  {
  }

  lemma LogoutKeepsInSync(s: Session, decode: string -> Option<Claims>)
    ensures InSync(Logout(s), decode)
  {
  }

  /** The session mutations a user can trigger. */
  datatype Op = DoLogin(data: UserData) | DoLogout

  function Apply(s: Session, op: Op): Session
  {
    match op
    case DoLogin(d) => Login(s, d)
    case DoLogout => Logout(s)
  }

  function Run(s: Session, ops: seq<Op>): Session
    decreases |ops|
  {
    if |ops| == 0 then s else Run(Apply(s, ops[0]), ops[1..])
  }

  /** Every login in `ops` carries a non-empty token. */
  predicate TokensNonEmpty(ops: seq<Op>)
  {
    forall i :: 0 <= i < |ops| ==> ops[i].DoLogin? ==> ops[i].data.token != ""
  }

  /** Any sequence of logins (with real tokens) and logouts keeps `user` and
      the stored token in sync, and never touches another storage key. */
  lemma {:induction false} RunKeepsInSync(s: Session, ops: seq<Op>, decode: string -> Option<Claims>)
    requires InSync(s, decode)
    requires TokensNonEmpty(ops)
    ensures InSync(Run(s, ops), decode)
    ensures AgreeExcept(s.store, Run(s, ops).store, TokenKey)
    ensures Run(s, ops).state.others == s.state.others
    decreases |ops|
  {
    if |ops| > 0 {
      var next := Apply(s, ops[0]);
      match ops[0] {
        case DoLogin(d) => LoginKeepsInSync(s, d, decode);
        case DoLogout => LogoutKeepsInSync(s, decode);
      }
      assert TokensNonEmpty(ops[1..]) by {
        forall i | 0 <= i < |ops[1..]|
          ensures ops[1..][i].DoLogin? ==> ops[1..][i].data.token != ""
        {
          assert ops[1..][i] == ops[i + 1];
        }
      }
      RunKeepsInSync(next, ops[1..], decode);
    }
  }
}
