# Session store of a React/Apollo client, modelled in Dafny

The application keeps one authentication session in the browser. At
startup it reads the persisted `"jwtToken"` slot of `localStorage`. It
decodes the token and compares the `exp` claim (seconds) with the clock
(milliseconds): an expired token is removed, a live one seeds `user`.
Afterwards `login(userData)` and `logout()` write or delete the slot and
dispatch LOGIN/LOGOUT to a small reducer. Two readers depend on that state:

- the route guard `AuthRoute` sends a logged-in user away from auth-only
  pages;
- the Apollo `authLink` attaches `Authorization: Bearer <token>` (or `''`)
  to every GraphQL request.

The model makes every effect explicit. Storage is a `map<string, string>`
(`Storage.Store`). The clock is an `int` in milliseconds. `jwtDecode` is a
function parameter `decode: string -> Option<Claims>`, where `None` means it
throws. React's context and `useReducer` become a `Session` value (reducer
state plus store) that operations take and return.

Files:

- `wrappers.dfy`: `Option` and `Result`.
- `storage.dfy`: `getItem`, `setItem`, `removeItem`, and JavaScript truthiness of a `getItem` result.
- `auth.dfy` (module `AuthContext`): claims, users, reducer, expiry check, startup seeding, `login`/`logout`, and the session invariant `InSync`.
- `route_guard.dfy` (module `RouteGuard`): the redirect-or-render decision.
- `apollo_link.dfy` (module `ApolloLink`): the `Authorization` header rule.
- `session_properties.dfy`: facts that connect the three.

Behaviour of the source worth noting:

- A token whose `exp * 1000` equals the clock is still valid. The comparison is a strict `<`, not "expiry ≤ now".
- The `Authorization` header is always present. With no token its value is `''`; it is not omitted.
- A stored value that `jwtDecode` rejects is not caught. Startup then fails (`Failure(MalformedToken)`); it does not fall back to anonymous.
- After `login`, `user` is the whole `userData` object (`Authenticated(data)`), not the token's decoded claims.

Edge cases the source implies and the model keeps:

- An empty stored token is falsy. Startup ignores it and the header is `''`.
- A token without `exp` makes `exp * 1000` NaN. NaN compares false, so such a token never expires.
- `login` with an empty token leaves a user present while the stored token is falsy (`LoginEmptyTokenBreaksSync`). Every other login/logout history keeps `user` and storage in sync (`RunKeepsInSync`).

## Model

| member | source | states |
|---|---|---|
| AuthContext.AuthReducer | src/context/auth.js:33-48 | LOGIN sets `user` to the payload, LOGOUT sets it to null, any other type returns the state unchanged; no field besides `user` ever changes |
| AuthContext.LoginOverwrites | src/context/auth.js:35-39 | two LOGINs in a row leave only the second payload; the earlier one leaves no trace |
| AuthContext.LogoutIdempotent | src/context/auth.js:40-44 | applying LOGOUT twice equals applying it once |
| AuthContext.ReduceAllIsLastUser | src/context/auth.js:33-58 | after any dispatch history, `user` is the payload of the last LOGIN, null if a LOGOUT came later, or the initial user if neither occurred; other fields stay as they were |
| AuthContext.ExpiryBoundary | src/context/auth.js:11 | at exactly `exp * 1000` ms a token is still valid; one millisecond later it has expired |
| AuthContext.ExpiredInSeconds | src/context/auth.js:11-13 | the millisecond comparison equals comparing `exp` with the clock's second rounded up |
| AuthContext.ExpiryMonotone | src/context/auth.js:11 | an expired token stays expired as the clock advances |
| AuthContext.Startup | src/context/auth.js:4-18 | startup fails exactly when a truthy stored token does not decode; otherwise `user` is the decoded claims when the stored token is truthy and not expired at `now`, and null otherwise; storage loses the token slot exactly when that token is expired and is unchanged otherwise; the seeded session satisfies the invariant and holds no other fields |
| AuthContext.StartupWithoutToken | src/context/auth.js:4-7 | with no token, or an empty one, `user` is null and storage is untouched |
| AuthContext.StartupExpired | src/context/auth.js:11-14 | a token with `exp * 1000 < now` is removed, `user` stays null, every other key is kept |
| AuthContext.StartupValid | src/context/auth.js:11-16 | a token with `exp * 1000 >= now`, equality included, or with no `exp` seeds `user` with the decoded claims and leaves storage unchanged |
| AuthContext.Login | src/context/auth.js:61-67 | stores `userData.token` under `"jwtToken"`, sets `user` to the whole `userData`, and changes no other storage key or state field |
| AuthContext.Logout | src/context/auth.js:69-72 | removes `"jwtToken"`, sets `user` to null, and changes no other storage key or state field |
| AuthContext.LogoutTwice | src/context/auth.js:69-72 | a second `logout` changes nothing |
| AuthContext.LoginTwice | src/context/auth.js:61-67 | a second `login` fully replaces the first, in storage and in state |
| AuthContext.LoginThenLogout | src/context/auth.js:61-72 | `login` then `logout` is the same as `logout` alone: no token, `user` null, every other key as before |
| AuthContext.LoginKeepsInSync | src/context/auth.js:61-67 | `login` with a non-empty token establishes the session invariant from any session |
| AuthContext.LoginEmptyTokenBreaksSync | src/context/auth.js:61-67 | `login` with an empty token leaves a present user beside a falsy stored token |
| AuthContext.LogoutKeepsInSync | src/context/auth.js:69-72 | `logout` establishes the session invariant from any session |
| AuthContext.RunKeepsInSync | src/context/auth.js:61-72 | any sequence of logins with non-empty tokens and logouts preserves the invariant, never touches another storage key, and preserves the other state fields |
| RouteGuard.AuthRoute | src/util/AuthRoute.js:10-17 | the `rest` props reach the route unchanged; a present user is redirected to exactly `"/"`; an absent user gets the target component rendered with the router's props |
| RouteGuard.DecisionDependsOnlyOnPresence | src/util/AuthRoute.js:11-17 | the outcome depends only on whether a user is present, not on which user, which page or which props |
| ApolloLink.AuthLink | src/ApolloServer.js:16-23 | the headers always hold exactly the `Authorization` key: `Bearer ` plus the token when the stored token is truthy, `''` otherwise (absent or empty) |
| ApolloLink.AuthLinkRoundTrip | src/ApolloServer.js:17-20 | reading the credential back from the header yields exactly the stored token when it is truthy, and no credential otherwise |
| ApolloLink.AuthLinkReadsOnlyTokenSlot | src/ApolloServer.js:16-23 | two stores with the same token slot produce the same headers |
| SessionProperties.AfterLogin | src/context/auth.js:61-67 | after `login` with token `t` the header is `Bearer t` and the guard redirects home |
| SessionProperties.AfterEmptyTokenLogin | src/context/auth.js:61-67 | after `login` with an empty token the guard still redirects home but the header is `''`: the one history where guard and header disagree |
| SessionProperties.AfterLogout | src/context/auth.js:69-72 | after `logout` the header is `''` and the guard renders the requested page |
| SessionProperties.GuardAgreesWithHeader | src/ApolloServer.js:17-20 | in a consistent session the guard redirects exactly when the header is non-empty, and that header carries the stored token |
| SessionProperties.StartupSendsStoredToken | src/context/auth.js:4-18 | a session seeded from a live token holds its decoded claims and sends that token as its bearer credential |
| SessionProperties.StartupExpiredIsAnonymous | src/context/auth.js:11-14 | a session seeded from an expired token sends an empty header and renders auth-only pages |
| SessionProperties.AgreementAfterAnyHistory | src/context/auth.js:4-72 | after startup and any login/logout history with real tokens, guard and header still agree |

## Left out

- React plumbing (`createContext`, `useReducer`, the provider, `useContext`, JSX rendering): the state is a value threaded through the operations instead. Re-render notification is not modelled.
- react-router's `Route`/`Redirect` internals and path matching: only the redirect-or-render decision is modelled. That the guard has no side effects follows from its being a pure function of `user`.
- Apollo client construction, `InMemoryCache`, `createHttpLink`, its URI and `authLink.concat` (src/ApolloServer.js:11-14,25-34): library and network configuration.
- `jwtDecode` internals and signature checking: decoding is the `decode` parameter, and the source never verifies signatures.
- `Date.now()` and `localStorage` as real effects: they are an `int` parameter and an explicit map. Storage quota and disabled-storage faults are not modelled.
- JavaScript numbers: `exp` and the clock are unbounded integers, so floating-point rounding is not modelled. A non-numeric `exp` is not modelled either; only an absent one (NaN) is.
- `setItem` coercing a non-string `userData.token` (for example `undefined` to `"undefined"`): `UserData.token` is typed as a string.
- Startup reads the token slot twice (src/context/auth.js:7,9). Nothing runs between the two reads, so the model reads it once.
