/** The request-context callback `authLink` of `src/ApolloServer.js`: every
    outbound GraphQL request re-reads the stored token and sets the
    `Authorization` header from it. Client construction, the cache and the
    HTTP transport are library configuration and are not modelled. */
module ApolloLink {
  import opened Wrappers
  import opened Storage

  const Authorization: string := "Authorization"
  const BearerPrefix: string := "Bearer "

  type Headers = map<string, string>

  /** The context object the callback returns: `{ headers }`. */
  datatype RequestContext = RequestContext(headers: Headers)

  /** `token ? \`Bearer ${token}\` : ''` over the current store. */
  function AuthLink(store: Store): (r: RequestContext)
    ensures r.headers.Keys == {Authorization}
    ensures Truthy(GetItem(store, TokenKey)) ==> r.headers[Authorization] == BearerPrefix + store[TokenKey]
    ensures !Truthy(GetItem(store, TokenKey)) ==> r.headers[Authorization] == ""
  {
    var token := GetItem(store, TokenKey);
    RequestContext(map[Authorization := if Truthy(token) then BearerPrefix + token.value else ""])
  }

  /** How a receiver reads the credential back out of the header value:
      the text after a `Bearer ` prefix, if there is any. */
  function BearerCredential(value: string): Option<string>
  {
    if |value| > |BearerPrefix| && value[..|BearerPrefix|] == BearerPrefix
    then Some(value[|BearerPrefix|..])
    else None
  }

  /** The header carries exactly the stored token when there is a truthy one,
      and no credential otherwise. */
  lemma AuthLinkRoundTrip(store: Store)
    ensures Truthy(GetItem(store, TokenKey)) <==> BearerCredential(AuthLink(store).headers[Authorization]).Some?
    ensures Truthy(GetItem(store, TokenKey)) ==>
              BearerCredential(AuthLink(store).headers[Authorization]) == GetItem(store, TokenKey)
  {
  }

  /** The header depends on nothing but the token slot. */
  lemma AuthLinkReadsOnlyTokenSlot(a: Store, b: Store)
    requires GetItem(a, TokenKey) == GetItem(b, TokenKey)
    ensures AuthLink(a) == AuthLink(b)
  {
  }
}
