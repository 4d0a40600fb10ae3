/** src/components/AuthWrapper.tsx: the effect that copies the identity provider's
    session token into the shared header map whenever the sign-in state changes. */
module AuthWrapper {
  import opened Common
  import opened Api

  /** The header map after one run of `updateToken`. Signed out, the credential is
      cleared. Signed in, the token is written as `token || ''`, so an absent or
      empty token clears it too. A token request that throws is only logged and
      leaves the map as it was. No other header is ever touched. */
  function HeadersAfterUpdate(common: Headers, isSignedIn: bool, result: TokenResult): (r: Headers)
    ensures !isSignedIn ==> AuthorizationKey !in r
    ensures isSignedIn && result.Issued? && Truthy(result.token)
            ==> AuthorizationKey in r && r[AuthorizationKey] == "Bearer " + result.token.value
    ensures isSignedIn && result.Issued? && !Truthy(result.token) ==> AuthorizationKey !in r
    ensures isSignedIn && result.Threw? ==> r == common
    ensures forall k :: k != AuthorizationKey ==> (k in r <==> k in common)
    ensures forall k :: k in r && k != AuthorizationKey ==> r[k] == common[k]
  {
    if !isSignedIn then WithAuthToken(common, "")
    else match result
      case Issued(token) => WithAuthToken(common, FirstTruthy([token]))
      case Threw(_) => common
  }

  /** `updateToken`. The identity provider is asked for a token only when signed in;
      `result` is what that request produced. */
  method UpdateToken(client: Client, isSignedIn: bool, result: TokenResult)
    modifies client
    ensures client.common == HeadersAfterUpdate(old(client.common), isSignedIn, result)
  {
    if isSignedIn {
      match result
      case Issued(token) =>
        client.SetAuthToken(FirstTruthy([token]));
      case Threw(_) =>
        // the error is logged and swallowed
    } else {
      client.SetAuthToken("");
    }
  }

  /** Every request sent after an update carries what the update wrote: `Bearer`
      and the token after a sign-in that issued one, and no credential at all
      after a sign-out or a sign-in with no token. */
  lemma RequestsFollowUpdate(req: Request, common: Headers, isSignedIn: bool, result: TokenResult)
    requires CarriesCredentialOf(req, HeadersAfterUpdate(common, isSignedIn, result))
    ensures isSignedIn && result.Issued? && Truthy(result.token)
            ==> AuthorizationKey in req.headers && req.headers[AuthorizationKey] == "Bearer " + result.token.value
    ensures !isSignedIn || (result.Issued? && !Truthy(result.token)) ==> AuthorizationKey !in req.headers
  {
  }
}
