/** src/components/ProtectedRoute.tsx: the guard in front of every dashboard page. */
module ProtectedRoute {
  import opened Common

  const SignInPath := "/signin"

  /** What the guard renders. */
  datatype Rendered =
    | Loader
    | Redirect(to: string, replace: bool, from: Location)
    | Children

  /** While the identity provider loads, a loader whatever the sign-in state; once
      loaded, a replacing redirect to the sign-in page that remembers where the user
      was going, or the protected content. */
  function Guard(isLoaded: bool, isSignedIn: bool, location: Location): (r: Rendered)
    ensures r.Loader? <==> !isLoaded
    ensures r.Redirect? <==> isLoaded && !isSignedIn
    ensures r.Children? <==> isLoaded && isSignedIn
    ensures r.Redirect? ==> r.to == SignInPath && r.replace && r.from == location
  {
    if !isLoaded then Loader
    else if !isSignedIn then Redirect(SignInPath, true, location)
    else Children
  }
}
