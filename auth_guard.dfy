/**
 * The route guard: which redirect the effect performs for the current
 * authentication state and the first route segment, and whether the
 * loading spinner replaces the children.
 */
module AuthGuard {
  datatype Redirect = NoRedirect | ToSignIn | ToTabs

  const AuthGroup := "(auth)"

  /** `segments[0] === "(auth)"`; an empty route has no first segment. */
  predicate InAuthGroup(segments: seq<string>) {
    |segments| > 0 && segments[0] == AuthGroup
  }

  /** The effect's decision. */
  function RedirectFor(isLoading: bool, isAuthenticated: bool, segments: seq<string>): (r: Redirect)
    ensures isLoading ==> r == NoRedirect
    ensures r == ToSignIn <==> !isLoading && !isAuthenticated && !InAuthGroup(segments)
    ensures r == ToTabs <==> !isLoading && isAuthenticated && InAuthGroup(segments)
    ensures r == NoRedirect <==>
      isLoading || (!isAuthenticated && InAuthGroup(segments)) || (isAuthenticated && !InAuthGroup(segments))
  {
    if isLoading then NoRedirect
    else if !isAuthenticated && !InAuthGroup(segments) then ToSignIn
    else if isAuthenticated && InAuthGroup(segments) then ToTabs
    else NoRedirect
  }

  /** The spinner is shown instead of the children exactly while loading. */
  function ShowsSpinner(isLoading: bool): (b: bool)
    ensures b <==> isLoading
  {
    isLoading
  }

  /** While the spinner is up the guard never navigates; once it is down,
      the guard navigates exactly when a signed-in user is inside the auth
      group or a signed-out user is outside it. */
  lemma SpinnerHoldsNavigation(isLoading: bool, isAuthenticated: bool, segments: seq<string>)
    ensures ShowsSpinner(isLoading) ==> RedirectFor(isLoading, isAuthenticated, segments) == NoRedirect
    ensures !ShowsSpinner(isLoading) ==>
      (RedirectFor(isLoading, isAuthenticated, segments) != NoRedirect <==> (isAuthenticated <==> InAuthGroup(segments)))
  {
  }

  /** The route segments of each redirect target:
      "/(auth)/signin" and "/(tabs)/". */
  function Target(r: Redirect): (segments: seq<string>)
    requires r != NoRedirect
    ensures r == ToSignIn ==> InAuthGroup(segments)
    ensures r == ToTabs ==> !InAuthGroup(segments)
  {
    if r == ToSignIn then [AuthGroup, "signin"] else ["(tabs)"]
  }

  /** A redirect lands on a route where the guard, with the same
      authentication state, does not redirect again. */
  lemma RedirectSettles(isAuthenticated: bool, segments: seq<string>)
    requires RedirectFor(false, isAuthenticated, segments) != NoRedirect
    ensures RedirectFor(false, isAuthenticated, Target(RedirectFor(false, isAuthenticated, segments))) == NoRedirect
  {
  }

  /** After the guard has acted, a signed-out user is inside the auth group
      and a signed-in user is outside it. */
  lemma GuardEstablishes(isAuthenticated: bool, segments: seq<string>)
    ensures var r := RedirectFor(false, isAuthenticated, segments);
            var landed := if r == NoRedirect then segments else Target(r);
            InAuthGroup(landed) <==> !isAuthenticated
  {
  }
}
