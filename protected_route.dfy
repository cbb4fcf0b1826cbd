/** `ProtectedRoute`: whether a guarded page is shown, withheld, or redirected. */
module ProtectedRoute {
  import opened Wrappers
  import opened Storage
  import opened Net
  import opened Session

  datatype Outcome = Checking | ShowElement | Redirect(path: string)

  const SignInPath := "/sign-in"

  /** The three-way decision on `isLoading` and `user`. */
  function Decide(isLoading: bool, user: Option<User>): (o: Outcome)
    ensures isLoading <==> o == Checking
    ensures o == ShowElement <==> !isLoading && user.Some?
    ensures o.Redirect? <==> !isLoading && user.None?
    ensures o.Redirect? ==> o.path == SignInPath
  {
    if isLoading then Checking
    else if user.Some? then ShowElement
    else Redirect(SignInPath)
  }

  /** The guard as the route sees it, reading the session. */
  function Guard(s: State): Outcome {
    Decide(s.isLoading, s.user)
  }

  /** The token plays no part: two sessions that agree on `isLoading` and `user` are
    * guarded alike. */
  lemma GuardIgnoresToken(s: State, t: State)
    requires s.isLoading == t.isLoading && s.user == t.user
    ensures Guard(s) == Guard(t)
  {
  }

  /** Until the stored token is resolved the guard waits; afterwards it never does, and
    * a failed resolution sends the visitor to sign in. */
  lemma GuardAroundResolution(p: Store, response: Response<User>)
    ensures Guard(Initial(p)) == Checking
    ensures Guard(AfterResolve(Initial(p), response)) != Checking
    ensures !response.Ok? ==> Guard(AfterResolve(Initial(p), response)) == Redirect(SignInPath)
  {
  }

  /** In a consistent session the guarded element is only shown to a holder of a token. */
  lemma ShownOnlyWithToken(s: State)
    requires Consistent(s) && Guard(s) == ShowElement
    ensures s.token.Some?
  {
  }
}
