/** The route guard: what a guarded route renders for the current
    authentication state. */
module ProtectedRoute {
  import opened Common

  datatype Outcome =
    | Spinner
    | RedirectToLogin(from: string)
    | RedirectToDashboard
    | RedirectToUnauthorized
    | RenderChildren

  /** The guard's inputs. `requireAuth` is absent when the route does not set
      it, and then defaults to true; `userType` is the signed-in user's type,
      absent when no user record is loaded. */
  datatype Inputs = Inputs(
    isChecking: bool,
    loading: bool,
    requireAuth: Option<bool>,
    isAuthenticated: bool,
    userType: Option<string>,
    allowedUserTypes: Option<seq<string>>,
    pathname: string)

  function RequireAuth(inp: Inputs): bool {
    if inp.requireAuth.Some? then inp.requireAuth.value else true
  }

  /** The decision chain: spinner, login redirect, dashboard redirect, role
      check, children — the first that applies wins. */
  function Decide(inp: Inputs): (r: Outcome)
    ensures inp.isChecking || inp.loading ==> r == Spinner
    ensures !inp.isChecking && !inp.loading && RequireAuth(inp) && !inp.isAuthenticated ==>
              r == RedirectToLogin(inp.pathname)
    ensures !inp.isChecking && !inp.loading && !RequireAuth(inp) && inp.isAuthenticated ==>
              r == RedirectToDashboard
    ensures r == RedirectToUnauthorized <==>
              && !inp.isChecking && !inp.loading && RequireAuth(inp) && inp.isAuthenticated
              && inp.userType.Some? && inp.allowedUserTypes.Some?
              && inp.userType.value !in inp.allowedUserTypes.value
    ensures inp.allowedUserTypes.None? ==> r != RedirectToUnauthorized
  {
    if inp.isChecking || inp.loading then Spinner
    else if RequireAuth(inp) && !inp.isAuthenticated then RedirectToLogin(inp.pathname)
    else if !RequireAuth(inp) && inp.isAuthenticated then RedirectToDashboard
    else if RequireAuth(inp) && inp.isAuthenticated && inp.userType.Some? && inp.allowedUserTypes.Some?
            && inp.userType.value !in inp.allowedUserTypes.value then RedirectToUnauthorized
    else RenderChildren
  }

  /** A guarded route shows its page only to a signed-in user whose loaded
      type is allowed, and a guest-only route only to a signed-out visitor. */
  lemma ChildrenOnlyWhenAllowed(inp: Inputs)
    requires Decide(inp) == RenderChildren
    ensures !inp.isChecking && !inp.loading
    ensures RequireAuth(inp) ==> inp.isAuthenticated
    ensures !RequireAuth(inp) ==> !inp.isAuthenticated
    ensures RequireAuth(inp) && inp.userType.Some? && inp.allowedUserTypes.Some? ==>
              inp.userType.value in inp.allowedUserTypes.value
  {
  }

  /** A route that leaves `requireAuth` out behaves as one that sets it. */
  lemma RequireAuthDefaultsToTrue(inp: Inputs)
    requires inp.requireAuth.None?
    ensures Decide(inp) == Decide(inp.(requireAuth := Some(true)))
  {
  }
}
