/** src/components/ProtectedRoute.js: the gate in front of every page that
    needs a session. */
module Access {
  import opened Js

  /** What the gate renders. `RedirectToLogin` carries the location the user
      tried to open as `state.from`; `RedirectHome` carries `state.error`. */
  datatype GateResult =
    | ShowLoading
    | RedirectToLogin(from: string)
    | RedirectHome(error: string)
    | RenderChildren

  const AccessDenied := "Access Denied"

  /** `allowedRoles.includes(user?.role)`: a user without a role matches no
      listed role. */
  predicate RoleListed(allowedRoles: seq<string>, role: Option<string>)
    ensures RoleListed(allowedRoles, role) <==> exists i :: 0 <= i < |allowedRoles| && role == Some(allowedRoles[i])
  {
    role.Some? && role.value in allowedRoles
  }

  /** The gate's decision. `allowedRoles` is None when the prop is omitted;
      any array, even an empty one, is truthy and so restricts. */
  function Gate(isAuthLoading: bool, isAuthenticated: bool, role: Option<string>,
                allowedRoles: Option<seq<string>>, pathname: string): (r: GateResult)
    ensures isAuthLoading ==> r == ShowLoading
    ensures !isAuthLoading && !isAuthenticated ==> r == RedirectToLogin(pathname)
    ensures !isAuthLoading && isAuthenticated ==>
      (r == RenderChildren <==> allowedRoles.None? || RoleListed(allowedRoles.value, role))
    ensures !isAuthLoading && isAuthenticated && r != RenderChildren ==> r == RedirectHome(AccessDenied)
  {
    if isAuthLoading then ShowLoading
    else if !isAuthenticated then RedirectToLogin(pathname)
    else if allowedRoles.Some? && !RoleListed(allowedRoles.value, role) then RedirectHome(AccessDenied)
    else RenderChildren
  }

  /** The children are rendered only for a finished, authenticated session
      whose role the route admits; widening the role list never turns an
      admitted user away. */
  lemma GateMonotone(role: Option<string>, allowed: seq<string>, more: seq<string>, pathname: string)
    ensures Gate(false, true, role, Some(allowed), pathname) == RenderChildren ==>
      Gate(false, true, role, Some(allowed + more), pathname) == RenderChildren
    ensures Gate(false, true, role, Some([]), pathname) == RedirectHome(AccessDenied)
  {
    if role.Some? && role.value in allowed {
      assert role.value in allowed + more;
    }
  }
}
