/** components/protected-route.tsx: the access decision of `ProtectedRoute`,
    a chain of conditional returns over the auth state. */
module ProtectedRoute {
  import opened Wrappers
  import opened SupabaseTypes
  import opened AuthContext

  /** What the route renders. `Fallback` is the caller's fallback element,
      used in place of both denial screens when one is given. */
  datatype View = Spinner | Fallback | AccessDenied | InsufficientPermissions | Children

  /** The decision. `required` is the optional `requiredRole` prop (a role or a
      list; a list, even an empty one, is truthy); `hasFallback` says whether a
      truthy fallback was passed. */
  function Gate(loading: bool, user: Option<User>, profile: Option<Profile>,
                required: Option<RoleArg>, hasFallback: bool): (v: View)
    ensures loading ==> v == Spinner
    ensures v == Children <==>
      !loading && user.Some? && profile.Some? && (required.None? || HasRole(profile, required.value))
    ensures v == AccessDenied <==> !loading && (user.None? || profile.None?) && !hasFallback
    ensures v == InsufficientPermissions <==>
      !loading && user.Some? && profile.Some? && required.Some? && !HasRole(profile, required.value) && !hasFallback
    ensures v == Fallback <==> !loading && hasFallback && v != Children
  {
    if loading then Spinner
    else if user.None? || profile.None? then (if hasFallback then Fallback else AccessDenied)
    else if required.Some? && !HasRole(profile, required.value) then
      (if hasFallback then Fallback else InsufficientPermissions)
    else Children
  }

  /** Widening the required roles never turns an admitted visitor away. */
  lemma {:induction false} GateMonotone(user: Option<User>, profile: Option<Profile>,
                                        rs: seq<Role>, more: seq<Role>, hasFallback: bool)
    requires forall r :: r in rs ==> r in more
    requires Gate(false, user, profile, Some(Many(rs)), hasFallback) == Children
    ensures Gate(false, user, profile, Some(Many(more)), hasFallback) == Children
  {
    HasRoleMonotone(profile, rs, more);
  }
}
