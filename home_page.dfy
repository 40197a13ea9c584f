/** app/page.tsx: `HomePage` and `AuthenticatedApp`, which pick the screen from
    the auth state and the profile's role. */
module HomePage {
  import opened Wrappers
  import opened SupabaseTypes
  import opened AuthContext
  import opened ProtectedRoute

  /** The two dashboards `AuthenticatedApp` can mount. */
  datatype Dashboard = AdminDashboard | VendorDashboard

  /** What the page shows; a dashboard is shown through a `ProtectedRoute`
      whose decision is `view`. */
  datatype Screen = LoadingScreen | Landing | Routed(dashboard: Dashboard, view: View)

  /** The role dispatch of `AuthenticatedApp`: admin and reviewer profiles get
      the admin dashboard, every other case (a vendor, or no profile) the
      vendor dashboard. */
  function DashboardFor(profile: Option<Profile>): (d: Dashboard)
    ensures d == AdminDashboard <==> profile.Some? && (profile.value.role == Admin || profile.value.role == Reviewer)
  {
    if profile.Some? && (profile.value.role == Admin || profile.value.role == Reviewer) then AdminDashboard
    else VendorDashboard
  }

  /** The `requiredRole` each dashboard's route is given. */
  function RequiredFor(d: Dashboard): RoleArg {
    match d
    case AdminDashboard => Many([Admin, Reviewer])
    case VendorDashboard => One(Vendor)
  }

  /** `AuthenticatedApp`: the dispatched dashboard behind its route, which
      renders with `loading` false and no fallback. */
  function AuthenticatedApp(user: Option<User>, profile: Option<Profile>): Screen {
    var d := DashboardFor(profile);
    Routed(d, Gate(false, user, profile, Some(RequiredFor(d)), false))
  }

  /** `HomePage`: the spinner while loading, the landing page (with the login
      form) without a user, the authenticated app otherwise. */
  function Home(loading: bool, user: Option<User>, profile: Option<Profile>): (s: Screen)
    ensures loading ==> s == LoadingScreen
    ensures !loading && user.None? ==> s == Landing
    ensures !loading && user.Some? ==> s.Routed? && s.dashboard == DashboardFor(profile)
  {
    if loading then LoadingScreen
    else if user.None? then Landing
    else AuthenticatedApp(user, profile)
  }

  /** The dispatch and the route agree: a signed-in user with a profile always
      reaches the dashboard for their role, and one without a profile is told
      "Access Denied"; "Insufficient Permissions" can never appear. */
  lemma {:induction false} DispatchAlwaysAdmits(user: Option<User>, profile: Option<Profile>)
    requires user.Some?
    ensures profile.Some? ==> Home(false, user, profile) == Routed(DashboardFor(profile), Children)
    ensures profile.None? ==> Home(false, user, profile) == Routed(VendorDashboard, AccessDenied)
    ensures Home(false, user, profile).view != InsufficientPermissions
  {
    if profile.Some? {
      var d := DashboardFor(profile);
      match profile.value.role {
        case Admin => assert AsList(RequiredFor(d))[0] == Admin;
        case Reviewer => assert AsList(RequiredFor(d))[1] == Reviewer;
        case Vendor => assert AsList(RequiredFor(d))[0] == Vendor;
      }
    }
  }
}
