/** lib/auth-context.tsx: the role checks (pure) and the provider state that
    the handlers and the auth listener update (a class). */
module AuthContext {
  import opened Wrappers
  import opened SupabaseTypes

  /** The argument of `hasRole`: one role or a list of roles. */
  datatype RoleArg = One(role: Role) | Many(roles: seq<Role>)

  /** `Array.isArray(roles) ? roles : [roles]`. */
  function AsList(arg: RoleArg): (roles: seq<Role>)
    ensures arg.One? ==> roles == [arg.role]
    ensures arg.Many? ==> roles == arg.roles
  {
    match arg
    case One(r) => [r]
    case Many(rs) => rs
  }

  /** `hasRole`: false without a profile, otherwise whether the profile's role
      is among the roles asked for. */
  function HasRole(profile: Option<Profile>, arg: RoleArg): (b: bool)
    ensures profile.None? ==> !b
    ensures b <==> profile.Some? && exists i :: 0 <= i < |AsList(arg)| && AsList(arg)[i] == profile.value.role
  {
    profile.Some? && profile.value.role in AsList(arg)
  }

  /** A single role is the one-element list. */
  lemma HasRoleOne(profile: Option<Profile>, r: Role)
    ensures HasRole(profile, One(r)) <==> profile.Some? && profile.value.role == r
    ensures HasRole(profile, One(r)) == HasRole(profile, Many([r]))
  {
  }

  /** Asking for more roles never takes access away. */
  lemma HasRoleMonotone(profile: Option<Profile>, rs: seq<Role>, more: seq<Role>)
    requires forall r :: r in rs ==> r in more
    ensures HasRole(profile, Many(rs)) ==> HasRole(profile, Many(more))
  {
  }

  /** `isAdmin: hasRole("admin")`. */
  function IsAdmin(profile: Option<Profile>): (b: bool)
    ensures b <==> profile.Some? && profile.value.role == Admin
  {
    HasRole(profile, One(Admin))
  }

  /** `isVendor: hasRole("vendor")`. */
  function IsVendor(profile: Option<Profile>): (b: bool)
    ensures b <==> profile.Some? && profile.value.role == Vendor
  {
    HasRole(profile, One(Vendor))
  }

  /** A profile is never both admin and vendor. */
  lemma AdminAndVendorExclusive(profile: Option<Profile>)
    ensures !(IsAdmin(profile) && IsVendor(profile))
  {
  }

  /** `useAuth`: the context, or the error thrown outside a provider. */
  function UseAuth<T>(context: Option<T>): (r: Result<T>)
    ensures r.Ok? <==> context.Some?
    ensures r.Ok? ==> r.value == context.value
    ensures r.Err? ==> r.message == "useAuth must be used within an AuthProvider"
  {
    match context
    case Some(c) => Ok(c)
    case None => Err("useAuth must be used within an AuthProvider")
  }

  /** The profile built for a signed-in user in demo mode. Metadata fields that
      are absent or empty fall back to "Demo User", vendor and "Demo
      Organization"; `now` stands for the `toISOString()` timestamps. */
  function MockProfile(u: User, now: string): (p: Profile)
    ensures p.id == u.id && p.avatarUrl.None? && p.createdAt == now && p.updatedAt == now
    ensures p.email == OrElse(u.email, "")
    ensures p.fullName.Some? && p.fullName.value != ""
    ensures p.organization.Some? && p.organization.value != ""
    ensures u.metadata.None? ==>
      p.fullName == Some("Demo User") && p.role == Vendor && p.organization == Some("Demo Organization")
    ensures u.metadata.Some? && u.metadata.value.fullName.Some? && u.metadata.value.fullName.value != "" ==>
      p.fullName == u.metadata.value.fullName
    ensures u.metadata.Some? && (u.metadata.value.fullName.None? || u.metadata.value.fullName.value == "") ==>
      p.fullName == Some("Demo User")
    ensures u.metadata.Some? && u.metadata.value.role.Some? ==> p.role == u.metadata.value.role.value
    ensures u.metadata.Some? && u.metadata.value.role.None? ==> p.role == Vendor
    ensures u.metadata.Some? && u.metadata.value.organization.Some? && u.metadata.value.organization.value != "" ==>
      p.organization == u.metadata.value.organization
    ensures u.metadata.Some? && (u.metadata.value.organization.None? || u.metadata.value.organization.value == "") ==>
      p.organization == Some("Demo Organization")
  {
    var md := u.metadata;
    Profile(
      u.id,
      OrElse(u.email, ""),
      Some(OrElse(if md.Some? then md.value.fullName else None, "Demo User")),
      Some(OrElse(if md.Some? then md.value.organization else None, "Demo Organization")),
      if md.Some? && md.value.role.Some? then md.value.role.value else Vendor,
      None, now, now)
  }

  /** `Partial<Profile>`: each field either present (`Some`) or absent. */
  datatype ProfileUpdate = ProfileUpdate(
    id: Option<string>,
    email: Option<string>,
    fullName: Option<Option<string>>,
    organization: Option<Option<string>>,
    role: Option<Role>,
    avatarUrl: Option<Option<string>>,
    createdAt: Option<string>,
    updatedAt: Option<string>)

  const NoChanges := ProfileUpdate(None, None, None, None, None, None, None, None)

  /** `{ ...profile, ...updates }`: every present update field wins. */
  function Overlay(p: Profile, u: ProfileUpdate): Profile {
    Profile(
      u.id.GetOr(p.id),
      u.email.GetOr(p.email),
      u.fullName.GetOr(p.fullName),
      u.organization.GetOr(p.organization),
      u.role.GetOr(p.role),
      u.avatarUrl.GetOr(p.avatarUrl),
      u.createdAt.GetOr(p.createdAt),
      u.updatedAt.GetOr(p.updatedAt))
  }

  /** `{ ...u1, ...u2 }` on two partial profiles. */
  function Merge(u1: ProfileUpdate, u2: ProfileUpdate): ProfileUpdate {
    ProfileUpdate(
      if u2.id.Some? then u2.id else u1.id,
      if u2.email.Some? then u2.email else u1.email,
      if u2.fullName.Some? then u2.fullName else u1.fullName,
      if u2.organization.Some? then u2.organization else u1.organization,
      if u2.role.Some? then u2.role else u1.role,
      if u2.avatarUrl.Some? then u2.avatarUrl else u1.avatarUrl,
      if u2.createdAt.Some? then u2.createdAt else u1.createdAt,
      if u2.updatedAt.Some? then u2.updatedAt else u1.updatedAt)
  }

  /** The laws of the overlay: an empty update changes nothing, applying the
      same update twice is applying it once, and two updates in a row are one
      merged update. */
  lemma OverlayLaws(p: Profile, u: ProfileUpdate, u2: ProfileUpdate)
    ensures Overlay(p, NoChanges) == p
    ensures Overlay(Overlay(p, u), u) == Overlay(p, u)
    ensures Overlay(Overlay(p, u), u2) == Overlay(p, Merge(u, u2))
  {
  }

  /** The result of the non-demo `fetchProfile`: the row, or a failed query. */
  datatype Fetch = Fetched(row: Option<Profile>) | FetchFailed

  /** The profile after `fetchProfile`: replaced by the row, kept on failure. */
  function AfterFetch(current: Option<Profile>, f: Fetch): (p: Option<Profile>)
    ensures f.FetchFailed? ==> p == current
    ensures f.Fetched? ==> p == f.row
  {
    match f
    case Fetched(row) => row
    case FetchFailed => current
  }

  /** The state of `AuthProvider`: `user`, `profile`, `session` and `loading`;
      `demo` is the module-level demo flag. */
  class AuthProvider {
    var user: Option<User>
    var profile: Option<Profile>
    var session: Option<Session>
    var loading: bool
    const demo: bool

    /** The initial `useState` values. */
    constructor (demo: bool)
      ensures this.demo == demo
      ensures user.None? && profile.None? && session.None? && loading
    {
      this.demo := demo;
      user, profile, session, loading := None, None, None, true;
    }

    /** The profile a session with a user yields: the mock profile in demo
        mode, the fetched row otherwise. */
    function ProfileFor(u: User, fetched: Fetch, now: string): Option<Profile>
      reads this
    {
      if demo then Some(MockProfile(u, now)) else AfterFetch(profile, fetched)
    }

    /** `getInitialSession`: adopt the stored session; without one the profile
        is left as it is. Loading ends either way. */
    method InitialSession(s: Option<Session>, fetched: Fetch, now: string)
      modifies this
      ensures session == s
      ensures user == (if s.Some? then Some(s.value.user) else None)
      ensures profile == if s.Some? then old(ProfileFor(s.value.user, fetched, now)) else old(profile)
      ensures !loading
    {
      session := s;
      user := if s.Some? then Some(s.value.user) else None;
      if s.Some? {
        profile := ProfileFor(s.value.user, fetched, now);
      }
      loading := false;
    }

    /** The `onAuthStateChange` listener: adopt the new session; without one
        both the user and the profile become null. Loading ends either way. */
    method AuthStateChange(s: Option<Session>, fetched: Fetch, now: string)
      modifies this
      ensures session == s
      ensures user == (if s.Some? then Some(s.value.user) else None)
      ensures profile == if s.Some? then old(ProfileFor(s.value.user, fetched, now)) else None
      ensures s.None? ==> user.None? && profile.None?
      ensures !loading
    {
      session := s;
      user := if s.Some? then Some(s.value.user) else None;
      if s.Some? {
        profile := ProfileFor(s.value.user, fetched, now);
      } else {
        profile := None;
      }
      loading := false;
    }

    /** `signOut`: the profile is cleared at once; user and session are left
        to the listener. */
    method SignOut()
      modifies this`profile
      ensures profile.None?
    {
      profile := None;
    }

    /** `updateProfile`. Without a user it fails and changes nothing; in demo
        mode it overlays the update on an existing profile and succeeds;
        otherwise `backendError` is the reply of the `profiles` update, and the
        local profile is overlaid only when that reply has no error. */
    method UpdateProfile(updates: ProfileUpdate, backendError: Option<string>) returns (error: Option<string>)
      modifies this`profile
      ensures old(user).None? ==> error == Some("No user logged in") && profile == old(profile)
      ensures old(user).Some? && demo ==> error.None?
      ensures old(user).Some? && !demo ==> error == backendError
      ensures old(user).Some? && (demo || backendError.None?) && old(profile).Some? ==>
        profile == Some(Overlay(old(profile).value, updates))
      ensures old(profile).None? ==> profile.None?
      ensures old(user).Some? && !demo && backendError.Some? ==> profile == old(profile)
    {
      if user.None? {
        return Some("No user logged in");
      }
      if demo {
        if profile.Some? {
          profile := Some(Overlay(profile.value, updates));
        }
        return None;
      }
      if backendError.None? && profile.Some? {
        profile := Some(Overlay(profile.value, updates));
      }
      error := backendError;
    }
  }
}
