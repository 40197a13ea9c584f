/** The data shapes shared by the auth layer and the components: the
    `profiles` row and the role union of types/supabase.ts, and the parts of
    the auth provider's `User` and `Session` objects that the code reads. */
module SupabaseTypes {
  import opened Wrappers

  /** `UserRole = "vendor" | "admin" | "reviewer"`. */
  datatype Role = Vendor | Admin | Reviewer

  /** The string the source uses for a role. */
  function RoleName(r: Role): (name: string)
    ensures |name| > 0
  {
    match r
    case Vendor => "vendor"
    case Admin => "admin"
    case Reviewer => "reviewer"
  }

  /** Distinct roles have distinct names, so comparing names compares roles. */
  lemma RoleNameInjective(a: Role, b: Role)
    ensures RoleName(a) == RoleName(b) <==> a == b
  {
  }

  /** A row of the `profiles` table. Timestamps are opaque strings. */
  datatype Profile = Profile(
    id: string,
    email: string,
    fullName: Option<string>,
    organization: Option<string>,
    role: Role,
    avatarUrl: Option<string>,
    createdAt: string,
    updatedAt: string)

  /** The `user_metadata` object attached to a signed-in user. */
  datatype Metadata = Metadata(fullName: Option<string>, role: Option<Role>, organization: Option<string>)

  /** The fields of the auth provider's `User` that the code reads. */
  datatype User = User(id: string, email: Option<string>, metadata: Option<Metadata>)

  /** The fields of the auth provider's `Session` that the code reads. */
  datatype Session = Session(user: User, accessToken: string)
}
