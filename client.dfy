/** lib/client.ts: the choice between the real auth client and the demo-mode
    mock, and the mock's replies. The real client is an external service and is
    not part of this model. */
module Client {
  import opened Wrappers
  import opened SupabaseTypes

  /** An environment variable is truthy when it is set and non-empty. */
  predicate Present(v: Option<string>) {
    v.Some? && v.value != ""
  }

  /** `isDemoMode = !supabaseUrl || !supabaseAnonKey`. */
  predicate IsDemoMode(url: Option<string>, anonKey: Option<string>) {
    !Present(url) || !Present(anonKey)
  }

  datatype ClientKind = RealClient | MockClient

  /** The module-load `if (supabaseUrl && supabaseAnonKey)` that picks the client.
      The mock is chosen exactly when the exported demo flag is set. */
  function ChooseClient(url: Option<string>, anonKey: Option<string>): (c: ClientKind)
    ensures c == MockClient <==> IsDemoMode(url, anonKey)
    ensures c == RealClient <==> url.Some? && url.value != "" && anonKey.Some? && anonKey.value != ""
  {
    if Present(url) && Present(anonKey) then RealClient else MockClient
  }

  const DemoPassword: string := "demo123"

  /** One entry of the mock's account table. */
  datatype Account = Account(role: Role, fullName: string)

  /** The mock's `demoAccounts` table, keyed by e-mail. */
  const DemoAccounts: map<string, Account> := map[
    "vendor@demo.com" := Account(Vendor, "Demo Vendor"),
    "admin@demo.com" := Account(Admin, "Demo Admin"),
    "reviewer@demo.com" := Account(Reviewer, "Demo Reviewer")]

  /** The `{ data: { user, session }, error }` reply of an auth call; `error`
      holds the error's message. */
  datatype AuthReply = AuthReply(user: Option<User>, session: Option<Session>, error: Option<string>)

  /** The signed-in user the mock builds from an account. */
  function DemoUser(email: string, a: Account): User {
    User("demo-" + RoleName(a.role), Some(email), Some(Metadata(Some(a.fullName), Some(a.role), None)))
  }

  /** The mock `signInWithPassword`: succeeds for the three demo accounts with
      the shared password, and fails with "Invalid credentials" otherwise. */
  function MockSignIn(email: string, password: string): (r: AuthReply)
    ensures r.error.None? <==>
      (email == "vendor@demo.com" || email == "admin@demo.com" || email == "reviewer@demo.com") &&
      password == "demo123"
    ensures r.error.None? ==>
      && r.user.Some? && r.session.Some?
      && r.session.value.user == r.user.value
      && r.session.value.accessToken == "demo-token"
      && r.user.value.email == Some(email)
      && r.user.value.id == "demo-" + RoleName(DemoAccounts[email].role)
      && r.user.value.metadata == Some(Metadata(Some(DemoAccounts[email].fullName), Some(DemoAccounts[email].role), None))
    ensures r.error.Some? ==> r.user.None? && r.session.None? && r.error.value == "Invalid credentials"
  {
    if email in DemoAccounts && password == DemoPassword then
      var u := DemoUser(email, DemoAccounts[email]);
      AuthReply(Some(u), Some(Session(u, "demo-token")), None)
    else
      AuthReply(None, None, Some("Invalid credentials"))
  }

  /** The mock `signUp`: always refused. */
  function MockSignUp(): (r: AuthReply)
    ensures r.user.None? && r.session.None? && r.error == Some("Sign up not available in demo mode")
  {
    AuthReply(None, None, Some("Sign up not available in demo mode"))
  }

  /** The mock `getSession`: there is never a stored session. */
  function MockGetSession(): (s: Option<Session>)
    ensures s.None?
  {
    None
  }

  /** The `{ data, error }` reply of `from(table).select().eq().single()`. */
  datatype QueryReply = QueryReply(data: Option<Profile>, error: Option<string>)

  /** The mock profile lookup. The `eq` filter is ignored, so every lookup in
      `profiles` yields the same vendor row; other tables yield no data. `now`
      stands for the `toISOString()` timestamps. */
  function MockSingle(table: string, now: string): (r: QueryReply)
    ensures r.error.None?
    ensures r.data.Some? <==> table == "profiles"
    ensures r.data.Some? ==>
      && r.data.value.role == Vendor
      && r.data.value.id == "demo-user"
      && r.data.value.email == "demo@example.com"
      && r.data.value.fullName == Some("Demo User")
      && r.data.value.organization == Some("Demo Organization")
  {
    if table == "profiles" then
      QueryReply(Some(Profile("demo-user", "demo@example.com", Some("Demo User"), Some("Demo Organization"),
                              Vendor, None, now, now)), None)
    else
      QueryReply(None, None)
  }

  /** Keys that every JavaScript object inherits from `Object.prototype`; the
      `in` operator reports them as present in any object literal. */
  const PrototypeKeys: set<string> := {
    "constructor", "__proto__", "toString", "toLocaleString", "valueOf", "hasOwnProperty",
    "isPrototypeOf", "propertyIsEnumerable", "__defineGetter__", "__defineSetter__",
    "__lookupGetter__", "__lookupSetter__"}

  /** The credential test of the mock sign-in as written: `email in demoAccounts`
      also holds for inherited prototype keys. */
  predicate AcceptsAsWritten(email: string, password: string) {
    (email in DemoAccounts || email in PrototypeKeys) && password == DemoPassword
  }

  /** The as-written test lets "constructor" with the demo password through,
      although it is not one of the three demo accounts and the intended
      sign-in refuses it. */
  lemma PrototypeKeyAccepted()
    ensures AcceptsAsWritten("constructor", "demo123")
    ensures "constructor" !in DemoAccounts
    ensures MockSignIn("constructor", "demo123").error == Some("Invalid credentials")
  {
  }

  /** On the three demo accounts the as-written test and the intended one agree:
      the discrepancy is confined to the inherited keys. */
  lemma AcceptsAsWrittenOnAccounts(email: string, password: string)
    requires email !in PrototypeKeys
    ensures AcceptsAsWritten(email, password) <==> MockSignIn(email, password).error.None?
  {
  }
}
