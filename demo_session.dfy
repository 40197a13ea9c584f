/** The demo sign-in end to end: the mock client of lib/client.ts behind the
    `AuthProvider` of lib/auth-context.tsx, as the home page of app/page.tsx
    sees it. The mock's `onAuthStateChange` hands back a subscription and
    never calls its callback, so the provider never hears of a demo sign-in. */
module DemoSession {
  import opened Wrappers
  import opened SupabaseTypes
  import opened Client
  import opened AuthContext
  import opened HomePage
  import opened ProtectedRoute

  /** The sessions the mock's listener delivers after a sign-in reply: none,
      whatever the reply. */
  function MockListenerEvents(reply: AuthReply): (events: seq<Option<Session>>)
    ensures |events| == 0
  {
    []
  }

  /** A listener that reports a successful sign-in with its session, as the
      real client does; a refused sign-in is not an auth event. */
  function ListenerEvents(reply: AuthReply): (events: seq<Option<Session>>)
    ensures |events| <= 1
    ensures |events| == 1 <==> reply.session.Some?
    ensures |events| == 1 ==> events[0] == reply.session
  {
    if reply.session.Some? then [reply.session] else []
  }

  /** The listener runs once per delivered event. With no event the provider
      is unchanged; otherwise it holds the last event's session and user, and
      has stopped loading. */
  method Deliver(p: AuthProvider, events: seq<Option<Session>>, now: string)
    modifies p
    ensures |events| == 0 ==>
      p.user == old(p.user) && p.profile == old(p.profile) && p.session == old(p.session)
      && p.loading == old(p.loading)
    ensures |events| > 0 ==>
      var last := events[|events| - 1];
      && p.session == last
      && p.user == (if last.Some? then Some(last.value.user) else None)
      && (last.Some? && p.demo ==> p.profile == Some(MockProfile(last.value.user, now)))
      && !p.loading
  {
    for i := 0 to |events|
      invariant i == 0 ==>
        p.user == old(p.user) && p.profile == old(p.profile) && p.session == old(p.session)
        && p.loading == old(p.loading)
      invariant i > 0 ==>
        && p.session == events[i - 1]
        && p.user == (if events[i - 1].Some? then Some(events[i - 1].value.user) else None)
        && (events[i - 1].Some? && p.demo ==> p.profile == Some(MockProfile(events[i - 1].value.user, now)))
        && !p.loading
    {
      p.AuthStateChange(events[i], FetchFailed, now);
    }
  }

  /** The app as written: a provider in demo mode starts from the mock's
      (empty) stored session, the login form signs in, and the listener
      delivers what the mock delivers. Even a successful sign-in leaves the
      home page on the landing screen. */
  method DemoLoginAsWritten(email: string, password: string, now: string)
    returns (reply: AuthReply, screen: Screen)
    ensures reply == MockSignIn(email, password)
    ensures screen == Landing
  {
    var p := new AuthProvider(true);
    p.InitialSession(MockGetSession(), FetchFailed, now);
    reply := MockSignIn(email, password);
    Deliver(p, MockListenerEvents(reply), now);
    screen := Home(p.loading, p.user, p.profile);
  }

  /** The demo buttons' own credentials are accepted, and still the page
      stays on the landing screen. */
  method DemoButtonStaysOnLanding(now: string) returns (reply: AuthReply, screen: Screen)
    ensures reply.error.None? && screen == Landing
  {
    reply, screen := DemoLoginAsWritten("vendor@demo.com", "demo123", now);
  }

  /** The same flow with a listener that reports the sign-in: a successful
      demo sign-in reaches the dashboard of the account's role with the page
      itself shown, and a refused one stays on the landing screen. */
  method DemoLogin(email: string, password: string, now: string)
    returns (reply: AuthReply, screen: Screen)
    ensures reply == MockSignIn(email, password)
    ensures reply.error.Some? ==> screen == Landing
    ensures reply.error.None? ==>
      screen == Routed(if DemoAccounts[email].role == Vendor then VendorDashboard else AdminDashboard,
                       Children)
  {
    var p := new AuthProvider(true);
    p.InitialSession(MockGetSession(), FetchFailed, now);
    reply := MockSignIn(email, password);
    Deliver(p, ListenerEvents(reply), now);
    if reply.error.None? {
      DispatchAlwaysAdmits(p.user, p.profile);
    }
    screen := Home(p.loading, p.user, p.profile);
  }
}
