/**
 The application shell (components/Layout.tsx): which screen shows (login, onboarding or the
 main layout), the session hand-offs with the service, the ten-item notification feed and the
 notification drop-down. Navigation and styling are not modelled.
 */
module Layout {
  import opened Types
  import Feed
  import CyborgDB
  import Notifications

  /** How many streamed threats the shell keeps for the drop-down. */
  const FeedCap: nat := 10

  datatype Screen = LoginScreen | OnboardingScreen | MainScreen

  datatype LayoutState = LayoutState(
    user: Option<User>,
    showOnboarding: bool,
    showNotifications: bool,
    threats: seq<Threat>
  )

  /** The shell and the service agree on who is signed in. */
  predicate InSync(st: LayoutState, service: CyborgDB.ServiceState) {
    st.user == CyborgDB.GetCurrentUser(service)
  }

  /** The shell once mounted: the user is whatever the service reports, everything else empty or off. */
  function Mount(service: CyborgDB.ServiceState): (st: LayoutState)
    ensures InSync(st, service)
    ensures !st.showOnboarding && !st.showNotifications && st.threats == []
    ensures CurrentScreen(st) == LoginScreen <==> service.currentUser == None
    ensures CurrentScreen(st) != OnboardingScreen
  {
    LayoutState(CyborgDB.GetCurrentUser(service), false, false, [])
  }

  /** The render gate. */
  function CurrentScreen(st: LayoutState): (scr: Screen)
    ensures scr == LoginScreen <==> st.user.None?
    ensures scr == OnboardingScreen <==> st.user.Some? && st.showOnboarding
    ensures scr == MainScreen <==> st.user.Some? && !st.showOnboarding
  {
    if st.user.None? then LoginScreen
    else if st.showOnboarding then OnboardingScreen
    else MainScreen
  }

  /** `handleLogin`: keeps the new user and starts the wizard. */
  function HandleLogin(st: LayoutState, u: User): (r: LayoutState)
    ensures r.user == Some(u) && r.showOnboarding
    ensures CurrentScreen(r) == OnboardingScreen
    ensures r.threats == st.threats && r.showNotifications == st.showNotifications
  {
    st.(user := Some(u), showOnboarding := true)
  }

  /** A character JavaScript's `String.prototype.trim` removes: white space or a line terminator. */
  predicate IsTrimmed(c: char) {
    || c == ' ' || c == '\t' || c == '\n' || c == '\r' || c == '\U{000B}' || c == '\U{000C}'
    || c == '\U{00A0}' || c == '\U{1680}' || '\U{2000}' <= c <= '\U{200A}'
    || c == '\U{2028}' || c == '\U{2029}' || c == '\U{202F}' || c == '\U{205F}'
    || c == '\U{3000}' || c == '\U{FEFF}'
  }

  /** `!username.trim()`: nothing is left once the surrounding white space is trimmed. */
  predicate IsBlank(username: string) {
    forall i :: 0 <= i < |username| ==> IsTrimmed(username[i])
  }

  /**
   The login form's submit. A blank username is refused before any call; otherwise the service
   logs in with the raw input and the shell is handed the user it returned. Since a non-blank
   input is never empty, the service's `SecOp_Admin` default cannot be reached from the form.
   */
  function SubmitLogin(
    st: LayoutState, service: CyborgDB.ServiceState, username: string, userKey: string, entryKey: string
  ): (r: (LayoutState, CyborgDB.ServiceState))
    ensures IsBlank(username) ==> r.0 == st && r.1 == service
    ensures !IsBlank(username) ==>
      && InSync(r.0, r.1)
      && CurrentScreen(r.0) == OnboardingScreen
      && r.0.user.value.username == username
      && |r.1.history| == |service.history| + 1 && r.1.threats == service.threats
  {
    if IsBlank(username) then (st, service)
    else
      var o := CyborgDB.Login(service, username, userKey, entryKey);
      (HandleLogin(st, o.value), o.state)
  }

  /** The wizard's `onComplete`: hides it, revealing the main layout. */
  function CompleteOnboarding(st: LayoutState): (r: LayoutState)
    ensures !r.showOnboarding
    ensures st.user.Some? ==> CurrentScreen(r) == MainScreen
    ensures r.user == st.user && r.threats == st.threats
  {
    st.(showOnboarding := false)
  }

  /** `handleLogout`: the service logs out and the shell forgets the user and the wizard. */
  function HandleLogout(st: LayoutState, service: CyborgDB.ServiceState): (r: (LayoutState, CyborgDB.ServiceState))
    ensures InSync(r.0, r.1)
    ensures r.0.user == None && !r.0.showOnboarding
    ensures CurrentScreen(r.0) == LoginScreen && NotificationPanel(r.0) == None
    ensures r.0.showNotifications == st.showNotifications
    ensures r.1.history == service.history && r.1.threats == service.threats
    ensures r.0.threats == st.threats
  {
    (st.(user := None, showOnboarding := false), CyborgDB.Logout(service))
  }

  /** The shell's stream callback: the threat heads the feed, which keeps at most ten. */
  function OnStreamedThreat(st: LayoutState, t: Threat): (r: LayoutState)
    ensures |r.threats| == Min(|st.threats| + 1, FeedCap)
    ensures r.threats[0] == t
    ensures r.threats[1..] == st.threats[..|r.threats| - 1]
    ensures r.user == st.user && r.showOnboarding == st.showOnboarding
  {
    st.(threats := Feed.Push(t, st.threats, FeedCap))
  }

  /** The bell button toggles the drop-down; its close button shuts it. */
  function ToggleNotifications(st: LayoutState): (r: LayoutState)
    ensures r.showNotifications != st.showNotifications
    ensures r.user == st.user && r.threats == st.threats && r.showOnboarding == st.showOnboarding
  {
    st.(showNotifications := !st.showNotifications)
  }

  function CloseNotifications(st: LayoutState): (r: LayoutState)
    ensures !r.showNotifications
    ensures r.user == st.user && r.threats == st.threats && r.showOnboarding == st.showOnboarding
  {
    st.(showNotifications := false)
  }

  /**
   What the drop-down shows for the shell's state. It is part of the main layout only, so on
   the login and onboarding screens nothing shows, whatever its flag says.
   */
  function NotificationPanel(st: LayoutState): (r: Option<Notifications.Panel>)
    ensures r.Some? <==> CurrentScreen(st) == MainScreen && st.showNotifications
    ensures r.Some? ==> r == Notifications.Compose(true, st.threats)
  {
    if CurrentScreen(st) == MainScreen then Notifications.Compose(st.showNotifications, st.threats) else None
  }

  /**
   The open drop-down previews the four newest streamed threats: after any stream its first
   threat entry is the latest arrival.
   */
  lemma {:induction false} PanelShowsNewestThreat(st: LayoutState, ts: seq<Threat>)
    requires |st.threats| <= FeedCap && |ts| > 0 && st.showNotifications
    requires CurrentScreen(st) == MainScreen
    ensures var after := st.(threats := Feed.PushAll(st.threats, ts, FeedCap));
      && NotificationPanel(after).Some?
      && NotificationPanel(after).value.items[1] == Notifications.ThreatEntry(ts[|ts| - 1])
  {
    Feed.PushAllBounded(st.threats, ts, FeedCap);
  }

  /** With no session, a blank submit leaves the login screen up and the service untouched. */
  lemma BlankSubmitStaysOnLogin(service: CyborgDB.ServiceState, username: string, userKey: string, entryKey: string)
    requires service.currentUser == None && IsBlank(username)
    ensures var (st, sv) := SubmitLogin(Mount(service), service, username, userKey, entryKey);
      CurrentScreen(st) == LoginScreen && sv == service
  {
  }

  /**
   A whole session: login, finishing the wizard, then logout, goes through the onboarding,
   main and login screens, with shell and service in agreement at every step.
   */
  lemma SessionWalksThroughScreens(
    service: CyborgDB.ServiceState, username: string, userKey: string, entryKey: string
  )
    requires !IsBlank(username)
    ensures var st0 := Mount(service);
      var (st1, sv1) := SubmitLogin(st0, service, username, userKey, entryKey);
      var st2 := CompleteOnboarding(st1);
      var (st3, sv3) := HandleLogout(st2, sv1);
      && CurrentScreen(st1) == OnboardingScreen
      && CurrentScreen(st2) == MainScreen && InSync(st2, sv1)
      && CurrentScreen(st3) == LoginScreen && InSync(st3, sv3)
      && |sv3.history| == |service.history| + 1
  {
  }
}
