/** The app shell: which of the loading spinner, onboarding, welcome screen
    or application is shown (src/components/layout/app-content-controller.tsx). */
module AppContentController {
  import opened ClientStateProvider

  datatype DisplayState = Loading | Onboarding | Welcome | App

  /** `['/login', '/signup'].includes(pathname)` */
  predicate IsAuthPath(pathname: string) {
    pathname == "/login" || pathname == "/signup"
  }

  /** The `displayState` memo. */
  function DisplayStateOf(isClient: bool, authLoading: bool, pathname: string, hasUser: bool,
                          onboardingComplete: bool, welcomeShown: bool): (d: DisplayState)
    ensures d == Loading <==> !isClient || authLoading
    ensures d == Onboarding <==>
      isClient && !authLoading && !IsAuthPath(pathname) && hasUser && !onboardingComplete
    ensures d == Welcome <==>
      isClient && !authLoading && !IsAuthPath(pathname) && hasUser && onboardingComplete && !welcomeShown
  {
    if !isClient || authLoading then Loading
    else if IsAuthPath(pathname) then App
    else if hasUser && !onboardingComplete then Onboarding
    else if hasUser && onboardingComplete && !welcomeShown then Welcome
    else App
  }

  /** Once loaded, the login and signup pages are always in state `App`. */
  lemma AuthPathIsApp(pathname: string, hasUser: bool, onboardingComplete: bool, welcomeShown: bool)
    requires IsAuthPath(pathname)
    ensures DisplayStateOf(true, false, pathname, hasUser, onboardingComplete, welcomeShown) == App
  {
  }

  /** Without a user the flags do not matter: the state is `App` once loaded. */
  lemma NoUserIsApp(pathname: string, onboardingComplete: bool, welcomeShown: bool)
    ensures DisplayStateOf(true, false, pathname, false, onboardingComplete, welcomeShown) == App
  {
  }

  /** What the controller renders. */
  datatype ShellView = BareChildren | Spinner | OnboardingModal | WelcomeDisplay | AppLayout

  /** The render: auth paths bypass every state; otherwise one view per state. */
  function Render(pathname: string, d: DisplayState): (v: ShellView)
    ensures IsAuthPath(pathname) <==> v == BareChildren
    ensures !IsAuthPath(pathname) ==>
      (v == Spinner <==> d == Loading) && (v == OnboardingModal <==> d == Onboarding)
      && (v == WelcomeDisplay <==> d == Welcome) && (v == AppLayout <==> d == App)
  {
    if IsAuthPath(pathname) then BareChildren
    else match d
      case Loading => Spinner
      case Onboarding => OnboardingModal
      case Welcome => WelcomeDisplay
      case App => AppLayout
  }

  /** Position of a state in the signed-in user's progression. */
  function Rank(d: DisplayState): nat {
    match d
    case Loading => 0
    case Onboarding => 1
    case Welcome => 2
    case App => 3
  }

  /** The handlers only ever raise the two flags. */
  datatype ShellEvent = CloseOnboarding | CompleteWelcome

  datatype Flags = Flags(onboardingComplete: bool, welcomeShown: bool)

  function Step(f: Flags, e: ShellEvent): Flags {
    match e
    case CloseOnboarding => f.(onboardingComplete := true)
    case CompleteWelcome => f.(welcomeShown := true)
  }

  /** The flags after each prefix of a sequence of events, starting with `f`. */
  function Trace(f: Flags, es: seq<ShellEvent>): (t: seq<Flags>)
    ensures |t| == |es| + 1 && t[0] == f
    ensures forall i :: 0 < i < |t| ==> t[i] == Step(t[i - 1], es[i - 1])
    decreases |es|
  {
    if es == [] then [f]
    else [f] + Trace(Step(f, es[0]), es[1..])
  }

  function StateOf(pathname: string, hasUser: bool, f: Flags): DisplayState {
    DisplayStateOf(true, false, pathname, hasUser, f.onboardingComplete, f.welcomeShown)
  }

  /** Along any sequence of handler calls, for a fixed loaded user and path,
      the state moves onboarding, then welcome, then app, and never back. */
  lemma {:induction false} TraceNeverGoesBack(pathname: string, hasUser: bool, f: Flags,
                                               es: seq<ShellEvent>, i: nat, j: nat)
    requires i <= j <= |es|
    ensures Rank(StateOf(pathname, hasUser, Trace(f, es)[i]))
         <= Rank(StateOf(pathname, hasUser, Trace(f, es)[j]))
  {
    var t := Trace(f, es);
    if i < j {
      TraceNeverGoesBack(pathname, hasUser, f, es, i, j - 1);
      var a, b := t[j - 1], t[j];
      assert b == Step(a, es[j - 1]);
      assert a.onboardingComplete ==> b.onboardingComplete;
      assert a.welcomeShown ==> b.welcomeShown;
    }
  }

  /** `handleOnboardingClose`: onboarding is complete and persisted as
      "true" under its key, every other local key kept; the welcome flag and
      session storage are untouched. */
  method HandleOnboardingClose(cs: ClientState)
    modifies cs
    ensures cs.onboardingComplete && StoredFlag(cs.localStorage, OnboardingKey)
    ensures cs.localStorage == old(cs.localStorage)[OnboardingKey := "true"]
    ensures cs.isClient == old(cs.isClient) && cs.welcomeShownThisSession == old(cs.welcomeShownThisSession)
    ensures cs.sessionStorage == old(cs.sessionStorage)
  {
    cs.SetOnboardingComplete(true);
  }

  /** `handleWelcomeComplete`: the welcome is marked shown for this session,
      stored as "true" under its key with every other session key kept. */
  method HandleWelcomeComplete(cs: ClientState)
    modifies cs
    ensures cs.welcomeShownThisSession && StoredFlag(cs.sessionStorage, WelcomeKey)
    ensures cs.sessionStorage == old(cs.sessionStorage)[WelcomeKey := "true"]
    ensures cs.isClient == old(cs.isClient) && cs.onboardingComplete == old(cs.onboardingComplete)
    ensures cs.localStorage == old(cs.localStorage)
  {
    cs.SetWelcomeShownThisSession(true);
  }
}
