/** The client-state context: three flags, two of them persisted in the
    browser's local and session storage (src/contexts/client-state-provider.tsx). */
module ClientStateProvider {
  import opened Common

  const OnboardingKey := "onboardingComplete"
  const WelcomeKey := "welcomeDisplayShown"
  const OutsideProviderMessage := "useClientState must be used within a ClientStateProvider"

  /** `String(status)` for a boolean: the text is "true" exactly for `true`. */
  function BoolString(b: bool): (r: string)
    ensures r == "true" <==> b
    ensures r != ""
  {
    if b then "true" else "false"
  }

  /** `storage.getItem(key) === 'true'`: only the exact text "true" reads as set. */
  function StoredFlag(storage: map<string, string>, key: string): bool {
    key in storage && storage[key] == "true"
  }

  /** Storing `String(status)` and reading the flag back yields `status`. */
  lemma StoredFlagRoundTrip(storage: map<string, string>, key: string, status: bool)
    ensures StoredFlag(storage[key := BoolString(status)], key) == status
  {
    if !status {
      assert BoolString(status)[0] != "true"[0];
    }
  }

  /** Writing one key leaves every other stored flag as it was. */
  lemma StoredFlagOtherKey(storage: map<string, string>, key: string, other: string, v: string)
    requires other != key
    ensures StoredFlag(storage[key := v], other) == StoredFlag(storage, other)
  {
  }

  /** The value the provider hands to its consumers. */
  datatype ClientStateValue = ClientStateValue(isClient: bool, onboardingComplete: bool,
                                               welcomeShownThisSession: bool)

  /** `useClientState()`: the context value, or the error thrown outside a provider. */
  function UseClientState(context: Option<ClientStateValue>): (r: Result<ClientStateValue>)
    ensures context.None? <==> r.Err?
    ensures r.Err? ==> r.error == ErrorValue(OutsideProviderMessage)
    ensures context.Some? ==> r == Ok(context.value)
  {
    match context
    case None => Err(ErrorValue(OutsideProviderMessage))
    case Some(v) => Ok(v)
  }

  /** The provider's state together with the two storages it writes. */
  class ClientState {
    var isClient: bool
    var onboardingComplete: bool
    var welcomeShownThisSession: bool
    var localStorage: map<string, string>
    var sessionStorage: map<string, string>

    function Value(): ClientStateValue
      reads this
    {
      ClientStateValue(isClient, onboardingComplete, welcomeShownThisSession)
    }

    /** Before mount every flag is false; the storages are whatever the browser holds. */
    constructor (local: map<string, string>, session: map<string, string>)
      ensures !isClient && !onboardingComplete && !welcomeShownThisSession
      ensures localStorage == local && sessionStorage == session
    {
      isClient := false;
      onboardingComplete := false;
      welcomeShownThisSession := false;
      localStorage := local;
      sessionStorage := session;
    }

    /** The mount effect: mark the client and load both flags from storage. */
    method Mount()
      modifies this
      ensures isClient
      ensures onboardingComplete == StoredFlag(localStorage, OnboardingKey)
      ensures welcomeShownThisSession == StoredFlag(sessionStorage, WelcomeKey)
      ensures localStorage == old(localStorage) && sessionStorage == old(sessionStorage)
    {
      isClient := true;
      onboardingComplete := StoredFlag(localStorage, OnboardingKey);
      welcomeShownThisSession := StoredFlag(sessionStorage, WelcomeKey);
    }

    /** `setOnboardingComplete(status)`: the state and local storage, nothing else. */
    method SetOnboardingComplete(status: bool)
      modifies this
      ensures onboardingComplete == status
      ensures localStorage == old(localStorage)[OnboardingKey := BoolString(status)]
      ensures StoredFlag(localStorage, OnboardingKey) == status
      ensures isClient == old(isClient) && welcomeShownThisSession == old(welcomeShownThisSession)
      ensures sessionStorage == old(sessionStorage)
    {
      onboardingComplete := status;
      localStorage := localStorage[OnboardingKey := BoolString(status)];
      StoredFlagRoundTrip(old(localStorage), OnboardingKey, status);
    }

    /** `setWelcomeShownThisSession(status)`: the state and session storage only. */
    method SetWelcomeShownThisSession(status: bool)
      modifies this
      ensures welcomeShownThisSession == status
      ensures sessionStorage == old(sessionStorage)[WelcomeKey := BoolString(status)]
      ensures StoredFlag(sessionStorage, WelcomeKey) == status
      ensures isClient == old(isClient) && onboardingComplete == old(onboardingComplete)
      ensures localStorage == old(localStorage)
    {
      welcomeShownThisSession := status;
      sessionStorage := sessionStorage[WelcomeKey := BoolString(status)];
      StoredFlagRoundTrip(old(sessionStorage), WelcomeKey, status);
    }
  }
}
