/**
 * The session store: the signed-in user, the initial loading flag, the
 * sign-up cooldown and the copy of the user kept in browser storage under
 * the key `userData`.
 *
 * Every call into the hosted auth and profile backend is a parameter that
 * says how that call came out, so each handler becomes a deterministic
 * transition of the store.
 */
module AuthContext {
  import opened Types
  import Text

  /** The backend's user record (`session.user`, `data.user`). */
  datatype AuthUser = AuthUser(id: string, email: string)

  /**
   * What the two lookups inside `setUserData` produced: the profile row's
   * stored key (`None` for a missing row or a null column) and the session's
   * access token; or one of them threw.
   */
  datatype ProfileLookup = Looked(storedKey: Option<string>, accessToken: Option<string>) | LookupThrew

  /** What `getCurrentSession()` gave the start-up check. */
  datatype SessionProbe = SessionUser(user: AuthUser) | NoSessionUser | ProbeThrew

  /** The answer to `signInWithPassword`: data, a returned error, or a throw. */
  datatype SignInOutcome = SignInData(user: Option<AuthUser>) | SignInError(message: string) | SignInThrew

  /** The answer to `auth.signUp`. */
  datatype SignUpOutcome = SignUpData(user: Option<AuthUser>) | SignUpError(message: string) | SignUpThrew(thrown: Thrown)

  /** The answer to `auth.signOut`. */
  datatype SignOutOutcome = SignOutOk | SignOutError(message: string) | SignOutThrew(thrown: Thrown)

  /** The answer to the profile update: success, or the error it returned (or threw). */
  datatype UpdateOutcome = UpdateOk | UpdateFailed(thrown: Thrown)

  const CooldownSeconds: nat := 60
  const CooldownMillis: nat := 60000
  const NotAuthenticated := "User not authenticated"
  const UnexpectedSignInError := "An unexpected error occurred"
  const UpdateKeyFallback := "Failed to update API key"
  const RateLimitMarker := "rate_limit"

  /** The error thrown by a sign-up attempt during the cooldown. */
  function CooldownMessage(timer: nat): string
  {
    "Please wait " + Text.NatToDecimal(timer) + " seconds before trying again"
  }

  /** While the cooldown runs the timer always reads 60, so the message is fixed. */
  lemma CooldownMessageDuringCooldown()
    ensures CooldownMessage(CooldownSeconds) == "Please wait " + "60" + " seconds before trying again"
  {
    assert Text.DigitChar(6) == '6' && Text.DigitChar(0) == '0';
    assert Text.NatToDecimal(60) == [Text.DigitChar(6)] + [Text.DigitChar(0)];
  }

  /**
   * The user record `setUserData` builds from the backend user and the
   * lookups; `None` when a lookup threw. A missing or empty stored key
   * becomes the absent sentinel (`profile?.gemini_api_key || null`), so a
   * record built here never holds the empty key.
   */
  function BuildUserData(su: AuthUser, lookup: ProfileLookup): (r: Option<User>)
    ensures r.None? <==> lookup.LookupThrew?
    ensures r.Some? ==> r.value.id == su.id && r.value.email == su.email && r.value.accessToken == lookup.accessToken
    ensures r.Some? ==> (r.value.geminiApiKey.None? <==> !Truthy(lookup.storedKey))
    ensures r.Some? && r.value.geminiApiKey.Some? ==> r.value.geminiApiKey == lookup.storedKey
    ensures r.Some? ==> r.value.geminiApiKey != Some("")
  {
    match lookup
    case LookupThrew => None
    case Looked(stored, token) =>
      Some(User(su.id, su.email, if Truthy(stored) then stored else None, token))
  }

  /** `{ ...user, geminiApiKey: apiKey }`: only the key changes. */
  function WithKey(u: User, apiKey: Option<string>): (r: User)
    ensures r.geminiApiKey == apiKey
    ensures r.id == u.id && r.email == u.email && r.accessToken == u.accessToken
  {
    u.(geminiApiKey := apiKey)
  }

  /** A sign-up error starts the cooldown exactly when its message mentions `rate_limit`. */
  predicate IsRateLimit(message: string)
  {
    Text.Contains(message, RateLimitMarker)
  }

  class SessionStore {
    var user: Option<User>
    var loading: bool
    var isSignUpDisabled: bool
    var signUpTimer: nat
    /** The `userData` entry of browser storage. */
    var storedUserData: Option<User>

    /**
     * The cooldown invariant: the timer reads 60 while sign-up is disabled
     * and 0 otherwise. Nothing counts it down; only the 60000 ms expiry
     * resets it.
     */
    predicate Valid()
      reads this
    {
      signUpTimer == (if isSignUpDisabled then CooldownSeconds else 0)
    }

    /** The storage copy agrees with the in-memory user. */
    predicate Mirrored()
      reads this
    {
      storedUserData == user
    }

    /** A fresh provider: no user, still loading, no cooldown; storage holds whatever an earlier visit left. */
    constructor (persisted: Option<User>)
      ensures Valid()
      ensures user == None && loading && !isSignUpDisabled && storedUserData == persisted
    {
      user := None;
      loading := true;
      isSignUpDisabled := false;
      signUpTimer := 0;
      storedUserData := persisted;
    }

    /**
     * `setUserData`: on success the built record becomes the user and is
     * written to storage; any failure clears both. It never throws.
     */
    method SetUserData(su: AuthUser, lookup: ProfileLookup)
      modifies this`user, this`storedUserData
      ensures user == BuildUserData(su, lookup)
      ensures Mirrored()
    {
      user := BuildUserData(su, lookup);
      storedUserData := user;
    }

    /**
     * The start-up check: a session with a user loads that user's data; no
     * session or a throw leaves the user alone. Loading ends in every case.
     */
    method InitAuth(probe: SessionProbe, lookup: ProfileLookup)
      modifies this`user, this`storedUserData, this`loading
      ensures !loading
      ensures probe.SessionUser? ==> user == BuildUserData(probe.user, lookup) && Mirrored()
      ensures !probe.SessionUser? ==> user == old(user) && storedUserData == old(storedUserData)
    {
      if probe.SessionUser? {
        SetUserData(probe.user, lookup);
      }
      loading := false;
    }

    /**
     * The auth-state listener: an event with a session user reloads that
     * user's data; an event without one clears the user and the storage copy.
     */
    method OnAuthStateChange(sessionUser: Option<AuthUser>, lookup: ProfileLookup)
      modifies this`user, this`storedUserData
      ensures sessionUser.Some? ==> user == BuildUserData(sessionUser.value, lookup)
      ensures sessionUser.None? ==> user == None
      ensures Mirrored()
    {
      if sessionUser.Some? {
        SetUserData(sessionUser.value, lookup);
      } else {
        user := None;
        storedUserData := None;
      }
    }

    /**
     * The visibility listener: when the page becomes visible and the backend
     * still reports a user, that user's data is reloaded; otherwise nothing
     * happens (a user that disappeared is not cleared here).
     */
    method OnVisibilityChange(visible: bool, currentUser: Option<AuthUser>, lookup: ProfileLookup)
      modifies this`user, this`storedUserData
      ensures visible && currentUser.Some? ==> user == BuildUserData(currentUser.value, lookup) && Mirrored()
      ensures !(visible && currentUser.Some?) ==> user == old(user) && storedUserData == old(storedUserData)
    {
      if visible && currentUser.Some? {
        SetUserData(currentUser.value, lookup);
      }
    }

    /**
     * `signIn`: a returned backend error comes back as `{ error: message }`
     * and a throw as the fixed unexpected-error text, both with the user
     * untouched. Success with a user loads that user's data and reports no
     * error, even when the profile lookup failed and cleared the user. The
     * promise never rejects.
     */
    method SignIn(outcome: SignInOutcome, lookup: ProfileLookup) returns (error: Option<string>)
      modifies this`user, this`storedUserData
      ensures outcome.SignInError? ==> error == Some(outcome.message)
      ensures outcome.SignInThrew? ==> error == Some(UnexpectedSignInError)
      ensures outcome.SignInData? ==> error == None
      ensures outcome.SignInData? && outcome.user.Some? ==> user == BuildUserData(outcome.user.value, lookup) && Mirrored()
      ensures !(outcome.SignInData? && outcome.user.Some?) ==> user == old(user) && storedUserData == old(storedUserData)
    {
      match outcome
      case SignInError(message) =>
        error := Some(message);
      case SignInThrew =>
        error := Some(UnexpectedSignInError);
      case SignInData(u) =>
        if u.Some? {
          SetUserData(u.value, lookup);
        }
        error := None;
    }

    /**
     * `signUp`: during the cooldown it rejects with the wait message and
     * never reaches the backend. Otherwise every backend error is rethrown;
     * one whose message mentions `rate_limit` first starts the cooldown
     * (disabled, timer 60), any other leaves the cooldown as it was. Success
     * with a user loads that user's data.
     */
    method SignUp(outcome: SignUpOutcome, lookup: ProfileLookup) returns (r: Settled)
      requires Valid()
      modifies this`user, this`storedUserData, this`isSignUpDisabled, this`signUpTimer
      ensures Valid()
      ensures old(isSignUpDisabled) ==>
        && r == Rejected(ErrorInstance(CooldownMessage(old(signUpTimer))))
        && isSignUpDisabled && user == old(user) && storedUserData == old(storedUserData)
      ensures !old(isSignUpDisabled) && outcome.SignUpError? ==>
        && r == Rejected(ErrorInstance(outcome.message))
        && isSignUpDisabled == IsRateLimit(outcome.message)
        && user == old(user) && storedUserData == old(storedUserData)
      ensures !old(isSignUpDisabled) && outcome.SignUpThrew? ==>
        && r == Rejected(outcome.thrown)
        && !isSignUpDisabled && user == old(user) && storedUserData == old(storedUserData)
      ensures !old(isSignUpDisabled) && outcome.SignUpData? ==>
        && r == Resolved && !isSignUpDisabled
        && (outcome.user.Some? ==> user == BuildUserData(outcome.user.value, lookup) && Mirrored())
        && (outcome.user.None? ==> user == old(user) && storedUserData == old(storedUserData))
    {
      if isSignUpDisabled {
        return Rejected(ErrorInstance(CooldownMessage(signUpTimer)));
      }
      match outcome
      case SignUpError(message) =>
        if IsRateLimit(message) {
          isSignUpDisabled := true;
          signUpTimer := CooldownSeconds;
        }
        r := Rejected(ErrorInstance(message));
      case SignUpThrew(thrown) =>
        r := Rejected(thrown);
      case SignUpData(u) =>
        if u.Some? {
          SetUserData(u.value, lookup);
        }
        r := Resolved;
    }

    /** The 60000 ms timer started by a rate-limited sign-up: it ends the cooldown. */
    method SignUpCooldownElapsed()
      modifies this`isSignUpDisabled, this`signUpTimer
      ensures Valid() && !isSignUpDisabled
    {
      isSignUpDisabled := false;
      signUpTimer := 0;
    }

    /**
     * `signOut`: the user and the storage copy are cleared only after the
     * backend succeeds; a backend error is rethrown with both untouched.
     */
    method SignOut(outcome: SignOutOutcome) returns (r: Settled)
      modifies this`user, this`storedUserData
      ensures outcome.SignOutOk? ==> r == Resolved && user == None && Mirrored()
      ensures outcome.SignOutError? ==> r == Rejected(ErrorInstance(outcome.message))
      ensures outcome.SignOutThrew? ==> r == Rejected(outcome.thrown)
      ensures !outcome.SignOutOk? ==> user == old(user) && storedUserData == old(storedUserData)
    {
      match outcome
      case SignOutOk =>
        user := None;
        storedUserData := None;
        r := Resolved;
      case SignOutError(message) =>
        r := Rejected(ErrorInstance(message));
      case SignOutThrew(thrown) =>
        r := Rejected(thrown);
    }

    /**
     * `updateGeminiApiKey`: without a user it reports "User not
     * authenticated" and changes nothing. A successful update changes only
     * the key of the user (id, email and access token kept) and writes the
     * same record to storage; a failed one reports the error's message (or
     * the fallback text) with user and storage untouched. It never rejects.
     */
    method UpdateGeminiApiKey(apiKey: Option<string>, outcome: UpdateOutcome) returns (error: Option<string>)
      modifies this`user, this`storedUserData
      ensures old(user).None? ==> error == Some(NotAuthenticated) && user == None && storedUserData == old(storedUserData)
      ensures old(user).Some? && outcome.UpdateOk? ==>
        error == None && user == Some(WithKey(old(user).value, apiKey)) && Mirrored()
      ensures old(user).Some? && outcome.UpdateFailed? ==>
        && error == Some(MessageOr(outcome.thrown, UpdateKeyFallback))
        && user == old(user) && storedUserData == old(storedUserData)
    {
      if user.None? {
        return Some(NotAuthenticated);
      }
      match outcome
      case UpdateFailed(thrown) =>
        error := Some(MessageOr(thrown, UpdateKeyFallback));
      case UpdateOk =>
        var updated := WithKey(user.value, apiKey);
        user := Some(updated);
        storedUserData := Some(updated);
        error := None;
    }
  }
}
