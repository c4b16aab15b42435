/**
 * The key dialog: it pre-fills the field with the user's key, saves the
 * trimmed field through the session store, shows "saved" and closes itself
 * 1500 ms later.
 */
module ApiKeyModal {
  import opened Types
  import Text
  import opened AuthContext

  const SaveFallback := "Failed to save API key"
  const CloseDelayMillis: nat := 1500

  class Modal {
    var apiKey: string
    /** The message shown above the form; "" shows nothing. */
    var error: string
    var isLoading: bool
    /** Whether "API key saved successfully!" is shown. */
    var success: bool
    /** Close timers scheduled by saves and not yet fired. */
    var pendingCloseTimers: nat
    /** How many times `onClose` was called. */
    var closeRequests: nat

    constructor ()
      ensures apiKey == "" && error == "" && !isLoading && !success
      ensures pendingCloseTimers == 0 && closeRequests == 0
    {
      apiKey := "";
      error := "";
      isLoading := false;
      success := false;
      pendingCloseTimers := 0;
      closeRequests := 0;
    }

    /** The effect on `[isOpen, user]`: an open dialog shows the user's key when there is one; otherwise the field is kept. */
    method Prefill(isOpen: bool, user: Option<User>)
      modifies this`apiKey
      ensures isOpen && HasKey(user) ==> apiKey == user.value.geminiApiKey.value
      ensures !(isOpen && HasKey(user)) ==> apiKey == old(apiKey)
    {
      if isOpen && user.Some? && Truthy(user.value.geminiApiKey) {
        apiKey := user.value.geminiApiKey.value;
      }
    }

    /** The field's `onChange`. */
    method ChangeKey(value: string)
      modifies this`apiKey
      ensures apiKey == value
    {
      apiKey := value;
    }

    /**
     * `handleSubmit`, as written: the trimmed field is handed to the store.
     * The store reports failures instead of rejecting, so the dialog always
     * shows success, no error, and schedules its close, even when nothing
     * was saved (no user, or a failed update).
     */
    method HandleSubmit(auth: SessionStore, outcome: UpdateOutcome)
      modifies this`error, this`isLoading, this`success, this`pendingCloseTimers, auth`user, auth`storedUserData
      ensures success && error == "" && !isLoading
      ensures pendingCloseTimers == old(pendingCloseTimers) + 1
      ensures old(auth.user).Some? && outcome.UpdateOk? ==>
        auth.user == Some(WithKey(old(auth.user).value, Some(Text.Trim(old(apiKey))))) && auth.Mirrored()
      ensures !(old(auth.user).Some? && outcome.UpdateOk?) ==>
        auth.user == old(auth.user) && auth.storedUserData == old(auth.storedUserData)
    {
      error := "";
      success := false;
      isLoading := true;
      var _ := auth.UpdateGeminiApiKey(Some(Text.Trim(apiKey)), outcome);
      success := true;
      pendingCloseTimers := pendingCloseTimers + 1;
      isLoading := false;
    }

    /**
     * The intended handling: a failure the store reports is shown, with no
     * success message and no scheduled close; only a save that went through
     * shows success and schedules the close.
     */
    method HandleSubmitCheckingResult(auth: SessionStore, outcome: UpdateOutcome)
      modifies this`error, this`isLoading, this`success, this`pendingCloseTimers, auth`user, auth`storedUserData
      ensures !isLoading
      ensures old(auth.user).None? ==>
        error == NotAuthenticated && !success && pendingCloseTimers == old(pendingCloseTimers)
      ensures old(auth.user).Some? && outcome.UpdateFailed? ==>
        && error == MessageOr(outcome.thrown, UpdateKeyFallback) && !success
        && pendingCloseTimers == old(pendingCloseTimers)
      ensures old(auth.user).Some? && outcome.UpdateOk? ==>
        && error == "" && success && pendingCloseTimers == old(pendingCloseTimers) + 1
        && auth.user == Some(WithKey(old(auth.user).value, Some(Text.Trim(old(apiKey))))) && auth.Mirrored()
      ensures !(old(auth.user).Some? && outcome.UpdateOk?) ==>
        auth.user == old(auth.user) && auth.storedUserData == old(auth.storedUserData)
    {
      error := "";
      success := false;
      isLoading := true;
      var reported := auth.UpdateGeminiApiKey(Some(Text.Trim(apiKey)), outcome);
      match reported {
        case Some(message) =>
          error := message;
        case None =>
          success := true;
          pendingCloseTimers := pendingCloseTimers + 1;
      }
      isLoading := false;
    }

    /** A 1500 ms close timer fires: the dialog asks to close and hides the success message. */
    method CloseTimerFires()
      requires pendingCloseTimers > 0
      modifies this`success, this`pendingCloseTimers, this`closeRequests
      ensures !success && pendingCloseTimers == old(pendingCloseTimers) - 1
      ensures closeRequests == old(closeRequests) + 1
    {
      closeRequests := closeRequests + 1;
      success := false;
      pendingCloseTimers := pendingCloseTimers - 1;
    }
  }

  /**
   * A successful save by a signed-in user without a key: the key is stored,
   * and the dialog's only signal to its parent is one `onClose`, 1500 ms
   * later; it has no way to report the success itself.
   */
  method SuccessfulSaveOnlyCloses(key: string) returns (keySaved: bool, closeRequests: nat)
    requires !Text.IsBlank(key)
    ensures keySaved && closeRequests == 1
  {
    var auth := new SessionStore(None);
    auth.OnAuthStateChange(Some(AuthUser("u", "e")), Looked(None, None));
    var modal := new Modal();
    modal.ChangeKey(key);
    modal.HandleSubmit(auth, UpdateOk);
    keySaved := HasKey(auth.user);
    modal.CloseTimerFires();
    closeRequests := modal.closeRequests;
  }

  /** What the person at the dialog sees after one save. */
  datatype Outcome = Outcome(shownSuccess: bool, shownError: string, keySaved: bool)

  /**
   * A save that the backend refuses, as written: the dialog announces
   * success and shows no error, although the user still has no key.
   */
  method FailedSaveAsWritten() returns (o: Outcome)
    ensures o.shownSuccess && o.shownError == "" && !o.keySaved
  {
    var auth := new SessionStore(None);
    auth.OnAuthStateChange(Some(AuthUser("u", "e")), Looked(None, None));
    var modal := new Modal();
    modal.ChangeKey("  AIza-key ");
    modal.HandleSubmit(auth, UpdateFailed(ErrorInstance("permission denied")));
    o := Outcome(modal.success, modal.error, HasKey(auth.user));
  }

  /** The same save with the intended handling: the refusal is shown and no success is claimed. */
  method FailedSaveCorrected() returns (o: Outcome)
    ensures !o.shownSuccess && o.shownError == "permission denied" && !o.keySaved
  {
    var auth := new SessionStore(None);
    auth.OnAuthStateChange(Some(AuthUser("u", "e")), Looked(None, None));
    var modal := new Modal();
    modal.ChangeKey("  AIza-key ");
    modal.HandleSubmitCheckingResult(auth, UpdateFailed(ErrorInstance("permission denied")));
    o := Outcome(modal.success, modal.error, HasKey(auth.user));
  }
}
