/**
 * The sign-in / sign-up dialog: it clears its error, awaits the chosen
 * operation of the session store, asks its parent to close when the await
 * completes and shows the message of a rejection otherwise.
 */
module LoginModal {
  import opened Types
  import opened AuthContext

  const ErrorFallback := "An error occurred"

  class Modal {
    var isSignUp: bool
    /** The message shown above the form; "" shows nothing. */
    var error: string
    /** How many times `onClose` was called. */
    var closeRequests: nat

    constructor ()
      ensures !isSignUp && error == "" && closeRequests == 0
    {
      isSignUp := false;
      error := "";
      closeRequests := 0;
    }

    /** The "Sign up" / "Sign in" link flips the mode and keeps the error. */
    method ToggleMode()
      modifies this`isSignUp
      ensures isSignUp == !old(isSignUp)
    {
      isSignUp := !isSignUp;
    }

    /**
     * `handleSubmit`, as written. In sign-up mode a rejection is shown (its
     * message, or the fallback text for a non-`Error` value) and the dialog
     * stays; a resolved sign-up closes it. In sign-in mode the store never
     * rejects, so the dialog closes with no error shown, even when the store
     * reported a failed sign-in.
     */
    method HandleSubmit(auth: SessionStore, signIn: SignInOutcome, signUp: SignUpOutcome, lookup: ProfileLookup)
      requires auth.Valid()
      modifies this`error, this`closeRequests, auth`user, auth`storedUserData, auth`isSignUpDisabled, auth`signUpTimer
      ensures auth.Valid()
      ensures !isSignUp ==> error == "" && closeRequests == old(closeRequests) + 1
      ensures !isSignUp ==> auth.isSignUpDisabled == old(auth.isSignUpDisabled) && auth.signUpTimer == old(auth.signUpTimer)
      ensures !isSignUp && signIn.SignInData? && signIn.user.Some? ==>
        auth.user == BuildUserData(signIn.user.value, lookup) && auth.Mirrored()
      ensures !isSignUp && !(signIn.SignInData? && signIn.user.Some?) ==>
        auth.user == old(auth.user) && auth.storedUserData == old(auth.storedUserData)
      ensures isSignUp && old(auth.isSignUpDisabled) ==>
        auth.isSignUpDisabled && auth.user == old(auth.user) && auth.storedUserData == old(auth.storedUserData)
      ensures isSignUp && !old(auth.isSignUpDisabled) && signUp.SignUpError? ==>
        && auth.isSignUpDisabled == IsRateLimit(signUp.message)
        && auth.user == old(auth.user) && auth.storedUserData == old(auth.storedUserData)
      ensures isSignUp && !old(auth.isSignUpDisabled) && signUp.SignUpThrew? ==>
        !auth.isSignUpDisabled && auth.user == old(auth.user) && auth.storedUserData == old(auth.storedUserData)
      ensures isSignUp && !old(auth.isSignUpDisabled) && signUp.SignUpData? ==>
        && !auth.isSignUpDisabled
        && (signUp.user.Some? ==> auth.user == BuildUserData(signUp.user.value, lookup) && auth.Mirrored())
        && (signUp.user.None? ==> auth.user == old(auth.user) && auth.storedUserData == old(auth.storedUserData))
      ensures isSignUp ==>
        var expected := if old(auth.isSignUpDisabled) then Rejected(ErrorInstance(CooldownMessage(old(auth.signUpTimer))))
                        else if signUp.SignUpError? then Rejected(ErrorInstance(signUp.message))
                        else if signUp.SignUpThrew? then Rejected(signUp.thrown)
                        else Resolved;
        && (expected.Rejected? ==> error == MessageOr(expected.thrown, ErrorFallback) && closeRequests == old(closeRequests))
        && (expected.Resolved? ==> error == "" && closeRequests == old(closeRequests) + 1)
    {
      error := "";
      if isSignUp {
        var r := auth.SignUp(signUp, lookup);
        match r {
          case Resolved =>
            closeRequests := closeRequests + 1;
          case Rejected(t) =>
            error := MessageOr(t, ErrorFallback);
        }
      } else {
        var _ := auth.SignIn(signIn, lookup);
        closeRequests := closeRequests + 1;
      }
    }

    /**
     * The intended sign-in handling: the error the store reports is shown
     * and the dialog stays open; only a sign-in without error closes it.
     */
    method HandleSignInCheckingResult(auth: SessionStore, signIn: SignInOutcome, lookup: ProfileLookup)
      requires !isSignUp
      modifies this`error, this`closeRequests, auth`user, auth`storedUserData
      ensures signIn.SignInError? ==> error == signIn.message && closeRequests == old(closeRequests)
      ensures signIn.SignInThrew? ==> error == UnexpectedSignInError && closeRequests == old(closeRequests)
      ensures signIn.SignInData? ==> error == "" && closeRequests == old(closeRequests) + 1
      ensures signIn.SignInData? && signIn.user.Some? ==> auth.user == BuildUserData(signIn.user.value, lookup) && auth.Mirrored()
      ensures !(signIn.SignInData? && signIn.user.Some?) ==>
        auth.user == old(auth.user) && auth.storedUserData == old(auth.storedUserData)
    {
      error := "";
      var reported := auth.SignIn(signIn, lookup);
      match reported {
        case Some(message) =>
          error := message;
        case None =>
          closeRequests := closeRequests + 1;
      }
    }
  }

  /** What the person at the dialog sees after one submit. */
  datatype Outcome = Outcome(closed: bool, shownError: string, signedIn: bool)

  /**
   * A sign-in with wrong credentials, as written: the backend answers with
   * an error, yet the dialog closes, shows nothing and nobody is signed in.
   */
  method FailedSignInAsWritten() returns (o: Outcome)
    ensures o.closed && o.shownError == "" && !o.signedIn
  {
    var auth := new SessionStore(None);
    var modal := new Modal();
    modal.HandleSubmit(auth, SignInError("Invalid login credentials"), SignUpData(None), LookupThrew);
    o := Outcome(modal.closeRequests > 0, modal.error, auth.user.Some?);
  }

  /** The same sign-in with the intended handling: the dialog stays open and shows the backend's message. */
  method FailedSignInCorrected() returns (o: Outcome)
    ensures !o.closed && o.shownError == "Invalid login credentials" && !o.signedIn
  {
    var auth := new SessionStore(None);
    var modal := new Modal();
    modal.HandleSignInCheckingResult(auth, SignInError("Invalid login credentials"), LookupThrew);
    o := Outcome(modal.closeRequests > 0, modal.error, auth.user.Some?);
  }
}
