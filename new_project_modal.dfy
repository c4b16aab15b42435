/**
 * The "new project" dialog: it routes a visitor without a session to the
 * sign-in dialog and a user without a key to the key dialog, and otherwise
 * creates a project from a non-blank title, navigates to the chat and asks
 * its parent to close.
 *
 * `isOpen` is the parent's flag: `onClose` clears it. The project store's
 * `createNewProject` is the closure of the render that saw `snap`.
 */
module NewProjectModal {
  import opened Types
  import Text
  import opened ProjectContext
  import AuthContext
  import ApiKeyModal

  /** Which dialog is on screen: the sign-in dialog takes precedence over the key dialog, and both over the form. */
  datatype Screen = Hidden | LoginScreen | ApiKeyScreen | FormScreen

  /**
   * The "Create Project" button's `disabled={!title.trim()}`, and the guard
   * of the creation step: the title is blank. (That the trimmed text is
   * empty exactly when the text is blank is `Text.Trim`'s contract;
   * `CreateDisabledIsEmptyTrim` states it for this predicate.)
   */
  predicate CreateDisabled(title: string)
  {
    Text.IsBlank(title)
  }

  /** The button's expression, `!title.trim()`, agrees with the predicate. */
  lemma CreateDisabledIsEmptyTrim(title: string)
    ensures CreateDisabled(title) <==> Text.Trim(title) == []
  {
  }

  class Modal {
    var isOpen: bool
    var title: string
    var description: string
    var showLoginModal: bool
    var showApiKeyModal: bool
    /** How many times `navigate('/chat')` was called. */
    var chatNavigations: nat

    constructor (isOpen: bool)
      ensures this.isOpen == isOpen && title == "" && description == ""
      ensures !showLoginModal && !showApiKeyModal && chatNavigations == 0
    {
      this.isOpen := isOpen;
      title := "";
      description := "";
      showLoginModal := false;
      showApiKeyModal := false;
      chatNavigations := 0;
    }

    /** What the component renders. */
    function Shown(): (s: Screen)
      reads this
      ensures s == Hidden <==> !isOpen
      ensures s == LoginScreen <==> isOpen && showLoginModal
      ensures s == ApiKeyScreen <==> isOpen && !showLoginModal && showApiKeyModal
    {
      if !isOpen then Hidden
      else if showLoginModal then LoginScreen
      else if showApiKeyModal then ApiKeyScreen
      else FormScreen
    }

    /** The effect on `[isOpen, user]`: an open dialog asks for a session first and for a key second. */
    method GateOnOpen(user: Option<User>)
      modifies this`showLoginModal, this`showApiKeyModal
      ensures isOpen && user.None? ==> showLoginModal && showApiKeyModal == old(showApiKeyModal)
      ensures isOpen && user.Some? && !HasKey(user) ==> showApiKeyModal && showLoginModal == old(showLoginModal)
      ensures !isOpen || HasKey(user) ==> showLoginModal == old(showLoginModal) && showApiKeyModal == old(showApiKeyModal)
    {
      if isOpen {
        if user.None? {
          showLoginModal := true;
        } else if !Truthy(user.value.geminiApiKey) {
          showApiKeyModal := true;
        }
      }
    }

    method SetTitle(value: string)
      modifies this`title
      ensures title == value
    {
      title := value;
    }

    method SetDescription(value: string)
      modifies this`description
      ensures description == value
    {
      description := value;
    }

    /**
     * `handleSubmit`: no user opens the sign-in dialog; no key opens the key
     * dialog; otherwise a non-blank title creates the project (from the
     * untrimmed title and description), navigates to the chat, closes and
     * resets the form. A blank title does nothing.
     */
    method HandleSubmit(store: ProjectStore, snap: ProjectState, user: Option<User>, id: string, now: Time)
      modifies this, store
      ensures user.None? ==>
        && showLoginModal && unchanged(store) && isOpen == old(isOpen)
        && chatNavigations == old(chatNavigations) && title == old(title) && description == old(description)
      ensures user.Some? && !HasKey(user) ==>
        && showApiKeyModal && unchanged(store) && isOpen == old(isOpen)
        && chatNavigations == old(chatNavigations) && title == old(title) && description == old(description)
      ensures HasKey(user) && !CreateDisabled(old(title)) ==>
        && store.State() == CreateOn(snap, user, old(title), old(description), id, now)
        && chatNavigations == old(chatNavigations) + 1 && !isOpen && title == "" && description == ""
      ensures HasKey(user) && CreateDisabled(old(title)) ==>
        && unchanged(store) && isOpen == old(isOpen)
        && chatNavigations == old(chatNavigations) && title == old(title) && description == old(description)
      ensures user.Some? ==> showLoginModal == old(showLoginModal)
      ensures user.None? || HasKey(user) ==> showApiKeyModal == old(showApiKeyModal)
    {
      if user.None? {
        showLoginModal := true;
        return;
      }
      if !Truthy(user.value.geminiApiKey) {
        showApiKeyModal := true;
        return;
      }
      if !CreateDisabled(title) {
        store.CreateNewProject(snap, user, title, description, id, now);
        chatNavigations := chatNavigations + 1;
        isOpen := false;
        title := "";
        description := "";
      }
    }

    /**
     * `handleLoginSuccess`: leave the sign-in dialog and ask for a key when
     * the user has none. (No dialog calls it: the sign-in dialog takes no
     * success callback.)
     */
    method HandleLoginSuccess(user: Option<User>)
      modifies this`showLoginModal, this`showApiKeyModal
      ensures !showLoginModal
      ensures showApiKeyModal == (old(showApiKeyModal) || !HasKey(user))
    {
      showLoginModal := false;
      if !HasKey(user) {
        showApiKeyModal := true;
      }
    }

    /**
     * `handleApiKeySuccess`: leave the key dialog and, with a non-blank
     * title, submit again with the user it is given. That submit creates
     * the project when the user has a key, and otherwise routes again: to
     * the sign-in dialog without a user, back to the key dialog without a
     * key.
     */
    method HandleApiKeySuccess(store: ProjectStore, snap: ProjectState, user: Option<User>, id: string, now: Time)
      modifies this, store
      ensures HasKey(user) && !CreateDisabled(old(title)) ==>
        && store.State() == CreateOn(snap, user, old(title), old(description), id, now)
        && chatNavigations == old(chatNavigations) + 1 && !isOpen && !showApiKeyModal
        && title == "" && description == "" && showLoginModal == old(showLoginModal)
      ensures !HasKey(user) && !CreateDisabled(old(title)) ==>
        && unchanged(store) && isOpen == old(isOpen) && chatNavigations == old(chatNavigations)
        && title == old(title) && description == old(description)
        && (user.None? ==> showLoginModal && !showApiKeyModal)
        && (user.Some? ==> showApiKeyModal && showLoginModal == old(showLoginModal))
      ensures CreateDisabled(old(title)) ==>
        && unchanged(store) && !showApiKeyModal && showLoginModal == old(showLoginModal)
        && isOpen == old(isOpen) && chatNavigations == old(chatNavigations)
        && title == old(title) && description == old(description)
    {
      showApiKeyModal := false;
      if !CreateDisabled(title) {
        HandleSubmit(store, snap, user, id, now);
      }
    }

    /**
     * The form's close button and its Cancel button: `onClose` only. The
     * typed title and description stay in the component's state.
     */
    method Cancel()
      modifies this`isOpen
      ensures !isOpen
    {
      isOpen := false;
    }

    /** The parent shows the dialog again (`isOpen` becomes true); the component's state is kept. */
    method Reopen()
      modifies this`isOpen
      ensures isOpen
    {
      isOpen := true;
    }

    /** The sign-in dialog's `onClose`: leave it and close the whole dialog. */
    method LoginDialogClosed()
      modifies this`showLoginModal, this`isOpen
      ensures !showLoginModal && !isOpen
    {
      showLoginModal := false;
      isOpen := false;
    }

    /** The key dialog's `onClose`: leave it and close the whole dialog. */
    method ApiKeyDialogClosed()
      modifies this`showApiKeyModal, this`isOpen
      ensures !showApiKeyModal && !isOpen
    {
      showApiKeyModal := false;
      isOpen := false;
    }
  }

  /** Where a "new project" attempt by a signed-in user without a key ends, after the key is saved. */
  datatype Outcome = Outcome(projectsCreated: nat, navigatedToChat: bool, screen: Screen)

  /**
   * How the key dialog can come up over a non-blank title: the user had a
   * key, opened the dialog, typed the title and cancelled; the key was
   * removed afterwards, and the dialog was opened again. The form is not on
   * screen; the key dialog is, and the title is still held.
   */
  method TitleLeftFromEarlierOpening(title: string, oldKey: string) returns (store: ProjectStore, modal: Modal, keyless: User)
    requires !CreateDisabled(title) && oldKey != ""
    ensures fresh(store) && fresh(modal)
    ensures store.projects == [] && modal.Shown() == ApiKeyScreen
    ensures modal.title == title && modal.description == "" && modal.chatNavigations == 0
    ensures !HasKey(Some(keyless))
  {
    store := new ProjectStore();
    modal := new Modal(true);
    var keyed := User("u", "e", Some(oldKey), None);
    modal.GateOnOpen(Some(keyed));
    assert modal.Shown() == FormScreen;
    modal.SetTitle(title);
    modal.Cancel();
    keyless := AuthContext.WithKey(keyed, None);
    modal.Reopen();
    modal.GateOnOpen(Some(keyless));
  }

  /**
   * As written: from there the key is saved. The key dialog takes no
   * success callback: its only signal is the delayed `onClose`
   * (`ApiKeyModal.SuccessfulSaveOnlyCloses`), which closes the whole
   * dialog. No project is created and the chat is never reached.
   */
  method KeySaveAsWritten(title: string, oldKey: string) returns (o: Outcome)
    requires !CreateDisabled(title) && oldKey != ""
    ensures o.projectsCreated == 0 && !o.navigatedToChat && o.screen == Hidden
  {
    var store, modal, _ := TitleLeftFromEarlierOpening(title, oldKey);
    modal.ApiKeyDialogClosed();
    o := Outcome(|store.projects|, modal.chatNavigations > 0, modal.Shown());
  }

  /**
   * Intended: the key dialog's success is forwarded to
   * `handleApiKeySuccess` with the user the save produced; the project is
   * then created exactly once, with the held title, and the chat is
   * reached.
   */
  method KeySaveResumesCreation(title: string, oldKey: string, key: string) returns (o: Outcome, createdTitle: string)
    requires !CreateDisabled(title) && oldKey != "" && key != ""
    ensures o.projectsCreated == 1 && o.navigatedToChat && o.screen == Hidden && createdTitle == title
  {
    var store, modal, keyless := TitleLeftFromEarlierOpening(title, oldKey);
    var saved := Some(AuthContext.WithKey(keyless, Some(key)));
    modal.HandleApiKeySuccess(store, store.State(), saved, "p", 0);
    o := Outcome(|store.projects|, modal.chatNavigations > 0, modal.Shown());
    createdTitle := store.projects[0].title;
  }
}
