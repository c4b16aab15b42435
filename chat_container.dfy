/**
 * The chat screen: the effect that gates it on the signed-in user and the
 * key, and `handleSendMessage`, which appends the user's message, asks the
 * generator, then appends the reply and stores the code (or appends an
 * apology).
 *
 * `handleSendMessage` is a closure of one render: the project operations it
 * calls are those of that render, so all of them compute from the same
 * snapshot `snap`, before and after the `await`. The send is split at the
 * `await` into `BeginSend` and `SettleSend`.
 */
module ChatContainer {
  import opened Types
  import opened ProjectContext
  import Gemini

  const Apology := "Sorry, I couldn't generate VBA code. Please try again with different requirements."

  /** What the gating effect does for the current user. */
  datatype Gate = NavigateHome | RequestKeyDialog | NoAction

  /**
   * The effect on `[user, navigate]`: no user sends the browser home; a user
   * without a key has the key dialog opened (through the navigation bar's
   * key button); a user with a key is left alone.
   */
  function GateEffect(user: Option<User>): (g: Gate)
    ensures g == NavigateHome <==> user.None?
    ensures g == RequestKeyDialog <==> user.Some? && !HasKey(user)
    ensures g == NoAction <==> HasKey(user)
  {
    if user.None? then NavigateHome
    else if !Truthy(user.value.geminiApiKey) then RequestKeyDialog
    else NoAction
  }

  /** The screen renders nothing without a user. */
  predicate Renders(user: Option<User>)
  {
    user.Some?
  }

  /**
   * The `disabled` prop handed to the input box: the user has no key. It is
   * on exactly when the gate asks for the key dialog, and off exactly when a
   * send gets past `handleSendMessage`'s own key guard.
   */
  function InputDisabled(user: User): (r: bool)
    ensures r <==> GateEffect(Some(user)) == RequestKeyDialog
    ensures !r <==> HasKey(Some(user))
  {
    !Truthy(user.geminiApiKey)
  }

  /** `currentProject?.messages || []`: the history handed to the generator. */
  function HistoryOf(snap: ProjectState): (h: seq<Message>)
    ensures snap.current.None? ==> h == []
    ensures snap.current.Some? ==> h == snap.current.value.messages
  {
    if snap.current.Some? then snap.current.value.messages else []
  }

  /** One call of `createGeminiChat(key).generateVbaCode(prompt, history)`. */
  datatype GenerateCall = GenerateCall(apiKey: string, prompt: string, history: seq<Message>)

  /**
   * The project state one send leaves behind, as written: the user's
   * message, the reply and the code are each written from the same
   * snapshot, so the last write wins. After a reply the state is the
   * snapshot with only the code changed: neither the user's message nor the
   * reply remains. After a failure only the apology remains.
   */
  function SendAsWritten(snap: ProjectState, content: string, result: Gemini.GenerationResult,
                         userMsgId: string, replyId: string, sentAt: Time, settledAt: Time): (r: ProjectState)
    ensures snap.current.None? ==> r == snap
    ensures snap.current.Some? && result.Generated? ==>
      && r.current.Some?
      && r.current.value.messages == snap.current.value.messages
      && r.current.value.vbaCode == result.reply.vbaCode
    ensures snap.current.Some? && result.GenerationFailed? ==>
      && r.current.Some?
      && r.current.value.messages == snap.current.value.messages + [Message(replyId, Some(Apology), AssistantSender, settledAt)]
      && r.current.value.vbaCode == snap.current.value.vbaCode
  {
    if snap.current.None? then snap
    else
      // The user's message and the reply are written too, but each later
      // write starts again from `snap` and replaces them.
      match result
      case Generated(reply) =>
        UpdateVbaCodeOn(snap, reply.vbaCode, settledAt)
      case GenerationFailed(_) =>
        AddMessageOn(snap, Some(Apology), AssistantSender, replyId, settledAt)
  }

  /** A concrete exchange in which the prompt and the reply vanish from the transcript. */
  lemma SendAsWrittenLosesExchange()
    ensures
      var p := Project("p", "Sales", "", 0, 0, [], None, "u");
      var snap := ProjectState([p], Some(p));
      var r := SendAsWritten(snap, "sort column A", Gemini.Generated(Gemini.Reply(Some("Sub S()\nEnd Sub"), Some("Done"))), "m1", "m2", 1, 2);
      r.current.Some? && r.current.value.messages == [] && r.projects[0].messages == []
  {
  }

  /**
   * The intended send: each write sees the state the previous one left. The
   * transcript then grows by the user's message followed by the reply (or
   * the apology), and after a reply the code is the generated code.
   */
  function SendThreaded(snap: ProjectState, content: string, result: Gemini.GenerationResult,
                        userMsgId: string, replyId: string, sentAt: Time, settledAt: Time): (r: ProjectState)
    ensures snap.current.None? ==> r == snap
    ensures snap.current.Some? ==>
      && r.current.Some?
      && r.current.value.id == snap.current.value.id
      && r.current.value.messages == snap.current.value.messages + [
           Message(userMsgId, Some(content), UserSender, sentAt),
           Message(replyId, if result.Generated? then result.reply.response else Some(Apology), AssistantSender, settledAt)]
      && r.current.value.vbaCode == (if result.Generated? then result.reply.vbaCode else snap.current.value.vbaCode)
  {
    var afterUser := AddMessageOn(snap, Some(content), UserSender, userMsgId, sentAt);
    match result
    case Generated(reply) =>
      var afterReply := AddMessageOn(afterUser, reply.response, AssistantSender, replyId, settledAt);
      UpdateVbaCodeOn(afterReply, reply.vbaCode, settledAt)
    case GenerationFailed(_) =>
      AddMessageOn(afterUser, Some(Apology), AssistantSender, replyId, settledAt)
  }

  /**
   * The intended send keeps the project list consistent with the current
   * project: every entry with the current project's id is the new current
   * project, and every other entry is untouched.
   */
  lemma SendThreadedKeepsListInStep(snap: ProjectState, content: string, result: Gemini.GenerationResult,
                                    userMsgId: string, replyId: string, sentAt: Time, settledAt: Time)
    requires snap.current.Some?
    ensures
      var r := SendThreaded(snap, content, result, userMsgId, replyId, sentAt, settledAt);
      && |r.projects| == |snap.projects|
      && forall i :: 0 <= i < |snap.projects| ==>
           r.projects[i] == (if snap.projects[i].id == snap.current.value.id then r.current.value else snap.projects[i])
  {
    var afterUser := AddMessageOn(snap, Some(content), UserSender, userMsgId, sentAt);
    assert afterUser.current.value.id == snap.current.value.id;
    match result
    case Generated(reply) =>
      var afterReply := AddMessageOn(afterUser, reply.response, AssistantSender, replyId, settledAt);
      assert afterReply.current.value.id == snap.current.value.id;
    case GenerationFailed(_) =>
  }

  /** One step of a send, as the handler issues it: a project-store call or the generation request. */
  datatype SendStep =
    | WroteMessage(content: Option<string>, sender: Sender)
    | RequestedGeneration(call: GenerateCall)
    | WroteCode(code: Option<string>)

  /** The steps after the `await`: the reply then its code, or the apology alone. */
  function SettleSteps(result: Gemini.GenerationResult): (steps: seq<SendStep>)
    ensures result.Generated? ==> steps == [WroteMessage(result.reply.response, AssistantSender), WroteCode(result.reply.vbaCode)]
    ensures result.GenerationFailed? ==> steps == [WroteMessage(Some(Apology), AssistantSender)]
    ensures forall i :: 0 <= i < |steps| ==> !steps[i].RequestedGeneration?
  {
    match result
    case Generated(reply) => [WroteMessage(reply.response, AssistantSender), WroteCode(reply.vbaCode)]
    case GenerationFailed(_) => [WroteMessage(Some(Apology), AssistantSender)]
  }

  class Container {
    var isLoading: bool
    /** Every step the handler has issued, in order. */
    var trace: seq<SendStep>

    constructor ()
      ensures !isLoading && trace == []
    {
      isLoading := false;
      trace := [];
    }

    /**
     * `handleSendMessage` up to its `await`, in the render that saw `snap`
     * and `user`. Without a key it returns at once. Otherwise it writes the
     * user's message from the snapshot, turns the loading flag on and then
     * asks the generator, with the snapshot's history (which does not include
     * the message just written).
     */
    method BeginSend(store: ProjectStore, snap: ProjectState, user: Option<User>, content: string, msgId: string, now: Time)
      returns (started: bool)
      modifies this, store
      ensures started <==> HasKey(user)
      ensures !started ==> unchanged(store) && isLoading == old(isLoading) && trace == old(trace)
      ensures started && snap.current.None? ==> store.State() == old(store.State())
      ensures started && snap.current.Some? ==> store.State() == AddMessageOn(snap, Some(content), UserSender, msgId, now)
      ensures started ==> isLoading && trace == old(trace) + [
        WroteMessage(Some(content), UserSender),
        RequestedGeneration(GenerateCall(user.value.geminiApiKey.value, content, HistoryOf(snap)))]
    {
      if !(user.Some? && Truthy(user.value.geminiApiKey)) {
        return false;
      }
      store.AddMessage(snap, Some(content), UserSender, msgId, now);
      trace := trace + [WroteMessage(Some(content), UserSender)];
      isLoading := true;
      trace := trace + [RequestedGeneration(GenerateCall(user.value.geminiApiKey.value, content, HistoryOf(snap)))];
      started := true;
    }

    /**
     * `handleSendMessage` after its `await`, with the same snapshot. A reply
     * is appended and then its code stored; a failure appends the apology
     * and stores no code. Either way the loading flag goes off. Both writes
     * start from the snapshot, so whatever the live state held before is
     * replaced.
     */
    method SettleSend(store: ProjectStore, snap: ProjectState, result: Gemini.GenerationResult, replyId: string, now: Time)
      modifies this, store
      ensures !isLoading && trace == old(trace) + SettleSteps(result)
      ensures snap.current.None? ==> store.State() == old(store.State())
      ensures snap.current.Some? && result.Generated? ==> store.State() == UpdateVbaCodeOn(snap, result.reply.vbaCode, now)
      ensures snap.current.Some? && result.GenerationFailed? ==>
        store.State() == AddMessageOn(snap, Some(Apology), AssistantSender, replyId, now)
    {
      match result {
        case Generated(reply) =>
          store.AddMessage(snap, reply.response, AssistantSender, replyId, now);
          trace := trace + [WroteMessage(reply.response, AssistantSender)];
          store.UpdateVbaCode(snap, reply.vbaCode, now);
          trace := trace + [WroteCode(reply.vbaCode)];
        case GenerationFailed(_) =>
          store.AddMessage(snap, Some(Apology), AssistantSender, replyId, now);
          trace := trace + [WroteMessage(Some(Apology), AssistantSender)];
      }
      isLoading := false;
    }

    /**
     * A whole `handleSendMessage`: without a key nothing is written and no
     * request is made. With one, the steps are the user's message, the
     * request, then the settle steps, and with a current project the live
     * state ends as `SendAsWritten` says.
     */
    method HandleSendMessage(store: ProjectStore, snap: ProjectState, user: Option<User>, content: string,
                             result: Gemini.GenerationResult, userMsgId: string, replyId: string, sentAt: Time, settledAt: Time)
      modifies this, store
      ensures !HasKey(user) ==> unchanged(store) && isLoading == old(isLoading) && trace == old(trace)
      ensures HasKey(user) ==> !isLoading && trace == old(trace) + [
        WroteMessage(Some(content), UserSender),
        RequestedGeneration(GenerateCall(user.value.geminiApiKey.value, content, HistoryOf(snap)))] + SettleSteps(result)
      ensures HasKey(user) && snap.current.Some? ==>
        store.State() == SendAsWritten(snap, content, result, userMsgId, replyId, sentAt, settledAt)
    {
      var started := BeginSend(store, snap, user, content, userMsgId, sentAt);
      if started {
        SettleSend(store, snap, result, replyId, settledAt);
      }
    }
  }
}
