/**
 * The generation client's own logic: how the chat history becomes the SDK's
 * chat turns, and how the model's reply text is coerced into
 * `{ vbaCode, response }`, by JSON first and by a fenced ```vba block
 * otherwise. The SDK call itself and `JSON.parse` are parameters.
 */
module Gemini {
  import opened Types
  import Text

  datatype Role = UserRole | ModelRole

  /** One entry of the SDK's `history`: a role and the message content as its `parts`. */
  datatype ChatTurn = ChatTurn(role: Role, parts: Option<string>)

  function RoleOf(sender: Sender): Role
  {
    if sender == UserSender then UserRole else ModelRole
  }

  /**
   * `history.map(msg => ({ role: ..., parts: msg.content }))`: one turn per
   * message, in order; a user message becomes a `user` turn, every other
   * message a `model` turn, and the content passes through unchanged.
   */
  function HistoryToTurns(history: seq<Message>): (r: seq<ChatTurn>)
    ensures |r| == |history|
    ensures forall i :: 0 <= i < |history| ==>
      && (r[i].role == UserRole <==> history[i].sender == UserSender)
      && r[i].parts == history[i].content
  {
    if history == [] then []
    else [ChatTurn(RoleOf(history[0].sender), history[0].content)] + HistoryToTurns(history[1..])
  }

  /** The mapping distributes over concatenation: turns of a longer history extend the turns of its prefix. */
  lemma {:induction false} HistoryToTurnsAppend(a: seq<Message>, b: seq<Message>)
    ensures HistoryToTurns(a + b) == HistoryToTurns(a) + HistoryToTurns(b)
  {
    if a != [] {
      assert (a + b)[1..] == a[1..] + b;
      HistoryToTurnsAppend(a[1..], b);
    }
  }

  /**
   * What `JSON.parse(response)` made of the reply text: not JSON (it threw),
   * the value `null`, or any other value, read through its `vbaCode` and
   * `explanation` properties (`None` where a property is missing).
   */
  datatype JsonParse = NotJson | JsonNull | JsonValue(vbaCode: Option<string>, explanation: Option<string>)

  /** How the SDK's `sendMessage` came out: the reply text with its parse, or a throw. */
  datatype SdkOutcome = SdkReply(text: string, parse: JsonParse) | SdkThrew(thrown: Thrown)

  /** The two halves of a generation result. */
  datatype Reply = Reply(vbaCode: Option<string>, response: Option<string>)

  datatype GenerationResult = Generated(reply: Reply) | GenerationFailed(thrown: Thrown)

  const VbaOpen := "```vba"
  const Fence := "```"
  const FallbackExplanation := "Here's the VBA code I generated based on your requirements. You can copy this code into the VBA editor in Excel."

  /**
   * Where `/```vba([\s\S]*?)```/` matches: the first "```vba" and the first
   * "```" after it. Since any later opening would need a closing fence after
   * the first opening too, there is a match exactly when some opening is
   * followed by a closing fence.
   */
  function VbaBlockBounds(s: string): (r: Option<(nat, nat)>)
    ensures r.Some? ==>
      var (i, j) := r.value;
      && Text.IsAt(s, VbaOpen, i) && (forall m :: 0 <= m < i ==> !Text.IsAt(s, VbaOpen, m))
      && i + |VbaOpen| <= j && Text.IsAt(s, Fence, j)
      && (forall m :: i + |VbaOpen| <= m < j ==> !Text.IsAt(s, Fence, m))
    ensures r.None? <==>
      forall i, j :: Text.IsAt(s, VbaOpen, i) && i + |VbaOpen| <= j ==> !Text.IsAt(s, Fence, j)
  {
    match Text.FindFrom(s, VbaOpen, 0)
    case None => None
    case Some(i) =>
      match Text.FindFrom(s, Fence, i + |VbaOpen|)
      case None => None
      case Some(j) => Some((i, j))
  }

  /** The capture group of the first match: the text between the fences. */
  function MatchVbaBlock(s: string): Option<string>
  {
    match VbaBlockBounds(s)
    case None => None
    case Some((i, j)) => Some(s[i + |VbaOpen|..j])
  }

  /**
   * `response.match(...)?.[1] || response`: the captured block when there is
   * one and it is not empty, the whole reply otherwise.
   */
  function FallbackCode(s: string): (r: string)
    ensures MatchVbaBlock(s).Some? && MatchVbaBlock(s).value != "" ==> r == MatchVbaBlock(s).value
    ensures MatchVbaBlock(s).None? || MatchVbaBlock(s).value == "" ==> r == s
    ensures r == s || |r| < |s|
  {
    match MatchVbaBlock(s)
    case Some(block) => if block != "" then block else s
    case None => s
  }

  /**
   * The inner `try`: a reply that parsed to a non-null value gives its
   * `vbaCode` and `explanation` properties; anything else (not JSON, or
   * `null`, whose property access throws) falls back to the fenced block and
   * the fixed explanation.
   */
  function Coerce(text: string, parse: JsonParse): (r: Reply)
    ensures parse.JsonValue? ==> r == Reply(parse.vbaCode, parse.explanation)
    ensures !parse.JsonValue? ==> r.vbaCode == Some(FallbackCode(text)) && r.response == Some(FallbackExplanation)
  {
    match parse
    case JsonValue(code, explanation) => Reply(code, explanation)
    case _ => Reply(Some(FallbackCode(text)), Some(FallbackExplanation))
  }

  /**
   * `generateVbaCode(prompt, history)` once the SDK has answered: a reply is
   * coerced, an SDK error is rethrown unchanged.
   */
  function GenerateVbaCode(sdk: SdkOutcome): (r: GenerationResult)
    ensures sdk.SdkThrew? ==> r == GenerationFailed(sdk.thrown)
    ensures sdk.SdkReply? ==> r == Generated(Coerce(sdk.text, sdk.parse))
  {
    match sdk
    case SdkThrew(t) => GenerationFailed(t)
    case SdkReply(text, parse) => Generated(Coerce(text, parse))
  }

  predicate NoBacktick(s: string)
  {
    forall i :: 0 <= i < |s| ==> s[i] != '`'
  }

  /** An occurrence of `p` at `m` starts with `p[0]`; so a position holding another character is no occurrence. */
  lemma NotAtWhenFirstDiffers(s: string, p: string, m: nat)
    requires m < |s| && p != [] && s[m] != p[0]
    ensures !Text.IsAt(s, p, m)
  {
    if m + |p| <= |s| {
      assert s[m..m + |p|][0] == s[m];
    }
  }

  /**
   * A non-JSON reply that wraps non-empty code in a ```vba fence, with no
   * backtick before the fence or inside the code, yields exactly that code.
   */
  lemma FencedBlockIsExtracted(prefix: string, code: string, suffix: string)
    requires NoBacktick(prefix) && NoBacktick(code) && code != ""
    ensures FallbackCode(prefix + VbaOpen + code + Fence + suffix) == code
  {
    var s := prefix + VbaOpen + code + Fence + suffix;
    var i := |prefix|;
    var j := |prefix| + |VbaOpen| + |code|;
    assert s[i..i + |VbaOpen|] == VbaOpen;
    assert s[j..j + |Fence|] == Fence;
    assert s[i + |VbaOpen|..j] == code;
    forall m | 0 <= m < i ensures !Text.IsAt(s, VbaOpen, m) {
      assert s[m] == prefix[m];
      NotAtWhenFirstDiffers(s, VbaOpen, m);
    }
    forall m | i + |VbaOpen| <= m < j ensures !Text.IsAt(s, Fence, m) {
      assert s[m] == code[m - i - |VbaOpen|];
      NotAtWhenFirstDiffers(s, Fence, m);
    }
    Text.FindFromFirst(s, VbaOpen, 0, i);
    Text.FindFromFirst(s, Fence, i + |VbaOpen|, j);
  }
}
