/**
 * The records the front-end passes around: users, projects and chat messages,
 * plus the optional value used wherever the source has `null`, `undefined` or
 * an optional property.
 */
module Types {

  /** `None` stands for JavaScript's `null` and `undefined` alike. */
  datatype Option<+T> = None | Some(value: T)

  /** Milliseconds since the epoch, as produced by `new Date()`. */
  type Time = int

  datatype Sender = UserSender | AssistantSender

  /**
   * A chat message. `content` is optional because a parsed model reply whose
   * `explanation` field is missing is appended as `undefined`.
   */
  datatype Message = Message(id: string, content: Option<string>, sender: Sender, timestamp: Time)

  datatype Project = Project(
    id: string,
    title: string,
    description: string,
    createdAt: Time,
    updatedAt: Time,
    messages: seq<Message>,
    vbaCode: Option<string>,
    userId: string)

  /**
   * The signed-in identity. `geminiApiKey == None` is the one "key absent"
   * sentinel (the source assigns `null` to a property typed optional);
   * `accessToken` is carried although the source's `User` type omits it.
   */
  datatype User = User(id: string, email: string, geminiApiKey: Option<string>, accessToken: Option<string>)

  /** JavaScript truthiness of an optional string: present and non-empty. */
  predicate Truthy(s: Option<string>)
  {
    s.Some? && s.value != ""
  }

  /** `user?.geminiApiKey` is truthy: a signed-in user holding a non-empty key. */
  predicate HasKey(user: Option<User>)
  {
    user.Some? && Truthy(user.value.geminiApiKey)
  }

  /** The project has code to show, copy or download (`currentProject?.vbaCode` is truthy). */
  predicate HasCode(current: Option<Project>)
  {
    current.Some? && Truthy(current.value.vbaCode)
  }

  /**
   * A thrown value: an `Error` instance carries a message; anything else does
   * not, and handlers then show their own fallback text.
   */
  datatype Thrown = ErrorInstance(message: string) | NonError

  /** `err instanceof Error ? err.message : fallback` */
  function MessageOr(t: Thrown, fallback: string): string
  {
    match t
    case ErrorInstance(msg) => msg
    case NonError => fallback
  }

  /** How an awaited promise settled. */
  datatype Settled = Resolved | Rejected(thrown: Thrown)
}
