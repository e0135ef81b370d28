/** The records the app exchanges with its backend and its dialogue service,
    and the small wrappers the model uses for absent values and failures. */
module Types {

  /** A value that may be absent (`T | null` / `T | undefined`). */
  datatype Option<+T> = None | Some(value: T)

  /** The outcome of a collaborator call that yields a value or throws. */
  datatype Result<+T> = Success(value: T) | Failure(error: string)

  /** The outcome of a collaborator call that yields nothing or throws. */
  datatype Outcome = Pass | Fail(error: string)

  /** JavaScript truthiness of a `string | null`: both null and "" are falsy. */
  predicate Truthy(s: Option<string>) {
    s.Some? && s.value != ""
  }

  datatype Role = User | Assistant

  datatype Message = Message(
    id: string,
    conversationId: string,
    role: Role,
    content: string,
    createdAt: string)

  datatype Mistake = Mistake(
    id: string,
    conversationId: string,
    messageId: Option<string>,
    original: string,
    correction: string,
    explanation: string,
    createdAt: string)

  datatype Conversation = Conversation(
    id: string,
    userId: string,
    startedAt: string,
    endedAt: Option<string>)

  /** One entry of the dialogue service's `mistakes` array, before it is saved. */
  datatype MistakeDraft = MistakeDraft(original: string, correction: string, explanation: string)

  /** The structured reply of the dialogue service. */
  datatype AIResponse = AIResponse(reply: string, mistakes: seq<MistakeDraft>)

  datatype RecordingStatus = Idle | Recording | Processing | Playing

  /** What the backend assigns to a row it inserts: a fresh id and a creation time. */
  datatype Stamp = Stamp(id: string, createdAt: string)
}
