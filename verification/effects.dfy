/** The calls the screens make to their collaborators (transcription, dialogue,
    speech synthesis, persistence, sign-in), recorded in the order they are made.
    Their results come back to the model as caller-supplied outcomes. */
module Effects {
  import opened Types
  import opened Dialogue

  datatype Call =
    | Transcribe(uri: string)
    | SaveMessage(conversationId: string, role: Role, content: string)
    | Complete(request: seq<ChatEntry>)
    | SaveMistake(conversationId: string, messageId: Option<string>, draft: MistakeDraft)
    | Speak(text: string)
    | CreateConversation(userId: string)
    | EndConversation(conversationId: string)
    | FetchMistakes(conversationId: string)
    | SignIn
}
