/** The dialogue client: how the chat-completion request is built from the
    conversation history, and how the service's reply becomes an AIResponse.
    `JSON.parse` is a parameter: a partial function that either yields an
    AIResponse-shaped value or fails. */
module Dialogue {
  import opened Types

  /** JSON.parse, read at the AIResponse shape; None when parsing throws. */
  type Parser = string -> Option<AIResponse>

  const SystemPrompt: string :=
    "Tu es un partenaire de conversation français amical.\n"
    + "Réponds naturellement et brièvement en français (1-2 phrases).\n"
    + "Analyse le message de l'utilisateur pour des erreurs de grammaire ou vocabulaire.\n"
    + "Retourne UNIQUEMENT du JSON valide:\n"
    + "{\n"
    + "  \"reply\": \"Ta réponse courte en français\",\n"
    + "  \"mistakes\": [\n"
    + "    {\n"
    + "      \"original\": \"ce que l'utilisateur a dit\",\n"
    + "      \"correction\": \"la forme correcte\",\n"
    + "      \"explanation\": \"explication brève en français\"\n"
    + "    }\n"
    + "  ]\n"
    + "}\n"
    + "Si le message est correct, retourne un tableau mistakes vide."

  const ApiErrorPrefix: string := "OpenAI API error: "
  const NoResponseError: string := "No response from OpenAI"

  datatype ChatRole = System | Speaker(role: Role)

  /** One entry of the request's `messages` list. */
  datatype ChatEntry = ChatEntry(role: ChatRole, content: string)

  /** What the HTTP exchange yields: a non-ok response with its body text, or an
      ok response with `choices[0].message.content` (None when absent). */
  datatype ChatReply = NotOk(errorText: string) | Ok(content: Option<string>)

  /** The displayable text of a stored assistant message: the `reply` field of
      its JSON when that parses and is non-empty, the content itself otherwise. */
  function ExtractReply(content: string, parse: Parser): (r: string)
    ensures r == content || (parse(content).Some? && r == parse(content).value.reply)
    ensures content != "" ==> r != ""
  {
    match parse(content)
    case Some(parsed) => if parsed.reply != "" then parsed.reply else content
    case None => content
  }

  /** Content that is not JSON is shown verbatim; JSON with a non-empty reply shows the reply. */
  lemma ExtractReplyCases(content: string, parse: Parser)
    ensures parse(content).None? ==> ExtractReply(content, parse) == content
    ensures parse(content).Some? && parse(content).value.reply != "" ==>
              ExtractReply(content, parse) == parse(content).value.reply
    ensures parse(content).Some? && parse(content).value.reply == "" ==>
              ExtractReply(content, parse) == content
  {
  }

  /** One history message as the request sends it. */
  function HistoryEntry(m: Message, parse: Parser): ChatEntry {
    ChatEntry(Speaker(m.role), if m.role == Assistant then ExtractReply(m.content, parse) else m.content)
  }

  /** The history as request entries, one per message, in order. */
  function HistoryEntries(history: seq<Message>, parse: Parser): (r: seq<ChatEntry>)
    ensures |r| == |history|
    ensures forall i :: 0 <= i < |r| ==> r[i].role == Speaker(history[i].role)
  {
    if history == [] then []
    else [HistoryEntry(history[0], parse)] + HistoryEntries(history[1..], parse)
  }

  lemma {:induction false} HistoryEntriesAt(history: seq<Message>, parse: Parser, i: nat)
    requires i < |history|
    ensures HistoryEntries(history, parse)[i] == HistoryEntry(history[i], parse)
  {
    var r := HistoryEntries(history, parse);
    assert r == [HistoryEntry(history[0], parse)] + HistoryEntries(history[1..], parse);
    if i > 0 {
      assert r[i] == HistoryEntries(history[1..], parse)[i - 1];
      assert history[1..][i - 1] == history[i];
      HistoryEntriesAt(history[1..], parse, i - 1);
    }
  }

  /** The request's `messages`: the system prompt, the history, the new utterance last. */
  function BuildRequest(userMessage: string, history: seq<Message>, parse: Parser): (r: seq<ChatEntry>)
    ensures |r| == |history| + 2
    ensures r[0] == ChatEntry(System, SystemPrompt)
    ensures r[|r| - 1] == ChatEntry(Speaker(User), userMessage)
  {
    [ChatEntry(System, SystemPrompt)] + HistoryEntries(history, parse) + [ChatEntry(Speaker(User), userMessage)]
  }

  /** Entry i + 1 of the request is history message i: user content verbatim,
      assistant content through ExtractReply. */
  lemma BuildRequestKeepsHistory(userMessage: string, history: seq<Message>, parse: Parser, i: nat)
    requires i < |history|
    ensures BuildRequest(userMessage, history, parse)[i + 1].role == Speaker(history[i].role)
    ensures history[i].role == User ==> BuildRequest(userMessage, history, parse)[i + 1].content == history[i].content
    ensures history[i].role == Assistant ==>
              BuildRequest(userMessage, history, parse)[i + 1].content == ExtractReply(history[i].content, parse)
  {
    HistoryEntriesAt(history, parse, i);
    assert BuildRequest(userMessage, history, parse)[i + 1] == HistoryEntries(history, parse)[i];
  }

  /** The reply of the chat-completion call as an AIResponse, or the error it throws. */
  function InterpretReply(fetched: Result<ChatReply>, parse: Parser): (r: Result<AIResponse>)
    ensures r.Success? <==> fetched.Success? && fetched.value.Ok? && Truthy(fetched.value.content)
    ensures fetched.Failure? ==> r == Failure(fetched.error)
    ensures fetched.Success? && fetched.value.NotOk? ==> r == Failure(ApiErrorPrefix + fetched.value.errorText)
    ensures fetched.Success? && fetched.value.Ok? && !Truthy(fetched.value.content) ==> r == Failure(NoResponseError)
  {
    match fetched
    case Failure(e) => Failure(e)
    case Success(NotOk(text)) => Failure(ApiErrorPrefix + text)
    case Success(Ok(content)) =>
      if !Truthy(content) then Failure(NoResponseError)
      else
        match parse(content.value)
        case Some(parsed) => Success(parsed)
        case None => Success(AIResponse(content.value, []))
  }

  /** Unparseable content does not throw: it becomes the reply, with no mistakes. */
  lemma UnparseableContentFallsBack(content: string, parse: Parser)
    requires content != "" && parse(content).None?
    ensures InterpretReply(Success(Ok(Some(content))), parse) == Success(AIResponse(content, []))
  {
  }

  /** Parseable content is returned as parsed, mistakes in the service's order. */
  lemma ParsedContentPassesThrough(content: string, parse: Parser)
    requires content != "" && parse(content).Some?
    ensures InterpretReply(Success(Ok(Some(content))), parse) == Success(parse(content).value)
  {
  }
}
