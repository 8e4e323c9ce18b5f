/** The server's call to the chat-completion API (`callOpenAI`). The SDK
    call is an input: what it returned, or the error it threw with its
    HTTP status. What is left is the content extraction and the mapping
    of failures to the messages the controller sees. */
module OpenAiService {
  import opened JsText
  import opened Json
  import opened Pattern

  const Model := "gpt-4o-mini"
  const SystemPrompt :=
    "You are an expert React developer who creates clean, modern, and professional website code. "
    + "You always follow instructions precisely and generate production-ready code."
  const MaxTokens := 4000

  const ApiName := "OpenAI API"
  const RateLimitMessage := ApiName + " rate limit " + "exceeded. " + "Please wait " + "a moment " + "and try again."
  const InvalidKeyMessage := InvalidWord + " OpenAI API key. Please check your configuration."
  const AccessDeniedMessage :=
    ApiName + " access " + "denied. " + "Please check " + "your account " + "status and " + "billing."
  const NoCodeMessage := "No code generated from OpenAI"
  const UnknownErrorMessage := "Unknown error occurred"
  const ErrorPrefix := ApiName + " Error: "

  /** One chat message of the request. */
  datatype ChatMessage = ChatMessage(role: string, content: string)

  /** The request the server sends; the sampling temperature is left out. */
  datatype CompletionRequest = CompletionRequest(model: string, messages: seq<ChatMessage>, maxTokens: int)

  /** What the single SDK call did: it returned `choices[0]?.message?.content`
      (undefined when absent), or it threw an error with an optional
      `status` and a `message` ("" when it has none). */
  datatype CompletionOutcome =
    | Completed(content: Json)
    | Failed(status: Option<int>, message: string)

  /** The request for a prompt: the fixed system message, then the prompt
      as the user's message. */
  function Request(prompt: string): (r: CompletionRequest)
    ensures |r.messages| == 2 && r.messages[1] == ChatMessage("user", prompt)
    ensures r.messages[0] == ChatMessage("system", SystemPrompt) && r.model == Model && r.maxTokens == MaxTokens
  {
    CompletionRequest(Model, [ChatMessage("system", SystemPrompt), ChatMessage("user", prompt)], MaxTokens)
  }

  /** The message of the error the catch block throws for a caught error:
      a generic "OpenAI API Error: " message exactly when the status is not
      one of the three recognised ones, and never an empty message. */
  function CatchMessage(status: Option<int>, message: string): (r: string)
    ensures r != []
    ensures StartsWith(r, ErrorPrefix) <==> status !in {Some(429), Some(401), Some(403)}
    ensures StartsWith(r, ErrorPrefix) ==> r[|ErrorPrefix|..] == (if message == "" then UnknownErrorMessage else message)
  {
    assert RateLimitMessage[11] == 'r' && AccessDeniedMessage[11] == 'a' && ErrorPrefix[11] == 'E';
    assert InvalidKeyMessage[0] != ErrorPrefix[0];
    if status == Some(429) then RateLimitMessage
    else if status == Some(401) then InvalidKeyMessage
    else if status == Some(403) then AccessDeniedMessage
    else ErrorPrefix + (if message == "" then UnknownErrorMessage else message)
  }

  /** `callOpenAI(prompt)` given the outcome of its one SDK call. */
  function CallOpenAI(outcome: CompletionOutcome): (r: Result<Json>)
    ensures r.Ok? <==> outcome.Completed? && Truthy(outcome.content)
    ensures r.Ok? ==> r.value == outcome.content
  {
    match outcome
    case Completed(content) =>
      if Truthy(content) then Ok(content)
      // The error thrown inside the try is caught by its own catch block.
      else Err(CatchMessage(None, NoCodeMessage))
    case Failed(status, message) => Err(CatchMessage(status, message))
  }

  /** The three recognised statuses each get their fixed message; any other
      failure gets the prefixed message of the original error, or the
      prefixed default when it had none. */
  lemma FailureMessages(status: Option<int>, message: string)
    ensures CallOpenAI(Failed(status, message)).Err?
    ensures status == Some(429) ==> CallOpenAI(Failed(status, message)).message == RateLimitMessage
    ensures status == Some(401) ==> CallOpenAI(Failed(status, message)).message == InvalidKeyMessage
    ensures status == Some(403) ==> CallOpenAI(Failed(status, message)).message == AccessDeniedMessage
    ensures status !in {Some(429), Some(401), Some(403)} ==>
      CallOpenAI(Failed(status, message)) == Err(ErrorPrefix + (if message == "" then UnknownErrorMessage else message))
    ensures status !in {Some(429), Some(401), Some(403)} ==>
      Contains(CallOpenAI(Failed(status, message)).message, if message == "" then UnknownErrorMessage else message)
  {
    if status !in {Some(429), Some(401), Some(403)} {
      ContainsSuffix(ErrorPrefix, if message == "" then UnknownErrorMessage else message);
    }
  }

  /** A reply without content is reported as a generic API error, never as
      one of the status messages, since the error thrown for it has no
      status. */
  lemma MissingContentMessage(content: Json)
    requires !Truthy(content)
    ensures CallOpenAI(Completed(content)) == Err(ErrorPrefix + NoCodeMessage)
  {
  }

  /** Every failure carries a non-empty message. */
  lemma FailureMessageNonEmpty(outcome: CompletionOutcome)
    ensures CallOpenAI(outcome).Err? ==> CallOpenAI(outcome).message != []
  {
  }

  /** The authentication failure is reported with a message containing
      "Invalid", which the server answers with status 400. */
  lemma InvalidKeyMentionsInvalid()
    ensures Contains(InvalidKeyMessage, InvalidWord)
  {
    ContainsPrefix(InvalidWord, " OpenAI API key. Please check your configuration.");
  }
}
