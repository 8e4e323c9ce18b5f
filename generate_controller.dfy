/** The generation endpoint (`generateWebsite`): validate the request body,
    build the prompt, make the one completion call, sanitize what comes
    back, and answer with a status and a JSON body. The completion call's
    outcome is an input. */
module GenerateController {
  import opened JsText
  import opened Json
  import opened Pattern
  import Validator
  import PromptBuilder
  import OpenAiService
  import Sanitizer

  const SuccessMessage := "Website generated successfully"
  const FallbackError := "Failed to generate website"

  /** `{ code, message }` on success, `{ error }` on failure. */
  datatype ResponseBody = Success(code: string, message: string) | Failure(error: string)

  /** The chain of calls inside the `try`: the sanitized code, or the
      message of the first error thrown. A success carries code that the
      model returned as a string, with text only deleted from it, trimmed,
      and at least 50 characters long; it happens exactly when the request
      is valid, the prompt is built, and the reply survives sanitizing. */
  function Pipeline(body: Json, outcome: OpenAiService.CompletionOutcome): (r: Result<string>)
    ensures r.Ok? <==>
      Validator.ValidRequest(body) && PromptBuilder.BuildPrompt(body).Ok? &&
      outcome.Completed? && Sanitizer.Sanitize(outcome.content).Ok?
    ensures r.Ok? ==>
      outcome.Completed? && outcome.content.JStr? &&
      r.value == Sanitizer.Sanitize(outcome.content).value &&
      IsSubsequence(r.value, outcome.content.s) && IsTrimmed(r.value) &&
      |r.value| >= Sanitizer.MinimumLength
  {
    match Validator.ValidateInput(body)
    case Fail(m) => Err(m)
    case Pass =>
      match PromptBuilder.BuildPrompt(body)
      case Err(m) => Err(m)
      case Ok(_) =>
        match OpenAiService.CallOpenAI(outcome)
        case Err(m) => Err(m)
        case Ok(content) => Sanitizer.Sanitize(content)
  }

  /** `error.message.includes("Invalid") ? 400 : 500`. */
  function StatusFor(message: string): (status: int)
    ensures status == 400 <==> Contains(message, InvalidWord)
    ensures status == 400 || status == 500
  {
    if Contains(message, InvalidWord) then 400 else 500
  }

  /** `{ error: error.message || "Failed to generate website" }`. */
  function ErrorBody(message: string): (r: ResponseBody)
    ensures r.Failure? && r.error != []
    ensures message != [] ==> r.error == message
  {
    Failure(if message == [] then FallbackError else message)
  }

  /** The handler. It returns the status and body it sends, and the request
      it made to the completion API, if it got that far. */
  method GenerateWebsite(body: Json, outcome: OpenAiService.CompletionOutcome)
    returns (status: int, response: ResponseBody, request: Option<OpenAiService.CompletionRequest>)
    ensures var p := Pipeline(body, outcome);
      (p.Ok? ==> status == 200 && response == Success(p.value, SuccessMessage)) &&
      (p.Err? ==> status == StatusFor(p.message) && response == ErrorBody(p.message))
    ensures request.Some? <==> Validator.ValidRequest(body) && PromptBuilder.BuildPrompt(body).Ok?
    ensures request.Some? ==> request.value == OpenAiService.Request(PromptBuilder.BuildPrompt(body).value)
  {
    request := None;
    var checked := Validator.ValidateInput(body);
    if checked.Fail? {
      status, response := StatusFor(checked.message), ErrorBody(checked.message);
      return;
    }
    var prompt := PromptBuilder.BuildPrompt(body);
    if prompt.Err? {
      status, response := StatusFor(prompt.message), ErrorBody(prompt.message);
      return;
    }
    request := Some(OpenAiService.Request(prompt.value));
    var aiResponse := OpenAiService.CallOpenAI(outcome);
    if aiResponse.Err? {
      status, response := StatusFor(aiResponse.message), ErrorBody(aiResponse.message);
      return;
    }
    var cleanCode := Sanitizer.SanitizeCode(aiResponse.value);
    if cleanCode.Err? {
      status, response := StatusFor(cleanCode.message), ErrorBody(cleanCode.message);
      return;
    }
    status, response := 200, Success(cleanCode.value, SuccessMessage);
  }

  /** An invalid request is answered before any call to the completion
      API, with the validator's message: status 400 for the validator's own
      rejections, 500 for the conversion error a colour length object owning
      "toString" raises. */
  lemma InvalidRequestStatus(body: Json, outcome: OpenAiService.CompletionOutcome)
    requires !Validator.ValidRequest(body)
    ensures Pipeline(body, outcome) == Err(Validator.ValidateInput(body).message)
    ensures StatusFor(Pipeline(body, outcome).message) ==
      if Validator.ValidateInput(body).message == CannotConvert then 500 else 400
  {
    Validator.ValidationFailureMentionsInvalid(body);
  }

  /** A valid request whose prompt cannot be built (an unconvertible section
      or theme, or a theme without `includes`) is answered with status 500,
      again before any call to the completion API. */
  lemma PromptFailureIs500(body: Json, outcome: OpenAiService.CompletionOutcome)
    requires Validator.ValidRequest(body) && PromptBuilder.BuildPrompt(body).Err?
    ensures Pipeline(body, outcome) == Err(PromptBuilder.BuildPrompt(body).message)
    ensures StatusFor(Pipeline(body, outcome).message) == 500
  {
    PromptBuilder.PromptErrorLacksInvalid(body);
  }

  /** A rejected API key is the one upstream failure answered with 400. */
  lemma RejectedKeyIs400(body: Json, message: string)
    requires Validator.ValidRequest(body) && PromptBuilder.BuildPrompt(body).Ok?
    ensures Pipeline(body, OpenAiService.Failed(Some(401), message)) == Err(OpenAiService.InvalidKeyMessage)
    ensures StatusFor(OpenAiService.InvalidKeyMessage) == 400
  {
    OpenAiService.InvalidKeyMentionsInvalid();
  }

  /** Any other upstream error whose own message mentions "Invalid" is
      also answered with 400, since its message is passed on inside the
      generic one. */
  lemma UpstreamInvalidMessageIs400(body: Json, status: Option<int>, message: string)
    requires Validator.ValidRequest(body) && PromptBuilder.BuildPrompt(body).Ok?
    requires status !in {Some(429), Some(401), Some(403)}
    requires Contains(message, InvalidWord)
    ensures Pipeline(body, OpenAiService.Failed(status, message)) == Err(OpenAiService.ErrorPrefix + message)
    ensures StatusFor(OpenAiService.ErrorPrefix + message) == 400
  {
    ContainsWithin(OpenAiService.ErrorPrefix, message, [], InvalidWord);
    assert OpenAiService.ErrorPrefix + message + [] == OpenAiService.ErrorPrefix + message;
  }

  /** Content that is not a string (a number, say) fails the sanitizer's
      argument check and is answered with 400. */
  lemma NonStringContentIs400(body: Json, content: Json)
    requires Validator.ValidRequest(body) && PromptBuilder.BuildPrompt(body).Ok?
    requires Truthy(content) && !content.JStr?
    ensures Pipeline(body, OpenAiService.Completed(content)) == Err(Sanitizer.InvalidCodeMessage)
    ensures StatusFor(Sanitizer.InvalidCodeMessage) == 400
  {
    Sanitizer.InvalidCodeMentionsInvalid(content);
  }

  /** Every error on the way has a message, so the fallback text is never
      sent. */
  lemma ErrorMessagesNonEmpty(body: Json, outcome: OpenAiService.CompletionOutcome)
    ensures Pipeline(body, outcome).Err? ==> Pipeline(body, outcome).message != []
    ensures Pipeline(body, outcome).Err? ==> ErrorBody(Pipeline(body, outcome).message).error == Pipeline(body, outcome).message
  {
    if !Validator.ValidRequest(body) {
      Validator.ValidationFailureMentionsInvalid(body);
      assert |CannotConvert| > 0 && |Validator.InvalidInput| > 0;
    } else if PromptBuilder.BuildPrompt(body).Err? {
      PromptBuilder.PromptErrorLacksInvalid(body);
    } else {
      OpenAiService.FailureMessageNonEmpty(outcome);
    }
  }
}
