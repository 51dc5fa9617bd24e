/** The OpenAI client as the pipeline sees it: the lazily built client that
    needs an API key, and what a chat completion request can come back
    with. The request itself is performed outside the model; its outcome is
    an input. */
module AIProvider {
  import opened Wrappers
  import opened Js
  import opened AIErrors
  import opened ErrorTexts

  /** The text of the first choice of a completion, after `JSON.parse`:
      missing or empty, text `JSON.parse` rejects (with the message of its
      SyntaxError), or the parsed JSON value. */
  datatype Reply = NoContent | Unparsable(syntaxError: string) | Parsed(json: JsValue)

  /** A request that timed out, a request the SDK rejected (with the message
      of the `Error` it threw), or a completed request. */
  datatype ProviderOutcome = TimedOut | Rejected(message: string) | Completed(reply: Reply)

  /** `getOpenAI`: the client when an API key is configured, and otherwise
      the error asking for one. */
  function GetOpenAI(keyConfigured: bool): (r: Result<(), RawError>)
    ensures r.Ok? <==> keyConfigured
    ensures r.Err? ==> r.error == ErrorObject(MissingKeyMessage, None)
  {
    if keyConfigured then Ok(()) else Err(ErrorObject(MissingKeyMessage, None))
  }
}
