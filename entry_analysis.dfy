/** `analyzeEntry`: the content gate, the client, one chat completion
    request raced against a 30-second timer, the check of the reply's shape,
    and the rethrow of every failure inside the request as an error carrying
    its classification. */
module EntryAnalysis {
  import opened Wrappers
  import opened Strings
  import opened Js
  import opened Types
  import opened AIErrors
  import opened ErrorTexts
  import opened AIProvider

  /** `EntryAnalysisResult`. */
  datatype AnalysisResult = AnalysisResult(summary: JsValue, sentiment: Sentiment, themes: JsValue)

  /** A parsed reply passes the shape check: it is not `null`, and its
      `summary`, `sentiment` and `themes` are all truthy. */
  predicate WellFormedReply(j: JsValue) {
    !Nullish(j) && Truthy(Get(j, "summary")) && Truthy(Get(j, "sentiment")) && Truthy(Get(j, "themes"))
  }

  /** The fields read out of a well-formed reply. */
  function ReadAnalysis(j: JsValue): AnalysisResult
    requires WellFormedReply(j)
  {
    var s := Get(j, "sentiment");
    AnalysisResult(Get(j, "summary"), Sentiment(Get(s, "score"), Get(s, "label")), Get(j, "themes"))
  }

  /** The body of the `try`: what the request's outcome makes of it, before
      the `catch` classifies an error. */
  function AttemptAnalysis(outcome: ProviderOutcome): (r: Result<AnalysisResult, RawError>)
    ensures r.Ok? <==> outcome.Completed? && outcome.reply.Parsed? && WellFormedReply(outcome.reply.json)
    ensures r.Ok? ==> r.value == ReadAnalysis(outcome.reply.json)
    ensures outcome.Rejected? ==> r == Err(ErrorObject(outcome.message, None))
    ensures r.Err? ==> r.error.ErrorObject? && r.error.classified.None?
  {
    match outcome
    case TimedOut => Err(ErrorObject(WithTimeoutMessage(AITimeoutMs), None))
    case Rejected(m) => Err(ErrorObject(m, None))
    case Completed(NoContent) => Err(ErrorObject(NoResponseMessage, None))
    case Completed(Unparsable(m)) => Err(ErrorObject(m, None))
    case Completed(Parsed(j)) =>
      match GetProperty(j, "summary")
      case Err(m) => Err(ErrorObject(m, None))
      case Ok(summary) =>
        if !Truthy(summary) || !Truthy(Get(j, "sentiment")) || !Truthy(Get(j, "themes")) then
          Err(ErrorObject(InvalidStructureMessage, None))
        else
          Ok(ReadAnalysis(j))
  }

  /** The `catch`: the error rethrown with the classification's user message
      and the classification attached. */
  function Rethrow(e: RawError): (r: RawError)
    ensures r.ErrorObject? && r.classified == Some(ClassifyAIError(e))
    ensures r.message == ClassifyAIError(e).userMessage
  {
    var c := ClassifyAIError(e);
    ErrorObject(c.userMessage, Some(c))
  }

  /** `analyzeEntry(content)`, with the configuration of the API key and the
      provider's answer to a request carrying `content` as inputs. */
  function AnalyzeEntry(content: string, keyConfigured: bool, respond: string -> ProviderOutcome)
    : (r: Result<AnalysisResult, RawError>)
    ensures r.Ok? <==>
      ValidateEntryContent(content).None? && keyConfigured
      && respond(content).Completed? && respond(content).reply.Parsed?
      && WellFormedReply(respond(content).reply.json)
    ensures r.Ok? ==> r.value == ReadAnalysis(respond(content).reply.json)
  {
    var validation := ValidateEntryContent(content);
    if validation.Some? then
      Err(ErrorObject(validation.value.userMessage, None))
    else
      match GetOpenAI(keyConfigured)
      case Err(e) => Err(e)
      case Ok(_) =>
        match AttemptAnalysis(respond(content))
        case Ok(a) => Ok(a)
        case Err(e) => Err(Rethrow(e))
  }

  /** Content outside the length bounds fails before the client or the
      provider is consulted, with the gate's user message and no
      classification attached. */
  lemma ContentGateComesFirst(content: string, keyConfigured: bool, respond: string -> ProviderOutcome)
    requires ValidateEntryContent(content).Some?
    ensures AnalyzeEntry(content, keyConfigured, respond)
      == Err(ErrorObject(ValidateEntryContent(content).value.userMessage, None))
    ensures |Trim(content)| < MinContentLength ==>
      AnalyzeEntry(content, keyConfigured, respond) == Err(ErrorObject(TooShortUserMessage, None))
    ensures |Trim(content)| > MaxContentLength ==>
      AnalyzeEntry(content, keyConfigured, respond) == Err(ErrorObject(TooLongUserMessage, None))
  {
  }

  /** Without an API key valid content fails with the client's message, also
      unclassified. */
  lemma MissingKeyComesSecond(content: string, respond: string -> ProviderOutcome)
    requires ValidateEntryContent(content).None?
    ensures AnalyzeEntry(content, false, respond) == Err(ErrorObject(MissingKeyMessage, None))
  {
  }

  /** Every failure of the request itself comes back classified: the attached
      classification is that of the original error, the message is its user
      message, and it follows the retry policy. */
  lemma RequestFailuresAreClassified(content: string, respond: string -> ProviderOutcome)
    requires ValidateEntryContent(content).None?
    ensures var r := AnalyzeEntry(content, true, respond);
      r.Err? ==>
        var orig := AttemptAnalysis(respond(content));
        orig.Err?
        && r.error == ErrorObject(ClassifyAIError(orig.error).userMessage, Some(ClassifyAIError(orig.error)))
        && RetryPolicy(r.error.classified.value)
        && r.error.classified.value.kind !in {ContentTooShort, ContentTooLong}
  {
  }

  /** The error the request's outcome produces inside the `try`: the timer's
      message, the SDK's error, the missing-reply message, the
      SyntaxError, V8's TypeError for a `null` reply, or the shape error;
      none of them carries a classification yet. */
  lemma AttemptErrors(outcome: ProviderOutcome)
    ensures outcome == TimedOut ==> AttemptAnalysis(outcome) == Err(ErrorObject(WrapperTimeoutMessage, None))
    ensures outcome == Completed(NoContent) ==> AttemptAnalysis(outcome) == Err(ErrorObject(NoResponseMessage, None))
    ensures outcome.Completed? && outcome.reply.Unparsable? ==>
      AttemptAnalysis(outcome) == Err(ErrorObject(outcome.reply.syntaxError, None))
    ensures outcome == Completed(Parsed(JNull)) ==> AttemptAnalysis(outcome) == Err(ErrorObject(NullReplyMessage, None))
    ensures outcome.Completed? && outcome.reply.Parsed? && !Nullish(outcome.reply.json)
            && !WellFormedReply(outcome.reply.json) ==>
      AttemptAnalysis(outcome) == Err(ErrorObject(InvalidStructureMessage, None))
  {
    WithTimeoutMessageOfAITimeout();
    NullSummaryMessage();
  }

  /** V8's message for reading `summary` of `null` is the text the model
      classifies. */
  lemma NullSummaryMessage()
    ensures GetProperty(JNull, "summary") == Err(NullReplyMessage)
  {
    assert "Cannot read properties of " + "null" + " (reading '" + "summary" + "')"
      == "Cannot read properties of" + " null (reading 'summary')";
  }

  /** How the request's outcomes end up classified: both timeouts as
      `Timeout`, a missing reply and a `null` reply as `Unknown`, a reply of
      the wrong shape as `InvalidResponse`, and an SDK error as that error. */
  lemma OutcomeKinds(content: string, respond: string -> ProviderOutcome)
    requires ValidateEntryContent(content).None?
    ensures var o := respond(content);
      var r := AnalyzeEntry(content, true, respond);
      (o == TimedOut ==> r.Err? && r.error.classified.Some? && r.error.classified.value.kind == Timeout)
      && (o == Rejected(SdkTimeoutMessage) ==>
            r.Err? && r.error.classified.Some? && r.error.classified.value.kind == Timeout)
      && (o == Completed(NoContent) ==>
            r.Err? && r.error.classified.Some? && r.error.classified.value.kind == Unknown)
      && (o == Completed(Parsed(JNull)) ==>
            r.Err? && r.error.classified.Some? && r.error.classified.value.kind == Unknown)
      && (o.Completed? && o.reply.Parsed? && !Nullish(o.reply.json) && !WellFormedReply(o.reply.json) ==>
            r.Err? && r.error.classified.Some? && r.error.classified.value.kind == InvalidResponse)
      && (o.Rejected? ==> r.Err? && r.error.classified == Some(ClassifyAIError(ErrorObject(o.message, None))))
  {
    var o := respond(content);
    AttemptErrors(o);
    ClassifyWrapperTimeoutMessage(None);
    ClassifySdkTimeoutMessage(None);
    ClassifyNoResponseMessage(None);
    ClassifyNullReplyMessage(None);
    ClassifyInvalidStructureMessage(None);
  }
}
