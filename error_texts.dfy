/** The fixed error texts the AI pipeline throws, and the classification
    each receives when an action classifies it afresh. For each text, one
    lemma gives its lower-cased form, and one lemma per pattern of every
    group tried before the deciding one shows that the lower-cased text does
    not contain it: the text lacks one of the pattern's characters, or one
    pair of its adjacent characters. */
module ErrorTexts {
  import opened Wrappers
  import opened Strings
  import opened AIErrors

  /** The entry analysis' timeout, in milliseconds. */
  const AITimeoutMs: nat := 30000

  /** The message of the entry analysis' timer rejection. */
  function WithTimeoutMessage(ms: nat): string {
    "Request timed out after " + NatToString(ms) + "ms"
  }

  lemma WithTimeoutMessageOfAITimeout()
    ensures WithTimeoutMessage(AITimeoutMs) == WrapperTimeoutMessage
  {
    assert NatToString(3) == "3";
    assert NatToString(30) == "30";
    assert NatToString(300) == "300";
    assert NatToString(3000) == "3000";
    assert NatToString(30000) == "30000";
  }

  lemma LowerTooShortUserMessagePart0()
    ensures Lower("Entry is too short for AI ") == "entry is too short for ai "
  {
  }

  lemma LowerTooShortUserMessagePart1()
    ensures Lower("analysis. Please write at ") == "analysis. please write at "
  {
  }

  lemma LowerTooShortUserMessagePart2()
    ensures Lower("least 10 characters.") == "least 10 characters."
  {
  }

  lemma LowerTooShortUserMessage()
    ensures Lower(TooShortUserMessage) == "entry is too short for ai " + "analysis. please write at " + "least 10 characters."
  {
    LowerTooShortUserMessagePart0();
    LowerTooShortUserMessagePart1();
    LowerTooShortUserMessagePart2();
    LowerAppend("Entry is too short for AI ", "analysis. Please write at ");
    LowerAppend("Entry is too short for AI " + "analysis. Please write at ", "least 10 characters.");
  }

  lemma TooShortUserMessageLacksApiKey()
    ensures !Contains("entry is too short for ai " + "analysis. please write at " + "least 10 characters.", "api key")
  {
    NotContainsByChar("entry is too short for ai " + "analysis. please write at " + "least 10 characters.", "api key", 4);
  }

  lemma TooShortUserMessageLacksUnauthorized()
    ensures !Contains("entry is too short for ai " + "analysis. please write at " + "least 10 characters.", "unauthorized")
  {
    NotContainsByChar("entry is too short for ai " + "analysis. please write at " + "least 10 characters.", "unauthorized", 0);
  }

  lemma TooShortUserMessageLacks401()
    ensures !Contains("entry is too short for ai " + "analysis. please write at " + "least 10 characters.", "401")
  {
    NotContainsByChar("entry is too short for ai " + "analysis. please write at " + "least 10 characters.", "401", 0);
  }

  lemma TooShortUserMessageNotApiKey()
    ensures !ContainsAny(Lower(TooShortUserMessage), ApiKeyPatterns)
  {
    LowerTooShortUserMessage();
    var s := "entry is too short for ai " + "analysis. please write at " + "least 10 characters.";
    ContainsAny3(s, "api key", "unauthorized", "401");
    TooShortUserMessageLacksApiKey();
    TooShortUserMessageLacksUnauthorized();
    TooShortUserMessageLacks401();
  }

  lemma TooShortUserMessageLacksRateLimit()
    ensures !Contains("entry is too short for ai " + "analysis. please write at " + "least 10 characters.", "rate limit")
  {
    NotContainsByChar("entry is too short for ai " + "analysis. please write at " + "least 10 characters.", "rate limit", 7);
  }

  lemma TooShortUserMessageLacks429()
    ensures !Contains("entry is too short for ai " + "analysis. please write at " + "least 10 characters.", "429")
  {
    NotContainsByChar("entry is too short for ai " + "analysis. please write at " + "least 10 characters.", "429", 0);
  }

  lemma TooShortUserMessageLacksTooManyRequests()
    ensures !Contains("entry is too short for ai " + "analysis. please write at " + "least 10 characters.", "too many requests")
  {
    NotContainsByChar("entry is too short for ai " + "analysis. please write at " + "least 10 characters.", "too many requests", 4);
  }

  lemma TooShortUserMessageNotRateLimit()
    ensures !ContainsAny(Lower(TooShortUserMessage), RateLimitPatterns)
  {
    LowerTooShortUserMessage();
    var s := "entry is too short for ai " + "analysis. please write at " + "least 10 characters.";
    ContainsAny3(s, "rate limit", "429", "too many requests");
    TooShortUserMessageLacksRateLimit();
    TooShortUserMessageLacks429();
    TooShortUserMessageLacksTooManyRequests();
  }

  lemma TooShortUserMessageLacksQuota()
    ensures !Contains("entry is too short for ai " + "analysis. please write at " + "least 10 characters.", "quota")
  {
    NotContainsByChar("entry is too short for ai " + "analysis. please write at " + "least 10 characters.", "quota", 0);
  }

  lemma TooShortUserMessageLacksInsufficient()
    ensures !Contains("entry is too short for ai " + "analysis. please write at " + "least 10 characters.", "insufficient")
  {
    NotContainsByChar("entry is too short for ai " + "analysis. please write at " + "least 10 characters.", "insufficient", 3);
  }

  lemma TooShortUserMessageLacksBilling()
    ensures !Contains("entry is too short for ai " + "analysis. please write at " + "least 10 characters.", "billing")
  {
    NotContainsByChar("entry is too short for ai " + "analysis. please write at " + "least 10 characters.", "billing", 0);
  }

  lemma TooShortUserMessageLacksCredits()
    ensures !Contains("entry is too short for ai " + "analysis. please write at " + "least 10 characters.", "credits")
  {
    NotContainsByChar("entry is too short for ai " + "analysis. please write at " + "least 10 characters.", "credits", 3);
  }

  lemma TooShortUserMessageNotQuota()
    ensures !ContainsAny(Lower(TooShortUserMessage), QuotaPatterns)
  {
    LowerTooShortUserMessage();
    var s := "entry is too short for ai " + "analysis. please write at " + "least 10 characters.";
    ContainsAny4(s, "quota", "insufficient", "billing", "credits");
    TooShortUserMessageLacksQuota();
    TooShortUserMessageLacksInsufficient();
    TooShortUserMessageLacksBilling();
    TooShortUserMessageLacksCredits();
  }

  lemma TooShortUserMessageLacksTimeout()
    ensures !Contains("entry is too short for ai " + "analysis. please write at " + "least 10 characters.", "timeout")
  {
    NotContainsByChar("entry is too short for ai " + "analysis. please write at " + "least 10 characters.", "timeout", 2);
  }

  lemma TooShortUserMessageLacksTimedOut()
    ensures !Contains("entry is too short for ai " + "analysis. please write at " + "least 10 characters.", "timed out")
  {
    NotContainsByChar("entry is too short for ai " + "analysis. please write at " + "least 10 characters.", "timed out", 2);
  }

  lemma TooShortUserMessageNotTimeout()
    ensures !ContainsAny(Lower(TooShortUserMessage), TimeoutPatterns)
  {
    LowerTooShortUserMessage();
    var s := "entry is too short for ai " + "analysis. please write at " + "least 10 characters.";
    ContainsAny3(s, "timeout", "timed out", "ETIMEDOUT");
    TooShortUserMessageLacksTimeout();
    TooShortUserMessageLacksTimedOut();
    UpperPatternNeverInLower(TooShortUserMessage, "ETIMEDOUT", 0);
  }

  lemma TooShortUserMessageLacksNetwork()
    ensures !Contains("entry is too short for ai " + "analysis. please write at " + "least 10 characters.", "network")
  {
    NotContainsByChar("entry is too short for ai " + "analysis. please write at " + "least 10 characters.", "network", 6);
  }

  lemma TooShortUserMessageLacksFetchFailed()
    ensures !Contains("entry is too short for ai " + "analysis. please write at " + "least 10 characters.", "fetch failed")
  {
    NotContainsByChar("entry is too short for ai " + "analysis. please write at " + "least 10 characters.", "fetch failed", 11);
  }

  lemma TooShortUserMessageNotNetwork()
    ensures !ContainsAny(Lower(TooShortUserMessage), NetworkPatterns)
  {
    LowerTooShortUserMessage();
    var s := "entry is too short for ai " + "analysis. please write at " + "least 10 characters.";
    ContainsAny4(s, "network", "ECONNREFUSED", "ENOTFOUND", "fetch failed");
    TooShortUserMessageLacksNetwork();
    UpperPatternNeverInLower(TooShortUserMessage, "ECONNREFUSED", 0);
    UpperPatternNeverInLower(TooShortUserMessage, "ENOTFOUND", 0);
    TooShortUserMessageLacksFetchFailed();
  }

  lemma TooShortUserMessageLacksInvalidResponse()
    ensures !Contains("entry is too short for ai " + "analysis. please write at " + "least 10 characters.", "invalid response")
  {
    NotContainsByChar("entry is too short for ai " + "analysis. please write at " + "least 10 characters.", "invalid response", 2);
  }

  lemma TooShortUserMessageLacksJson()
    ensures !Contains("entry is too short for ai " + "analysis. please write at " + "least 10 characters.", "json")
  {
    NotContainsByChar("entry is too short for ai " + "analysis. please write at " + "least 10 characters.", "json", 0);
  }

  lemma TooShortUserMessageLacksParse()
    ensures !Contains("entry is too short for ai " + "analysis. please write at " + "least 10 characters.", "parse")
  {
    PairOfAppend("entry is too short for ai ", "analysis. please write at ", 'p', 'a');
    PairOfAppend("entry is too short for ai " + "analysis. please write at ", "least 10 characters.", 'p', 'a');
    NotContainsByPair("entry is too short for ai " + "analysis. please write at " + "least 10 characters.", "parse", 0);
  }

  lemma TooShortUserMessageNotInvalidResponse()
    ensures !ContainsAny(Lower(TooShortUserMessage), InvalidResponsePatterns)
  {
    LowerTooShortUserMessage();
    var s := "entry is too short for ai " + "analysis. please write at " + "least 10 characters.";
    ContainsAny3(s, "invalid response", "json", "parse");
    TooShortUserMessageLacksInvalidResponse();
    TooShortUserMessageLacksJson();
    TooShortUserMessageLacksParse();
  }

  /** Thrown with this text, an error is classified `Unknown`. */
  lemma ClassifyTooShortUserMessage(attached: Option<ClassifiedError>)
    ensures ClassifyAIError(ErrorObject(TooShortUserMessage, attached)).kind == Unknown
    ensures ClassifyAIError(ErrorObject(TooShortUserMessage, attached)).canRetry
    ensures ClassifyAIError(ErrorObject(TooShortUserMessage, attached)).userMessage == UnknownUserMessage
  {
    TooShortUserMessageNotApiKey();
    TooShortUserMessageNotRateLimit();
    TooShortUserMessageNotQuota();
    TooShortUserMessageNotTimeout();
    TooShortUserMessageNotNetwork();
    TooShortUserMessageNotInvalidResponse();
    NoPatternIsUnknown(ErrorObject(TooShortUserMessage, attached));
  }

  lemma LowerTooLongUserMessagePart0()
    ensures Lower("Entry is too long for AI ") == "entry is too long for ai "
  {
  }

  lemma LowerTooLongUserMessagePart1()
    ensures Lower("analysis. Please keep it ") == "analysis. please keep it "
  {
  }

  lemma LowerTooLongUserMessagePart2()
    ensures Lower("under 10,000 characters.") == "under 10,000 characters."
  {
  }

  lemma LowerTooLongUserMessage()
    ensures Lower(TooLongUserMessage) == "entry is too long for ai " + "analysis. please keep it " + "under 10,000 characters."
  {
    LowerTooLongUserMessagePart0();
    LowerTooLongUserMessagePart1();
    LowerTooLongUserMessagePart2();
    LowerAppend("Entry is too long for AI ", "analysis. Please keep it ");
    LowerAppend("Entry is too long for AI " + "analysis. Please keep it ", "under 10,000 characters.");
  }

  lemma TooLongUserMessageLacksApiKey()
    ensures !Contains("entry is too long for ai " + "analysis. please keep it " + "under 10,000 characters.", "api key")
  {
    PairOfAppend("entry is too long for ai ", "analysis. please keep it ", 'a', 'p');
    PairOfAppend("entry is too long for ai " + "analysis. please keep it ", "under 10,000 characters.", 'a', 'p');
    NotContainsByPair("entry is too long for ai " + "analysis. please keep it " + "under 10,000 characters.", "api key", 0);
  }

  lemma TooLongUserMessageLacksUnauthorized()
    ensures !Contains("entry is too long for ai " + "analysis. please keep it " + "under 10,000 characters.", "unauthorized")
  {
    NotContainsByChar("entry is too long for ai " + "analysis. please keep it " + "under 10,000 characters.", "unauthorized", 9);
  }

  lemma TooLongUserMessageLacks401()
    ensures !Contains("entry is too long for ai " + "analysis. please keep it " + "under 10,000 characters.", "401")
  {
    NotContainsByChar("entry is too long for ai " + "analysis. please keep it " + "under 10,000 characters.", "401", 0);
  }

  lemma TooLongUserMessageNotApiKey()
    ensures !ContainsAny(Lower(TooLongUserMessage), ApiKeyPatterns)
  {
    LowerTooLongUserMessage();
    var s := "entry is too long for ai " + "analysis. please keep it " + "under 10,000 characters.";
    ContainsAny3(s, "api key", "unauthorized", "401");
    TooLongUserMessageLacksApiKey();
    TooLongUserMessageLacksUnauthorized();
    TooLongUserMessageLacks401();
  }

  lemma TooLongUserMessageLacksRateLimit()
    ensures !Contains("entry is too long for ai " + "analysis. please keep it " + "under 10,000 characters.", "rate limit")
  {
    NotContainsByChar("entry is too long for ai " + "analysis. please keep it " + "under 10,000 characters.", "rate limit", 7);
  }

  lemma TooLongUserMessageLacks429()
    ensures !Contains("entry is too long for ai " + "analysis. please keep it " + "under 10,000 characters.", "429")
  {
    NotContainsByChar("entry is too long for ai " + "analysis. please keep it " + "under 10,000 characters.", "429", 0);
  }

  lemma TooLongUserMessageLacksTooManyRequests()
    ensures !Contains("entry is too long for ai " + "analysis. please keep it " + "under 10,000 characters.", "too many requests")
  {
    NotContainsByChar("entry is too long for ai " + "analysis. please keep it " + "under 10,000 characters.", "too many requests", 4);
  }

  lemma TooLongUserMessageNotRateLimit()
    ensures !ContainsAny(Lower(TooLongUserMessage), RateLimitPatterns)
  {
    LowerTooLongUserMessage();
    var s := "entry is too long for ai " + "analysis. please keep it " + "under 10,000 characters.";
    ContainsAny3(s, "rate limit", "429", "too many requests");
    TooLongUserMessageLacksRateLimit();
    TooLongUserMessageLacks429();
    TooLongUserMessageLacksTooManyRequests();
  }

  lemma TooLongUserMessageLacksQuota()
    ensures !Contains("entry is too long for ai " + "analysis. please keep it " + "under 10,000 characters.", "quota")
  {
    NotContainsByChar("entry is too long for ai " + "analysis. please keep it " + "under 10,000 characters.", "quota", 0);
  }

  lemma TooLongUserMessageLacksInsufficient()
    ensures !Contains("entry is too long for ai " + "analysis. please keep it " + "under 10,000 characters.", "insufficient")
  {
    PairOfAppend("entry is too long for ai ", "analysis. please keep it ", 'i', 'n');
    PairOfAppend("entry is too long for ai " + "analysis. please keep it ", "under 10,000 characters.", 'i', 'n');
    NotContainsByPair("entry is too long for ai " + "analysis. please keep it " + "under 10,000 characters.", "insufficient", 0);
  }

  lemma TooLongUserMessageLacksBilling()
    ensures !Contains("entry is too long for ai " + "analysis. please keep it " + "under 10,000 characters.", "billing")
  {
    NotContainsByChar("entry is too long for ai " + "analysis. please keep it " + "under 10,000 characters.", "billing", 0);
  }

  lemma TooLongUserMessageLacksCredits()
    ensures !Contains("entry is too long for ai " + "analysis. please keep it " + "under 10,000 characters.", "credits")
  {
    PairOfAppend("entry is too long for ai ", "analysis. please keep it ", 'c', 'r');
    PairOfAppend("entry is too long for ai " + "analysis. please keep it ", "under 10,000 characters.", 'c', 'r');
    NotContainsByPair("entry is too long for ai " + "analysis. please keep it " + "under 10,000 characters.", "credits", 0);
  }

  lemma TooLongUserMessageNotQuota()
    ensures !ContainsAny(Lower(TooLongUserMessage), QuotaPatterns)
  {
    LowerTooLongUserMessage();
    var s := "entry is too long for ai " + "analysis. please keep it " + "under 10,000 characters.";
    ContainsAny4(s, "quota", "insufficient", "billing", "credits");
    TooLongUserMessageLacksQuota();
    TooLongUserMessageLacksInsufficient();
    TooLongUserMessageLacksBilling();
    TooLongUserMessageLacksCredits();
  }

  lemma TooLongUserMessageLacksTimeout()
    ensures !Contains("entry is too long for ai " + "analysis. please keep it " + "under 10,000 characters.", "timeout")
  {
    NotContainsByChar("entry is too long for ai " + "analysis. please keep it " + "under 10,000 characters.", "timeout", 2);
  }

  lemma TooLongUserMessageLacksTimedOut()
    ensures !Contains("entry is too long for ai " + "analysis. please keep it " + "under 10,000 characters.", "timed out")
  {
    NotContainsByChar("entry is too long for ai " + "analysis. please keep it " + "under 10,000 characters.", "timed out", 2);
  }

  lemma TooLongUserMessageNotTimeout()
    ensures !ContainsAny(Lower(TooLongUserMessage), TimeoutPatterns)
  {
    LowerTooLongUserMessage();
    var s := "entry is too long for ai " + "analysis. please keep it " + "under 10,000 characters.";
    ContainsAny3(s, "timeout", "timed out", "ETIMEDOUT");
    TooLongUserMessageLacksTimeout();
    TooLongUserMessageLacksTimedOut();
    UpperPatternNeverInLower(TooLongUserMessage, "ETIMEDOUT", 0);
  }

  lemma TooLongUserMessageLacksNetwork()
    ensures !Contains("entry is too long for ai " + "analysis. please keep it " + "under 10,000 characters.", "network")
  {
    NotContainsByChar("entry is too long for ai " + "analysis. please keep it " + "under 10,000 characters.", "network", 3);
  }

  lemma TooLongUserMessageLacksFetchFailed()
    ensures !Contains("entry is too long for ai " + "analysis. please keep it " + "under 10,000 characters.", "fetch failed")
  {
    PairOfAppend("entry is too long for ai ", "analysis. please keep it ", 'f', 'e');
    PairOfAppend("entry is too long for ai " + "analysis. please keep it ", "under 10,000 characters.", 'f', 'e');
    NotContainsByPair("entry is too long for ai " + "analysis. please keep it " + "under 10,000 characters.", "fetch failed", 0);
  }

  lemma TooLongUserMessageNotNetwork()
    ensures !ContainsAny(Lower(TooLongUserMessage), NetworkPatterns)
  {
    LowerTooLongUserMessage();
    var s := "entry is too long for ai " + "analysis. please keep it " + "under 10,000 characters.";
    ContainsAny4(s, "network", "ECONNREFUSED", "ENOTFOUND", "fetch failed");
    TooLongUserMessageLacksNetwork();
    UpperPatternNeverInLower(TooLongUserMessage, "ECONNREFUSED", 0);
    UpperPatternNeverInLower(TooLongUserMessage, "ENOTFOUND", 0);
    TooLongUserMessageLacksFetchFailed();
  }

  lemma TooLongUserMessageLacksInvalidResponse()
    ensures !Contains("entry is too long for ai " + "analysis. please keep it " + "under 10,000 characters.", "invalid response")
  {
    NotContainsByChar("entry is too long for ai " + "analysis. please keep it " + "under 10,000 characters.", "invalid response", 2);
  }

  lemma TooLongUserMessageLacksJson()
    ensures !Contains("entry is too long for ai " + "analysis. please keep it " + "under 10,000 characters.", "json")
  {
    NotContainsByChar("entry is too long for ai " + "analysis. please keep it " + "under 10,000 characters.", "json", 0);
  }

  lemma TooLongUserMessageLacksParse()
    ensures !Contains("entry is too long for ai " + "analysis. please keep it " + "under 10,000 characters.", "parse")
  {
    PairOfAppend("entry is too long for ai ", "analysis. please keep it ", 'p', 'a');
    PairOfAppend("entry is too long for ai " + "analysis. please keep it ", "under 10,000 characters.", 'p', 'a');
    NotContainsByPair("entry is too long for ai " + "analysis. please keep it " + "under 10,000 characters.", "parse", 0);
  }

  lemma TooLongUserMessageNotInvalidResponse()
    ensures !ContainsAny(Lower(TooLongUserMessage), InvalidResponsePatterns)
  {
    LowerTooLongUserMessage();
    var s := "entry is too long for ai " + "analysis. please keep it " + "under 10,000 characters.";
    ContainsAny3(s, "invalid response", "json", "parse");
    TooLongUserMessageLacksInvalidResponse();
    TooLongUserMessageLacksJson();
    TooLongUserMessageLacksParse();
  }

  /** Thrown with this text, an error is classified `Unknown`. */
  lemma ClassifyTooLongUserMessage(attached: Option<ClassifiedError>)
    ensures ClassifyAIError(ErrorObject(TooLongUserMessage, attached)).kind == Unknown
    ensures ClassifyAIError(ErrorObject(TooLongUserMessage, attached)).canRetry
    ensures ClassifyAIError(ErrorObject(TooLongUserMessage, attached)).userMessage == UnknownUserMessage
  {
    TooLongUserMessageNotApiKey();
    TooLongUserMessageNotRateLimit();
    TooLongUserMessageNotQuota();
    TooLongUserMessageNotTimeout();
    TooLongUserMessageNotNetwork();
    TooLongUserMessageNotInvalidResponse();
    NoPatternIsUnknown(ErrorObject(TooLongUserMessage, attached));
  }

  /** What obtaining the provider client throws when no API key is configured. */
  const MissingKeyMessage: string :=
    "OPENAI_API_KEY is not set" + ". Please add it to your " + ".env.local file."

  lemma LowerMissingKeyMessagePart0()
    ensures Lower("OPENAI_API_KEY is not set") == "openai_api_key is not set"
  {
  }

  lemma LowerMissingKeyMessagePart1()
    ensures Lower(". Please add it to your ") == ". please add it to your "
  {
  }

  lemma LowerMissingKeyMessagePart2()
    ensures Lower(".env.local file.") == ".env.local file."
  {
  }

  lemma LowerMissingKeyMessage()
    ensures Lower(MissingKeyMessage) == "openai_api_key is not set" + ". please add it to your " + ".env.local file."
  {
    LowerMissingKeyMessagePart0();
    LowerMissingKeyMessagePart1();
    LowerMissingKeyMessagePart2();
    LowerAppend("OPENAI_API_KEY is not set", ". Please add it to your ");
    LowerAppend("OPENAI_API_KEY is not set" + ". Please add it to your ", ".env.local file.");
  }

  lemma MissingKeyMessageLacksApiKey()
    ensures !Contains("openai_api_key is not set" + ". please add it to your " + ".env.local file.", "api key")
  {
    PairOfAppend("openai_api_key is not set", ". please add it to your ", 'i', ' ');
    PairOfAppend("openai_api_key is not set" + ". please add it to your ", ".env.local file.", 'i', ' ');
    NotContainsByPair("openai_api_key is not set" + ". please add it to your " + ".env.local file.", "api key", 2);
  }

  lemma MissingKeyMessageLacksUnauthorized()
    ensures !Contains("openai_api_key is not set" + ". please add it to your " + ".env.local file.", "unauthorized")
  {
    NotContainsByChar("openai_api_key is not set" + ". please add it to your " + ".env.local file.", "unauthorized", 5);
  }

  lemma MissingKeyMessageLacks401()
    ensures !Contains("openai_api_key is not set" + ". please add it to your " + ".env.local file.", "401")
  {
    NotContainsByChar("openai_api_key is not set" + ". please add it to your " + ".env.local file.", "401", 0);
  }

  lemma MissingKeyMessageNotApiKey()
    ensures !ContainsAny(Lower(MissingKeyMessage), ApiKeyPatterns)
  {
    LowerMissingKeyMessage();
    var s := "openai_api_key is not set" + ". please add it to your " + ".env.local file.";
    ContainsAny3(s, "api key", "unauthorized", "401");
    MissingKeyMessageLacksApiKey();
    MissingKeyMessageLacksUnauthorized();
    MissingKeyMessageLacks401();
  }

  lemma MissingKeyMessageLacksRateLimit()
    ensures !Contains("openai_api_key is not set" + ". please add it to your " + ".env.local file.", "rate limit")
  {
    NotContainsByChar("openai_api_key is not set" + ". please add it to your " + ".env.local file.", "rate limit", 7);
  }

  lemma MissingKeyMessageLacks429()
    ensures !Contains("openai_api_key is not set" + ". please add it to your " + ".env.local file.", "429")
  {
    NotContainsByChar("openai_api_key is not set" + ". please add it to your " + ".env.local file.", "429", 0);
  }

  lemma MissingKeyMessageLacksTooManyRequests()
    ensures !Contains("openai_api_key is not set" + ". please add it to your " + ".env.local file.", "too many requests")
  {
    NotContainsByChar("openai_api_key is not set" + ". please add it to your " + ".env.local file.", "too many requests", 4);
  }

  lemma MissingKeyMessageNotRateLimit()
    ensures !ContainsAny(Lower(MissingKeyMessage), RateLimitPatterns)
  {
    LowerMissingKeyMessage();
    var s := "openai_api_key is not set" + ". please add it to your " + ".env.local file.";
    ContainsAny3(s, "rate limit", "429", "too many requests");
    MissingKeyMessageLacksRateLimit();
    MissingKeyMessageLacks429();
    MissingKeyMessageLacksTooManyRequests();
  }

  lemma MissingKeyMessageLacksQuota()
    ensures !Contains("openai_api_key is not set" + ". please add it to your " + ".env.local file.", "quota")
  {
    NotContainsByChar("openai_api_key is not set" + ". please add it to your " + ".env.local file.", "quota", 0);
  }

  lemma MissingKeyMessageLacksInsufficient()
    ensures !Contains("openai_api_key is not set" + ". please add it to your " + ".env.local file.", "insufficient")
  {
    PairOfAppend("openai_api_key is not set", ". please add it to your ", 'i', 'n');
    PairOfAppend("openai_api_key is not set" + ". please add it to your ", ".env.local file.", 'i', 'n');
    NotContainsByPair("openai_api_key is not set" + ". please add it to your " + ".env.local file.", "insufficient", 0);
  }

  lemma MissingKeyMessageLacksBilling()
    ensures !Contains("openai_api_key is not set" + ". please add it to your " + ".env.local file.", "billing")
  {
    NotContainsByChar("openai_api_key is not set" + ". please add it to your " + ".env.local file.", "billing", 0);
  }

  lemma MissingKeyMessageLacksCredits()
    ensures !Contains("openai_api_key is not set" + ". please add it to your " + ".env.local file.", "credits")
  {
    PairOfAppend("openai_api_key is not set", ". please add it to your ", 'c', 'r');
    PairOfAppend("openai_api_key is not set" + ". please add it to your ", ".env.local file.", 'c', 'r');
    NotContainsByPair("openai_api_key is not set" + ". please add it to your " + ".env.local file.", "credits", 0);
  }

  lemma MissingKeyMessageNotQuota()
    ensures !ContainsAny(Lower(MissingKeyMessage), QuotaPatterns)
  {
    LowerMissingKeyMessage();
    var s := "openai_api_key is not set" + ". please add it to your " + ".env.local file.";
    ContainsAny4(s, "quota", "insufficient", "billing", "credits");
    MissingKeyMessageLacksQuota();
    MissingKeyMessageLacksInsufficient();
    MissingKeyMessageLacksBilling();
    MissingKeyMessageLacksCredits();
  }

  lemma MissingKeyMessageLacksTimeout()
    ensures !Contains("openai_api_key is not set" + ". please add it to your " + ".env.local file.", "timeout")
  {
    NotContainsByChar("openai_api_key is not set" + ". please add it to your " + ".env.local file.", "timeout", 2);
  }

  lemma MissingKeyMessageLacksTimedOut()
    ensures !Contains("openai_api_key is not set" + ". please add it to your " + ".env.local file.", "timed out")
  {
    NotContainsByChar("openai_api_key is not set" + ". please add it to your " + ".env.local file.", "timed out", 2);
  }

  lemma MissingKeyMessageNotTimeout()
    ensures !ContainsAny(Lower(MissingKeyMessage), TimeoutPatterns)
  {
    LowerMissingKeyMessage();
    var s := "openai_api_key is not set" + ". please add it to your " + ".env.local file.";
    ContainsAny3(s, "timeout", "timed out", "ETIMEDOUT");
    MissingKeyMessageLacksTimeout();
    MissingKeyMessageLacksTimedOut();
    UpperPatternNeverInLower(MissingKeyMessage, "ETIMEDOUT", 0);
  }

  lemma MissingKeyMessageLacksNetwork()
    ensures !Contains("openai_api_key is not set" + ". please add it to your " + ".env.local file.", "network")
  {
    NotContainsByChar("openai_api_key is not set" + ". please add it to your " + ".env.local file.", "network", 3);
  }

  lemma MissingKeyMessageLacksFetchFailed()
    ensures !Contains("openai_api_key is not set" + ". please add it to your " + ".env.local file.", "fetch failed")
  {
    NotContainsByChar("openai_api_key is not set" + ". please add it to your " + ".env.local file.", "fetch failed", 4);
  }

  lemma MissingKeyMessageNotNetwork()
    ensures !ContainsAny(Lower(MissingKeyMessage), NetworkPatterns)
  {
    LowerMissingKeyMessage();
    var s := "openai_api_key is not set" + ". please add it to your " + ".env.local file.";
    ContainsAny4(s, "network", "ECONNREFUSED", "ENOTFOUND", "fetch failed");
    MissingKeyMessageLacksNetwork();
    UpperPatternNeverInLower(MissingKeyMessage, "ECONNREFUSED", 0);
    UpperPatternNeverInLower(MissingKeyMessage, "ENOTFOUND", 0);
    MissingKeyMessageLacksFetchFailed();
  }

  lemma MissingKeyMessageLacksInvalidResponse()
    ensures !Contains("openai_api_key is not set" + ". please add it to your " + ".env.local file.", "invalid response")
  {
    PairOfAppend("openai_api_key is not set", ". please add it to your ", 'i', 'n');
    PairOfAppend("openai_api_key is not set" + ". please add it to your ", ".env.local file.", 'i', 'n');
    NotContainsByPair("openai_api_key is not set" + ". please add it to your " + ".env.local file.", "invalid response", 0);
  }

  lemma MissingKeyMessageLacksJson()
    ensures !Contains("openai_api_key is not set" + ". please add it to your " + ".env.local file.", "json")
  {
    NotContainsByChar("openai_api_key is not set" + ". please add it to your " + ".env.local file.", "json", 0);
  }

  lemma MissingKeyMessageLacksParse()
    ensures !Contains("openai_api_key is not set" + ". please add it to your " + ".env.local file.", "parse")
  {
    PairOfAppend("openai_api_key is not set", ". please add it to your ", 'p', 'a');
    PairOfAppend("openai_api_key is not set" + ". please add it to your ", ".env.local file.", 'p', 'a');
    NotContainsByPair("openai_api_key is not set" + ". please add it to your " + ".env.local file.", "parse", 0);
  }

  lemma MissingKeyMessageNotInvalidResponse()
    ensures !ContainsAny(Lower(MissingKeyMessage), InvalidResponsePatterns)
  {
    LowerMissingKeyMessage();
    var s := "openai_api_key is not set" + ". please add it to your " + ".env.local file.";
    ContainsAny3(s, "invalid response", "json", "parse");
    MissingKeyMessageLacksInvalidResponse();
    MissingKeyMessageLacksJson();
    MissingKeyMessageLacksParse();
  }

  /** Thrown with this text, an error is classified `Unknown`. */
  lemma ClassifyMissingKeyMessage(attached: Option<ClassifiedError>)
    ensures ClassifyAIError(ErrorObject(MissingKeyMessage, attached)).kind == Unknown
    ensures ClassifyAIError(ErrorObject(MissingKeyMessage, attached)).canRetry
    ensures ClassifyAIError(ErrorObject(MissingKeyMessage, attached)).userMessage == UnknownUserMessage
  {
    MissingKeyMessageNotApiKey();
    MissingKeyMessageNotRateLimit();
    MissingKeyMessageNotQuota();
    MissingKeyMessageNotTimeout();
    MissingKeyMessageNotNetwork();
    MissingKeyMessageNotInvalidResponse();
    NoPatternIsUnknown(ErrorObject(MissingKeyMessage, attached));
  }

  /** What the entry analysis throws when the reply has no content. */
  const NoResponseMessage: string :=
    "No response from OpenAI"

  lemma LowerNoResponseMessagePart0()
    ensures Lower("No response from OpenAI") == "no response from openai"
  {
  }

  lemma LowerNoResponseMessage()
    ensures Lower(NoResponseMessage) == "no response from openai"
  {
    LowerNoResponseMessagePart0();
  }

  lemma NoResponseMessageLacksApiKey()
    ensures !Contains("no response from openai", "api key")
  {
    NotContainsByChar("no response from openai", "api key", 4);
  }

  lemma NoResponseMessageLacksUnauthorized()
    ensures !Contains("no response from openai", "unauthorized")
  {
    NotContainsByChar("no response from openai", "unauthorized", 0);
  }

  lemma NoResponseMessageLacks401()
    ensures !Contains("no response from openai", "401")
  {
    NotContainsByChar("no response from openai", "401", 0);
  }

  lemma NoResponseMessageNotApiKey()
    ensures !ContainsAny(Lower(NoResponseMessage), ApiKeyPatterns)
  {
    LowerNoResponseMessage();
    var s := "no response from openai";
    ContainsAny3(s, "api key", "unauthorized", "401");
    NoResponseMessageLacksApiKey();
    NoResponseMessageLacksUnauthorized();
    NoResponseMessageLacks401();
  }

  lemma NoResponseMessageLacksRateLimit()
    ensures !Contains("no response from openai", "rate limit")
  {
    NotContainsByChar("no response from openai", "rate limit", 2);
  }

  lemma NoResponseMessageLacks429()
    ensures !Contains("no response from openai", "429")
  {
    NotContainsByChar("no response from openai", "429", 0);
  }

  lemma NoResponseMessageLacksTooManyRequests()
    ensures !Contains("no response from openai", "too many requests")
  {
    NotContainsByChar("no response from openai", "too many requests", 0);
  }

  lemma NoResponseMessageNotRateLimit()
    ensures !ContainsAny(Lower(NoResponseMessage), RateLimitPatterns)
  {
    LowerNoResponseMessage();
    var s := "no response from openai";
    ContainsAny3(s, "rate limit", "429", "too many requests");
    NoResponseMessageLacksRateLimit();
    NoResponseMessageLacks429();
    NoResponseMessageLacksTooManyRequests();
  }

  lemma NoResponseMessageLacksQuota()
    ensures !Contains("no response from openai", "quota")
  {
    NotContainsByChar("no response from openai", "quota", 0);
  }

  lemma NoResponseMessageLacksInsufficient()
    ensures !Contains("no response from openai", "insufficient")
  {
    NotContainsByChar("no response from openai", "insufficient", 3);
  }

  lemma NoResponseMessageLacksBilling()
    ensures !Contains("no response from openai", "billing")
  {
    NotContainsByChar("no response from openai", "billing", 0);
  }

  lemma NoResponseMessageLacksCredits()
    ensures !Contains("no response from openai", "credits")
  {
    NotContainsByChar("no response from openai", "credits", 0);
  }

  lemma NoResponseMessageNotQuota()
    ensures !ContainsAny(Lower(NoResponseMessage), QuotaPatterns)
  {
    LowerNoResponseMessage();
    var s := "no response from openai";
    ContainsAny4(s, "quota", "insufficient", "billing", "credits");
    NoResponseMessageLacksQuota();
    NoResponseMessageLacksInsufficient();
    NoResponseMessageLacksBilling();
    NoResponseMessageLacksCredits();
  }

  lemma NoResponseMessageLacksTimeout()
    ensures !Contains("no response from openai", "timeout")
  {
    NotContainsByChar("no response from openai", "timeout", 0);
  }

  lemma NoResponseMessageLacksTimedOut()
    ensures !Contains("no response from openai", "timed out")
  {
    NotContainsByChar("no response from openai", "timed out", 0);
  }

  lemma NoResponseMessageNotTimeout()
    ensures !ContainsAny(Lower(NoResponseMessage), TimeoutPatterns)
  {
    LowerNoResponseMessage();
    var s := "no response from openai";
    ContainsAny3(s, "timeout", "timed out", "ETIMEDOUT");
    NoResponseMessageLacksTimeout();
    NoResponseMessageLacksTimedOut();
    UpperPatternNeverInLower(NoResponseMessage, "ETIMEDOUT", 0);
  }

  lemma NoResponseMessageLacksNetwork()
    ensures !Contains("no response from openai", "network")
  {
    NotContainsByChar("no response from openai", "network", 2);
  }

  lemma NoResponseMessageLacksFetchFailed()
    ensures !Contains("no response from openai", "fetch failed")
  {
    NotContainsByChar("no response from openai", "fetch failed", 2);
  }

  lemma NoResponseMessageNotNetwork()
    ensures !ContainsAny(Lower(NoResponseMessage), NetworkPatterns)
  {
    LowerNoResponseMessage();
    var s := "no response from openai";
    ContainsAny4(s, "network", "ECONNREFUSED", "ENOTFOUND", "fetch failed");
    NoResponseMessageLacksNetwork();
    UpperPatternNeverInLower(NoResponseMessage, "ECONNREFUSED", 0);
    UpperPatternNeverInLower(NoResponseMessage, "ENOTFOUND", 0);
    NoResponseMessageLacksFetchFailed();
  }

  lemma NoResponseMessageLacksInvalidResponse()
    ensures !Contains("no response from openai", "invalid response")
  {
    NotContainsByChar("no response from openai", "invalid response", 2);
  }

  lemma NoResponseMessageLacksJson()
    ensures !Contains("no response from openai", "json")
  {
    NotContainsByChar("no response from openai", "json", 0);
  }

  lemma NoResponseMessageLacksParse()
    ensures !Contains("no response from openai", "parse")
  {
    NotContainsByPair("no response from openai", "parse", 0);
  }

  lemma NoResponseMessageNotInvalidResponse()
    ensures !ContainsAny(Lower(NoResponseMessage), InvalidResponsePatterns)
  {
    LowerNoResponseMessage();
    var s := "no response from openai";
    ContainsAny3(s, "invalid response", "json", "parse");
    NoResponseMessageLacksInvalidResponse();
    NoResponseMessageLacksJson();
    NoResponseMessageLacksParse();
  }

  /** Thrown with this text, an error is classified `Unknown`. */
  lemma ClassifyNoResponseMessage(attached: Option<ClassifiedError>)
    ensures ClassifyAIError(ErrorObject(NoResponseMessage, attached)).kind == Unknown
    ensures ClassifyAIError(ErrorObject(NoResponseMessage, attached)).canRetry
    ensures ClassifyAIError(ErrorObject(NoResponseMessage, attached)).userMessage == UnknownUserMessage
  {
    NoResponseMessageNotApiKey();
    NoResponseMessageNotRateLimit();
    NoResponseMessageNotQuota();
    NoResponseMessageNotTimeout();
    NoResponseMessageNotNetwork();
    NoResponseMessageNotInvalidResponse();
    NoPatternIsUnknown(ErrorObject(NoResponseMessage, attached));
  }

  /** The rejection of the entry analysis' own 30-second timer. */
  const WrapperTimeoutMessage: string :=
    "Request timed out after " + "30000ms"

  lemma LowerWrapperTimeoutMessagePart0()
    ensures Lower("Request timed out after ") == "request timed out after "
  {
  }

  lemma LowerWrapperTimeoutMessagePart1()
    ensures Lower("30000ms") == "30000ms"
  {
  }

  lemma LowerWrapperTimeoutMessage()
    ensures Lower(WrapperTimeoutMessage) == "request timed out after " + "30000ms"
  {
    LowerWrapperTimeoutMessagePart0();
    LowerWrapperTimeoutMessagePart1();
    LowerAppend("Request timed out after ", "30000ms");
  }

  lemma WrapperTimeoutMessageLacksApiKey()
    ensures !Contains("request timed out after " + "30000ms", "api key")
  {
    NotContainsByChar("request timed out after " + "30000ms", "api key", 1);
  }

  lemma WrapperTimeoutMessageLacksUnauthorized()
    ensures !Contains("request timed out after " + "30000ms", "unauthorized")
  {
    NotContainsByChar("request timed out after " + "30000ms", "unauthorized", 1);
  }

  lemma WrapperTimeoutMessageLacks401()
    ensures !Contains("request timed out after " + "30000ms", "401")
  {
    NotContainsByChar("request timed out after " + "30000ms", "401", 0);
  }

  lemma WrapperTimeoutMessageNotApiKey()
    ensures !ContainsAny(Lower(WrapperTimeoutMessage), ApiKeyPatterns)
  {
    LowerWrapperTimeoutMessage();
    var s := "request timed out after " + "30000ms";
    ContainsAny3(s, "api key", "unauthorized", "401");
    WrapperTimeoutMessageLacksApiKey();
    WrapperTimeoutMessageLacksUnauthorized();
    WrapperTimeoutMessageLacks401();
  }

  lemma WrapperTimeoutMessageLacksRateLimit()
    ensures !Contains("request timed out after " + "30000ms", "rate limit")
  {
    NotContainsByChar("request timed out after " + "30000ms", "rate limit", 5);
  }

  lemma WrapperTimeoutMessageLacks429()
    ensures !Contains("request timed out after " + "30000ms", "429")
  {
    NotContainsByChar("request timed out after " + "30000ms", "429", 0);
  }

  lemma WrapperTimeoutMessageLacksTooManyRequests()
    ensures !Contains("request timed out after " + "30000ms", "too many requests")
  {
    NotContainsByChar("request timed out after " + "30000ms", "too many requests", 6);
  }

  lemma WrapperTimeoutMessageNotRateLimit()
    ensures !ContainsAny(Lower(WrapperTimeoutMessage), RateLimitPatterns)
  {
    LowerWrapperTimeoutMessage();
    var s := "request timed out after " + "30000ms";
    ContainsAny3(s, "rate limit", "429", "too many requests");
    WrapperTimeoutMessageLacksRateLimit();
    WrapperTimeoutMessageLacks429();
    WrapperTimeoutMessageLacksTooManyRequests();
  }

  lemma WrapperTimeoutMessageLacksQuota()
    ensures !Contains("request timed out after " + "30000ms", "quota")
  {
    PairOfAppend("request timed out after ", "30000ms", 'u', 'o');
    NotContainsByPair("request timed out after " + "30000ms", "quota", 1);
  }

  lemma WrapperTimeoutMessageLacksInsufficient()
    ensures !Contains("request timed out after " + "30000ms", "insufficient")
  {
    NotContainsByChar("request timed out after " + "30000ms", "insufficient", 1);
  }

  lemma WrapperTimeoutMessageLacksBilling()
    ensures !Contains("request timed out after " + "30000ms", "billing")
  {
    NotContainsByChar("request timed out after " + "30000ms", "billing", 0);
  }

  lemma WrapperTimeoutMessageLacksCredits()
    ensures !Contains("request timed out after " + "30000ms", "credits")
  {
    NotContainsByChar("request timed out after " + "30000ms", "credits", 0);
  }

  lemma WrapperTimeoutMessageNotQuota()
    ensures !ContainsAny(Lower(WrapperTimeoutMessage), QuotaPatterns)
  {
    LowerWrapperTimeoutMessage();
    var s := "request timed out after " + "30000ms";
    ContainsAny4(s, "quota", "insufficient", "billing", "credits");
    WrapperTimeoutMessageLacksQuota();
    WrapperTimeoutMessageLacksInsufficient();
    WrapperTimeoutMessageLacksBilling();
    WrapperTimeoutMessageLacksCredits();
  }

  lemma WrapperTimeoutMessageHasTimeout()
    ensures ContainsAny(Lower(WrapperTimeoutMessage), TimeoutPatterns)
  {
    LowerWrapperTimeoutMessage();
    var s := "request timed out after " + "30000ms";
    assert s[8..17] == "timed out";
    ContainsAt(s, "timed out", 8);
    assert TimeoutPatterns[1] == "timed out";
  }

  /** Thrown with this text, an error is classified `Timeout`. */
  lemma ClassifyWrapperTimeoutMessage(attached: Option<ClassifiedError>)
    ensures ClassifyAIError(ErrorObject(WrapperTimeoutMessage, attached)).kind == Timeout
    ensures ClassifyAIError(ErrorObject(WrapperTimeoutMessage, attached)).canRetry
    ensures ClassifyAIError(ErrorObject(WrapperTimeoutMessage, attached)).userMessage == TimeoutUserMessage
  {
    WrapperTimeoutMessageNotApiKey();
    WrapperTimeoutMessageNotRateLimit();
    WrapperTimeoutMessageNotQuota();
    WrapperTimeoutMessageHasTimeout();
    TimeoutGroupDecides(ErrorObject(WrapperTimeoutMessage, attached));
  }

  /** What the entry analysis throws when the parsed reply lacks a field. */
  const InvalidStructureMessage: string :=
    "Invalid response " + "structure from OpenAI"

  lemma LowerInvalidStructureMessagePart0()
    ensures Lower("Invalid response ") == "invalid response "
  {
  }

  lemma LowerInvalidStructureMessagePart1()
    ensures Lower("structure from OpenAI") == "structure from openai"
  {
  }

  lemma LowerInvalidStructureMessage()
    ensures Lower(InvalidStructureMessage) == "invalid response " + "structure from openai"
  {
    LowerInvalidStructureMessagePart0();
    LowerInvalidStructureMessagePart1();
    LowerAppend("Invalid response ", "structure from OpenAI");
  }

  lemma InvalidStructureMessageLacksApiKey()
    ensures !Contains("invalid response " + "structure from openai", "api key")
  {
    NotContainsByChar("invalid response " + "structure from openai", "api key", 4);
  }

  lemma InvalidStructureMessageLacksUnauthorized()
    ensures !Contains("invalid response " + "structure from openai", "unauthorized")
  {
    NotContainsByChar("invalid response " + "structure from openai", "unauthorized", 5);
  }

  lemma InvalidStructureMessageLacks401()
    ensures !Contains("invalid response " + "structure from openai", "401")
  {
    NotContainsByChar("invalid response " + "structure from openai", "401", 0);
  }

  lemma InvalidStructureMessageNotApiKey()
    ensures !ContainsAny(Lower(InvalidStructureMessage), ApiKeyPatterns)
  {
    LowerInvalidStructureMessage();
    var s := "invalid response " + "structure from openai";
    ContainsAny3(s, "api key", "unauthorized", "401");
    InvalidStructureMessageLacksApiKey();
    InvalidStructureMessageLacksUnauthorized();
    InvalidStructureMessageLacks401();
  }

  lemma InvalidStructureMessageLacksRateLimit()
    ensures !Contains("invalid response " + "structure from openai", "rate limit")
  {
    PairOfAppend("invalid response ", "structure from openai", 'r', 'a');
    NotContainsByPair("invalid response " + "structure from openai", "rate limit", 0);
  }

  lemma InvalidStructureMessageLacks429()
    ensures !Contains("invalid response " + "structure from openai", "429")
  {
    NotContainsByChar("invalid response " + "structure from openai", "429", 0);
  }

  lemma InvalidStructureMessageLacksTooManyRequests()
    ensures !Contains("invalid response " + "structure from openai", "too many requests")
  {
    NotContainsByChar("invalid response " + "structure from openai", "too many requests", 7);
  }

  lemma InvalidStructureMessageNotRateLimit()
    ensures !ContainsAny(Lower(InvalidStructureMessage), RateLimitPatterns)
  {
    LowerInvalidStructureMessage();
    var s := "invalid response " + "structure from openai";
    ContainsAny3(s, "rate limit", "429", "too many requests");
    InvalidStructureMessageLacksRateLimit();
    InvalidStructureMessageLacks429();
    InvalidStructureMessageLacksTooManyRequests();
  }

  lemma InvalidStructureMessageLacksQuota()
    ensures !Contains("invalid response " + "structure from openai", "quota")
  {
    NotContainsByChar("invalid response " + "structure from openai", "quota", 0);
  }

  lemma InvalidStructureMessageLacksInsufficient()
    ensures !Contains("invalid response " + "structure from openai", "insufficient")
  {
    PairOfAppend("invalid response ", "structure from openai", 's', 'u');
    NotContainsByPair("invalid response " + "structure from openai", "insufficient", 2);
  }

  lemma InvalidStructureMessageLacksBilling()
    ensures !Contains("invalid response " + "structure from openai", "billing")
  {
    NotContainsByChar("invalid response " + "structure from openai", "billing", 0);
  }

  lemma InvalidStructureMessageLacksCredits()
    ensures !Contains("invalid response " + "structure from openai", "credits")
  {
    PairOfAppend("invalid response ", "structure from openai", 'c', 'r');
    NotContainsByPair("invalid response " + "structure from openai", "credits", 0);
  }

  lemma InvalidStructureMessageNotQuota()
    ensures !ContainsAny(Lower(InvalidStructureMessage), QuotaPatterns)
  {
    LowerInvalidStructureMessage();
    var s := "invalid response " + "structure from openai";
    ContainsAny4(s, "quota", "insufficient", "billing", "credits");
    InvalidStructureMessageLacksQuota();
    InvalidStructureMessageLacksInsufficient();
    InvalidStructureMessageLacksBilling();
    InvalidStructureMessageLacksCredits();
  }

  lemma InvalidStructureMessageLacksTimeout()
    ensures !Contains("invalid response " + "structure from openai", "timeout")
  {
    PairOfAppend("invalid response ", "structure from openai", 't', 'i');
    NotContainsByPair("invalid response " + "structure from openai", "timeout", 0);
  }

  lemma InvalidStructureMessageLacksTimedOut()
    ensures !Contains("invalid response " + "structure from openai", "timed out")
  {
    PairOfAppend("invalid response ", "structure from openai", 't', 'i');
    NotContainsByPair("invalid response " + "structure from openai", "timed out", 0);
  }

  lemma InvalidStructureMessageNotTimeout()
    ensures !ContainsAny(Lower(InvalidStructureMessage), TimeoutPatterns)
  {
    LowerInvalidStructureMessage();
    var s := "invalid response " + "structure from openai";
    ContainsAny3(s, "timeout", "timed out", "ETIMEDOUT");
    InvalidStructureMessageLacksTimeout();
    InvalidStructureMessageLacksTimedOut();
    UpperPatternNeverInLower(InvalidStructureMessage, "ETIMEDOUT", 0);
  }

  lemma InvalidStructureMessageLacksNetwork()
    ensures !Contains("invalid response " + "structure from openai", "network")
  {
    NotContainsByChar("invalid response " + "structure from openai", "network", 3);
  }

  lemma InvalidStructureMessageLacksFetchFailed()
    ensures !Contains("invalid response " + "structure from openai", "fetch failed")
  {
    NotContainsByChar("invalid response " + "structure from openai", "fetch failed", 4);
  }

  lemma InvalidStructureMessageNotNetwork()
    ensures !ContainsAny(Lower(InvalidStructureMessage), NetworkPatterns)
  {
    LowerInvalidStructureMessage();
    var s := "invalid response " + "structure from openai";
    ContainsAny4(s, "network", "ECONNREFUSED", "ENOTFOUND", "fetch failed");
    InvalidStructureMessageLacksNetwork();
    UpperPatternNeverInLower(InvalidStructureMessage, "ECONNREFUSED", 0);
    UpperPatternNeverInLower(InvalidStructureMessage, "ENOTFOUND", 0);
    InvalidStructureMessageLacksFetchFailed();
  }

  lemma InvalidStructureMessageHasInvalidResponse()
    ensures ContainsAny(Lower(InvalidStructureMessage), InvalidResponsePatterns)
  {
    LowerInvalidStructureMessage();
    var s := "invalid response " + "structure from openai";
    assert s[0..16] == "invalid response";
    ContainsAt(s, "invalid response", 0);
    assert InvalidResponsePatterns[0] == "invalid response";
  }

  /** Thrown with this text, an error is classified `InvalidResponse`. */
  lemma ClassifyInvalidStructureMessage(attached: Option<ClassifiedError>)
    ensures ClassifyAIError(ErrorObject(InvalidStructureMessage, attached)).kind == InvalidResponse
    ensures ClassifyAIError(ErrorObject(InvalidStructureMessage, attached)).canRetry
    ensures ClassifyAIError(ErrorObject(InvalidStructureMessage, attached)).userMessage == InvalidResponseUserMessage
  {
    InvalidStructureMessageNotApiKey();
    InvalidStructureMessageNotRateLimit();
    InvalidStructureMessageNotQuota();
    InvalidStructureMessageNotTimeout();
    InvalidStructureMessageNotNetwork();
    InvalidStructureMessageHasInvalidResponse();
    InvalidResponseGroupDecides(ErrorObject(InvalidStructureMessage, attached));
  }

  /** The TypeError of reading `summary` from a reply that parses to `null`. */
  const NullReplyMessage: string :=
    "Cannot read properties of" + " null (reading 'summary')"

  lemma LowerNullReplyMessagePart0()
    ensures Lower("Cannot read properties of") == "cannot read properties of"
  {
  }

  lemma LowerNullReplyMessagePart1()
    ensures Lower(" null (reading 'summary')") == " null (reading 'summary')"
  {
  }

  lemma LowerNullReplyMessage()
    ensures Lower(NullReplyMessage) == "cannot read properties of" + " null (reading 'summary')"
  {
    LowerNullReplyMessagePart0();
    LowerNullReplyMessagePart1();
    LowerAppend("Cannot read properties of", " null (reading 'summary')");
  }

  lemma NullReplyMessageLacksApiKey()
    ensures !Contains("cannot read properties of" + " null (reading 'summary')", "api key")
  {
    NotContainsByChar("cannot read properties of" + " null (reading 'summary')", "api key", 4);
  }

  lemma NullReplyMessageLacksUnauthorized()
    ensures !Contains("cannot read properties of" + " null (reading 'summary')", "unauthorized")
  {
    NotContainsByChar("cannot read properties of" + " null (reading 'summary')", "unauthorized", 5);
  }

  lemma NullReplyMessageLacks401()
    ensures !Contains("cannot read properties of" + " null (reading 'summary')", "401")
  {
    NotContainsByChar("cannot read properties of" + " null (reading 'summary')", "401", 0);
  }

  lemma NullReplyMessageNotApiKey()
    ensures !ContainsAny(Lower(NullReplyMessage), ApiKeyPatterns)
  {
    LowerNullReplyMessage();
    var s := "cannot read properties of" + " null (reading 'summary')";
    ContainsAny3(s, "api key", "unauthorized", "401");
    NullReplyMessageLacksApiKey();
    NullReplyMessageLacksUnauthorized();
    NullReplyMessageLacks401();
  }

  lemma NullReplyMessageLacksRateLimit()
    ensures !Contains("cannot read properties of" + " null (reading 'summary')", "rate limit")
  {
    PairOfAppend("cannot read properties of", " null (reading 'summary')", 'r', 'a');
    NotContainsByPair("cannot read properties of" + " null (reading 'summary')", "rate limit", 0);
  }

  lemma NullReplyMessageLacks429()
    ensures !Contains("cannot read properties of" + " null (reading 'summary')", "429")
  {
    NotContainsByChar("cannot read properties of" + " null (reading 'summary')", "429", 0);
  }

  lemma NullReplyMessageLacksTooManyRequests()
    ensures !Contains("cannot read properties of" + " null (reading 'summary')", "too many requests")
  {
    NotContainsByChar("cannot read properties of" + " null (reading 'summary')", "too many requests", 11);
  }

  lemma NullReplyMessageNotRateLimit()
    ensures !ContainsAny(Lower(NullReplyMessage), RateLimitPatterns)
  {
    LowerNullReplyMessage();
    var s := "cannot read properties of" + " null (reading 'summary')";
    ContainsAny3(s, "rate limit", "429", "too many requests");
    NullReplyMessageLacksRateLimit();
    NullReplyMessageLacks429();
    NullReplyMessageLacksTooManyRequests();
  }

  lemma NullReplyMessageLacksQuota()
    ensures !Contains("cannot read properties of" + " null (reading 'summary')", "quota")
  {
    NotContainsByChar("cannot read properties of" + " null (reading 'summary')", "quota", 0);
  }

  lemma NullReplyMessageLacksInsufficient()
    ensures !Contains("cannot read properties of" + " null (reading 'summary')", "insufficient")
  {
    PairOfAppend("cannot read properties of", " null (reading 'summary')", 'n', 's');
    NotContainsByPair("cannot read properties of" + " null (reading 'summary')", "insufficient", 1);
  }

  lemma NullReplyMessageLacksBilling()
    ensures !Contains("cannot read properties of" + " null (reading 'summary')", "billing")
  {
    NotContainsByChar("cannot read properties of" + " null (reading 'summary')", "billing", 0);
  }

  lemma NullReplyMessageLacksCredits()
    ensures !Contains("cannot read properties of" + " null (reading 'summary')", "credits")
  {
    PairOfAppend("cannot read properties of", " null (reading 'summary')", 'c', 'r');
    NotContainsByPair("cannot read properties of" + " null (reading 'summary')", "credits", 0);
  }

  lemma NullReplyMessageNotQuota()
    ensures !ContainsAny(Lower(NullReplyMessage), QuotaPatterns)
  {
    LowerNullReplyMessage();
    var s := "cannot read properties of" + " null (reading 'summary')";
    ContainsAny4(s, "quota", "insufficient", "billing", "credits");
    NullReplyMessageLacksQuota();
    NullReplyMessageLacksInsufficient();
    NullReplyMessageLacksBilling();
    NullReplyMessageLacksCredits();
  }

  lemma NullReplyMessageLacksTimeout()
    ensures !Contains("cannot read properties of" + " null (reading 'summary')", "timeout")
  {
    PairOfAppend("cannot read properties of", " null (reading 'summary')", 'i', 'm');
    NotContainsByPair("cannot read properties of" + " null (reading 'summary')", "timeout", 1);
  }

  lemma NullReplyMessageLacksTimedOut()
    ensures !Contains("cannot read properties of" + " null (reading 'summary')", "timed out")
  {
    PairOfAppend("cannot read properties of", " null (reading 'summary')", 'i', 'm');
    NotContainsByPair("cannot read properties of" + " null (reading 'summary')", "timed out", 1);
  }

  lemma NullReplyMessageNotTimeout()
    ensures !ContainsAny(Lower(NullReplyMessage), TimeoutPatterns)
  {
    LowerNullReplyMessage();
    var s := "cannot read properties of" + " null (reading 'summary')";
    ContainsAny3(s, "timeout", "timed out", "ETIMEDOUT");
    NullReplyMessageLacksTimeout();
    NullReplyMessageLacksTimedOut();
    UpperPatternNeverInLower(NullReplyMessage, "ETIMEDOUT", 0);
  }

  lemma NullReplyMessageLacksNetwork()
    ensures !Contains("cannot read properties of" + " null (reading 'summary')", "network")
  {
    NotContainsByChar("cannot read properties of" + " null (reading 'summary')", "network", 3);
  }

  lemma NullReplyMessageLacksFetchFailed()
    ensures !Contains("cannot read properties of" + " null (reading 'summary')", "fetch failed")
  {
    NotContainsByChar("cannot read properties of" + " null (reading 'summary')", "fetch failed", 4);
  }

  lemma NullReplyMessageNotNetwork()
    ensures !ContainsAny(Lower(NullReplyMessage), NetworkPatterns)
  {
    LowerNullReplyMessage();
    var s := "cannot read properties of" + " null (reading 'summary')";
    ContainsAny4(s, "network", "ECONNREFUSED", "ENOTFOUND", "fetch failed");
    NullReplyMessageLacksNetwork();
    UpperPatternNeverInLower(NullReplyMessage, "ECONNREFUSED", 0);
    UpperPatternNeverInLower(NullReplyMessage, "ENOTFOUND", 0);
    NullReplyMessageLacksFetchFailed();
  }

  lemma NullReplyMessageLacksInvalidResponse()
    ensures !Contains("cannot read properties of" + " null (reading 'summary')", "invalid response")
  {
    NotContainsByChar("cannot read properties of" + " null (reading 'summary')", "invalid response", 2);
  }

  lemma NullReplyMessageLacksJson()
    ensures !Contains("cannot read properties of" + " null (reading 'summary')", "json")
  {
    NotContainsByChar("cannot read properties of" + " null (reading 'summary')", "json", 0);
  }

  lemma NullReplyMessageLacksParse()
    ensures !Contains("cannot read properties of" + " null (reading 'summary')", "parse")
  {
    PairOfAppend("cannot read properties of", " null (reading 'summary')", 'p', 'a');
    NotContainsByPair("cannot read properties of" + " null (reading 'summary')", "parse", 0);
  }

  lemma NullReplyMessageNotInvalidResponse()
    ensures !ContainsAny(Lower(NullReplyMessage), InvalidResponsePatterns)
  {
    LowerNullReplyMessage();
    var s := "cannot read properties of" + " null (reading 'summary')";
    ContainsAny3(s, "invalid response", "json", "parse");
    NullReplyMessageLacksInvalidResponse();
    NullReplyMessageLacksJson();
    NullReplyMessageLacksParse();
  }

  /** Thrown with this text, an error is classified `Unknown`. */
  lemma ClassifyNullReplyMessage(attached: Option<ClassifiedError>)
    ensures ClassifyAIError(ErrorObject(NullReplyMessage, attached)).kind == Unknown
    ensures ClassifyAIError(ErrorObject(NullReplyMessage, attached)).canRetry
    ensures ClassifyAIError(ErrorObject(NullReplyMessage, attached)).userMessage == UnknownUserMessage
  {
    NullReplyMessageNotApiKey();
    NullReplyMessageNotRateLimit();
    NullReplyMessageNotQuota();
    NullReplyMessageNotTimeout();
    NullReplyMessageNotNetwork();
    NullReplyMessageNotInvalidResponse();
    NoPatternIsUnknown(ErrorObject(NullReplyMessage, attached));
  }

  /** What the batch insight throws when the reply has no content. */
  const EmptyResponseMessage: string :=
    "Empty response from OpenAI"

  lemma LowerEmptyResponseMessagePart0()
    ensures Lower("Empty response from OpenAI") == "empty response from openai"
  {
  }

  lemma LowerEmptyResponseMessage()
    ensures Lower(EmptyResponseMessage) == "empty response from openai"
  {
    LowerEmptyResponseMessagePart0();
  }

  lemma EmptyResponseMessageLacksApiKey()
    ensures !Contains("empty response from openai", "api key")
  {
    NotContainsByChar("empty response from openai", "api key", 4);
  }

  lemma EmptyResponseMessageLacksUnauthorized()
    ensures !Contains("empty response from openai", "unauthorized")
  {
    NotContainsByChar("empty response from openai", "unauthorized", 0);
  }

  lemma EmptyResponseMessageLacks401()
    ensures !Contains("empty response from openai", "401")
  {
    NotContainsByChar("empty response from openai", "401", 0);
  }

  lemma EmptyResponseMessageNotApiKey()
    ensures !ContainsAny(Lower(EmptyResponseMessage), ApiKeyPatterns)
  {
    LowerEmptyResponseMessage();
    var s := "empty response from openai";
    ContainsAny3(s, "api key", "unauthorized", "401");
    EmptyResponseMessageLacksApiKey();
    EmptyResponseMessageLacksUnauthorized();
    EmptyResponseMessageLacks401();
  }

  lemma EmptyResponseMessageLacksRateLimit()
    ensures !Contains("empty response from openai", "rate limit")
  {
    NotContainsByChar("empty response from openai", "rate limit", 5);
  }

  lemma EmptyResponseMessageLacks429()
    ensures !Contains("empty response from openai", "429")
  {
    NotContainsByChar("empty response from openai", "429", 0);
  }

  lemma EmptyResponseMessageLacksTooManyRequests()
    ensures !Contains("empty response from openai", "too many requests")
  {
    NotContainsByChar("empty response from openai", "too many requests", 11);
  }

  lemma EmptyResponseMessageNotRateLimit()
    ensures !ContainsAny(Lower(EmptyResponseMessage), RateLimitPatterns)
  {
    LowerEmptyResponseMessage();
    var s := "empty response from openai";
    ContainsAny3(s, "rate limit", "429", "too many requests");
    EmptyResponseMessageLacksRateLimit();
    EmptyResponseMessageLacks429();
    EmptyResponseMessageLacksTooManyRequests();
  }

  lemma EmptyResponseMessageLacksQuota()
    ensures !Contains("empty response from openai", "quota")
  {
    NotContainsByChar("empty response from openai", "quota", 0);
  }

  lemma EmptyResponseMessageLacksInsufficient()
    ensures !Contains("empty response from openai", "insufficient")
  {
    NotContainsByChar("empty response from openai", "insufficient", 3);
  }

  lemma EmptyResponseMessageLacksBilling()
    ensures !Contains("empty response from openai", "billing")
  {
    NotContainsByChar("empty response from openai", "billing", 0);
  }

  lemma EmptyResponseMessageLacksCredits()
    ensures !Contains("empty response from openai", "credits")
  {
    NotContainsByChar("empty response from openai", "credits", 0);
  }

  lemma EmptyResponseMessageNotQuota()
    ensures !ContainsAny(Lower(EmptyResponseMessage), QuotaPatterns)
  {
    LowerEmptyResponseMessage();
    var s := "empty response from openai";
    ContainsAny4(s, "quota", "insufficient", "billing", "credits");
    EmptyResponseMessageLacksQuota();
    EmptyResponseMessageLacksInsufficient();
    EmptyResponseMessageLacksBilling();
    EmptyResponseMessageLacksCredits();
  }

  lemma EmptyResponseMessageLacksTimeout()
    ensures !Contains("empty response from openai", "timeout")
  {
    NotContainsByChar("empty response from openai", "timeout", 5);
  }

  lemma EmptyResponseMessageLacksTimedOut()
    ensures !Contains("empty response from openai", "timed out")
  {
    NotContainsByChar("empty response from openai", "timed out", 4);
  }

  lemma EmptyResponseMessageNotTimeout()
    ensures !ContainsAny(Lower(EmptyResponseMessage), TimeoutPatterns)
  {
    LowerEmptyResponseMessage();
    var s := "empty response from openai";
    ContainsAny3(s, "timeout", "timed out", "ETIMEDOUT");
    EmptyResponseMessageLacksTimeout();
    EmptyResponseMessageLacksTimedOut();
    UpperPatternNeverInLower(EmptyResponseMessage, "ETIMEDOUT", 0);
  }

  lemma EmptyResponseMessageLacksNetwork()
    ensures !Contains("empty response from openai", "network")
  {
    NotContainsByChar("empty response from openai", "network", 3);
  }

  lemma EmptyResponseMessageLacksFetchFailed()
    ensures !Contains("empty response from openai", "fetch failed")
  {
    NotContainsByChar("empty response from openai", "fetch failed", 3);
  }

  lemma EmptyResponseMessageNotNetwork()
    ensures !ContainsAny(Lower(EmptyResponseMessage), NetworkPatterns)
  {
    LowerEmptyResponseMessage();
    var s := "empty response from openai";
    ContainsAny4(s, "network", "ECONNREFUSED", "ENOTFOUND", "fetch failed");
    EmptyResponseMessageLacksNetwork();
    UpperPatternNeverInLower(EmptyResponseMessage, "ECONNREFUSED", 0);
    UpperPatternNeverInLower(EmptyResponseMessage, "ENOTFOUND", 0);
    EmptyResponseMessageLacksFetchFailed();
  }

  lemma EmptyResponseMessageLacksInvalidResponse()
    ensures !Contains("empty response from openai", "invalid response")
  {
    NotContainsByChar("empty response from openai", "invalid response", 2);
  }

  lemma EmptyResponseMessageLacksJson()
    ensures !Contains("empty response from openai", "json")
  {
    NotContainsByChar("empty response from openai", "json", 0);
  }

  lemma EmptyResponseMessageLacksParse()
    ensures !Contains("empty response from openai", "parse")
  {
    NotContainsByPair("empty response from openai", "parse", 0);
  }

  lemma EmptyResponseMessageNotInvalidResponse()
    ensures !ContainsAny(Lower(EmptyResponseMessage), InvalidResponsePatterns)
  {
    LowerEmptyResponseMessage();
    var s := "empty response from openai";
    ContainsAny3(s, "invalid response", "json", "parse");
    EmptyResponseMessageLacksInvalidResponse();
    EmptyResponseMessageLacksJson();
    EmptyResponseMessageLacksParse();
  }

  /** Thrown with this text, an error is classified `Unknown`. */
  lemma ClassifyEmptyResponseMessage(attached: Option<ClassifiedError>)
    ensures ClassifyAIError(ErrorObject(EmptyResponseMessage, attached)).kind == Unknown
    ensures ClassifyAIError(ErrorObject(EmptyResponseMessage, attached)).canRetry
    ensures ClassifyAIError(ErrorObject(EmptyResponseMessage, attached)).userMessage == UnknownUserMessage
  {
    EmptyResponseMessageNotApiKey();
    EmptyResponseMessageNotRateLimit();
    EmptyResponseMessageNotQuota();
    EmptyResponseMessageNotTimeout();
    EmptyResponseMessageNotNetwork();
    EmptyResponseMessageNotInvalidResponse();
    NoPatternIsUnknown(ErrorObject(EmptyResponseMessage, attached));
  }

  /** What the batch insight throws when the parsed reply has the wrong shape. */
  const BatchInvalidStructureMessage: string :=
    "Invalid response " + "structure from AI"

  lemma LowerBatchInvalidStructureMessagePart0()
    ensures Lower("Invalid response ") == "invalid response "
  {
  }

  lemma LowerBatchInvalidStructureMessagePart1()
    ensures Lower("structure from AI") == "structure from ai"
  {
  }

  lemma LowerBatchInvalidStructureMessage()
    ensures Lower(BatchInvalidStructureMessage) == "invalid response " + "structure from ai"
  {
    LowerBatchInvalidStructureMessagePart0();
    LowerBatchInvalidStructureMessagePart1();
    LowerAppend("Invalid response ", "structure from AI");
  }

  lemma BatchInvalidStructureMessageLacksApiKey()
    ensures !Contains("invalid response " + "structure from ai", "api key")
  {
    NotContainsByChar("invalid response " + "structure from ai", "api key", 4);
  }

  lemma BatchInvalidStructureMessageLacksUnauthorized()
    ensures !Contains("invalid response " + "structure from ai", "unauthorized")
  {
    NotContainsByChar("invalid response " + "structure from ai", "unauthorized", 5);
  }

  lemma BatchInvalidStructureMessageLacks401()
    ensures !Contains("invalid response " + "structure from ai", "401")
  {
    NotContainsByChar("invalid response " + "structure from ai", "401", 0);
  }

  lemma BatchInvalidStructureMessageNotApiKey()
    ensures !ContainsAny(Lower(BatchInvalidStructureMessage), ApiKeyPatterns)
  {
    LowerBatchInvalidStructureMessage();
    var s := "invalid response " + "structure from ai";
    ContainsAny3(s, "api key", "unauthorized", "401");
    BatchInvalidStructureMessageLacksApiKey();
    BatchInvalidStructureMessageLacksUnauthorized();
    BatchInvalidStructureMessageLacks401();
  }

  lemma BatchInvalidStructureMessageLacksRateLimit()
    ensures !Contains("invalid response " + "structure from ai", "rate limit")
  {
    PairOfAppend("invalid response ", "structure from ai", 'r', 'a');
    NotContainsByPair("invalid response " + "structure from ai", "rate limit", 0);
  }

  lemma BatchInvalidStructureMessageLacks429()
    ensures !Contains("invalid response " + "structure from ai", "429")
  {
    NotContainsByChar("invalid response " + "structure from ai", "429", 0);
  }

  lemma BatchInvalidStructureMessageLacksTooManyRequests()
    ensures !Contains("invalid response " + "structure from ai", "too many requests")
  {
    NotContainsByChar("invalid response " + "structure from ai", "too many requests", 7);
  }

  lemma BatchInvalidStructureMessageNotRateLimit()
    ensures !ContainsAny(Lower(BatchInvalidStructureMessage), RateLimitPatterns)
  {
    LowerBatchInvalidStructureMessage();
    var s := "invalid response " + "structure from ai";
    ContainsAny3(s, "rate limit", "429", "too many requests");
    BatchInvalidStructureMessageLacksRateLimit();
    BatchInvalidStructureMessageLacks429();
    BatchInvalidStructureMessageLacksTooManyRequests();
  }

  lemma BatchInvalidStructureMessageLacksQuota()
    ensures !Contains("invalid response " + "structure from ai", "quota")
  {
    NotContainsByChar("invalid response " + "structure from ai", "quota", 0);
  }

  lemma BatchInvalidStructureMessageLacksInsufficient()
    ensures !Contains("invalid response " + "structure from ai", "insufficient")
  {
    PairOfAppend("invalid response ", "structure from ai", 's', 'u');
    NotContainsByPair("invalid response " + "structure from ai", "insufficient", 2);
  }

  lemma BatchInvalidStructureMessageLacksBilling()
    ensures !Contains("invalid response " + "structure from ai", "billing")
  {
    NotContainsByChar("invalid response " + "structure from ai", "billing", 0);
  }

  lemma BatchInvalidStructureMessageLacksCredits()
    ensures !Contains("invalid response " + "structure from ai", "credits")
  {
    PairOfAppend("invalid response ", "structure from ai", 'c', 'r');
    NotContainsByPair("invalid response " + "structure from ai", "credits", 0);
  }

  lemma BatchInvalidStructureMessageNotQuota()
    ensures !ContainsAny(Lower(BatchInvalidStructureMessage), QuotaPatterns)
  {
    LowerBatchInvalidStructureMessage();
    var s := "invalid response " + "structure from ai";
    ContainsAny4(s, "quota", "insufficient", "billing", "credits");
    BatchInvalidStructureMessageLacksQuota();
    BatchInvalidStructureMessageLacksInsufficient();
    BatchInvalidStructureMessageLacksBilling();
    BatchInvalidStructureMessageLacksCredits();
  }

  lemma BatchInvalidStructureMessageLacksTimeout()
    ensures !Contains("invalid response " + "structure from ai", "timeout")
  {
    PairOfAppend("invalid response ", "structure from ai", 't', 'i');
    NotContainsByPair("invalid response " + "structure from ai", "timeout", 0);
  }

  lemma BatchInvalidStructureMessageLacksTimedOut()
    ensures !Contains("invalid response " + "structure from ai", "timed out")
  {
    PairOfAppend("invalid response ", "structure from ai", 't', 'i');
    NotContainsByPair("invalid response " + "structure from ai", "timed out", 0);
  }

  lemma BatchInvalidStructureMessageNotTimeout()
    ensures !ContainsAny(Lower(BatchInvalidStructureMessage), TimeoutPatterns)
  {
    LowerBatchInvalidStructureMessage();
    var s := "invalid response " + "structure from ai";
    ContainsAny3(s, "timeout", "timed out", "ETIMEDOUT");
    BatchInvalidStructureMessageLacksTimeout();
    BatchInvalidStructureMessageLacksTimedOut();
    UpperPatternNeverInLower(BatchInvalidStructureMessage, "ETIMEDOUT", 0);
  }

  lemma BatchInvalidStructureMessageLacksNetwork()
    ensures !Contains("invalid response " + "structure from ai", "network")
  {
    NotContainsByChar("invalid response " + "structure from ai", "network", 3);
  }

  lemma BatchInvalidStructureMessageLacksFetchFailed()
    ensures !Contains("invalid response " + "structure from ai", "fetch failed")
  {
    NotContainsByChar("invalid response " + "structure from ai", "fetch failed", 4);
  }

  lemma BatchInvalidStructureMessageNotNetwork()
    ensures !ContainsAny(Lower(BatchInvalidStructureMessage), NetworkPatterns)
  {
    LowerBatchInvalidStructureMessage();
    var s := "invalid response " + "structure from ai";
    ContainsAny4(s, "network", "ECONNREFUSED", "ENOTFOUND", "fetch failed");
    BatchInvalidStructureMessageLacksNetwork();
    UpperPatternNeverInLower(BatchInvalidStructureMessage, "ECONNREFUSED", 0);
    UpperPatternNeverInLower(BatchInvalidStructureMessage, "ENOTFOUND", 0);
    BatchInvalidStructureMessageLacksFetchFailed();
  }

  lemma BatchInvalidStructureMessageHasInvalidResponse()
    ensures ContainsAny(Lower(BatchInvalidStructureMessage), InvalidResponsePatterns)
  {
    LowerBatchInvalidStructureMessage();
    var s := "invalid response " + "structure from ai";
    assert s[0..16] == "invalid response";
    ContainsAt(s, "invalid response", 0);
    assert InvalidResponsePatterns[0] == "invalid response";
  }

  /** Thrown with this text, an error is classified `InvalidResponse`. */
  lemma ClassifyBatchInvalidStructureMessage(attached: Option<ClassifiedError>)
    ensures ClassifyAIError(ErrorObject(BatchInvalidStructureMessage, attached)).kind == InvalidResponse
    ensures ClassifyAIError(ErrorObject(BatchInvalidStructureMessage, attached)).canRetry
    ensures ClassifyAIError(ErrorObject(BatchInvalidStructureMessage, attached)).userMessage == InvalidResponseUserMessage
  {
    BatchInvalidStructureMessageNotApiKey();
    BatchInvalidStructureMessageNotRateLimit();
    BatchInvalidStructureMessageNotQuota();
    BatchInvalidStructureMessageNotTimeout();
    BatchInvalidStructureMessageNotNetwork();
    BatchInvalidStructureMessageHasInvalidResponse();
    InvalidResponseGroupDecides(ErrorObject(BatchInvalidStructureMessage, attached));
  }

  /** The error the OpenAI client throws when its own request timeout expires. */
  const SdkTimeoutMessage: string :=
    "Request timed out."

  lemma LowerSdkTimeoutMessagePart0()
    ensures Lower("Request timed out.") == "request timed out."
  {
  }

  lemma LowerSdkTimeoutMessage()
    ensures Lower(SdkTimeoutMessage) == "request timed out."
  {
    LowerSdkTimeoutMessagePart0();
  }

  lemma SdkTimeoutMessageLacksApiKey()
    ensures !Contains("request timed out.", "api key")
  {
    NotContainsByChar("request timed out.", "api key", 0);
  }

  lemma SdkTimeoutMessageLacksUnauthorized()
    ensures !Contains("request timed out.", "unauthorized")
  {
    NotContainsByChar("request timed out.", "unauthorized", 1);
  }

  lemma SdkTimeoutMessageLacks401()
    ensures !Contains("request timed out.", "401")
  {
    NotContainsByChar("request timed out.", "401", 0);
  }

  lemma SdkTimeoutMessageNotApiKey()
    ensures !ContainsAny(Lower(SdkTimeoutMessage), ApiKeyPatterns)
  {
    LowerSdkTimeoutMessage();
    var s := "request timed out.";
    ContainsAny3(s, "api key", "unauthorized", "401");
    SdkTimeoutMessageLacksApiKey();
    SdkTimeoutMessageLacksUnauthorized();
    SdkTimeoutMessageLacks401();
  }

  lemma SdkTimeoutMessageLacksRateLimit()
    ensures !Contains("request timed out.", "rate limit")
  {
    NotContainsByChar("request timed out.", "rate limit", 1);
  }

  lemma SdkTimeoutMessageLacks429()
    ensures !Contains("request timed out.", "429")
  {
    NotContainsByChar("request timed out.", "429", 0);
  }

  lemma SdkTimeoutMessageLacksTooManyRequests()
    ensures !Contains("request timed out.", "too many requests")
  {
    NotContainsByChar("request timed out.", "too many requests", 5);
  }

  lemma SdkTimeoutMessageNotRateLimit()
    ensures !ContainsAny(Lower(SdkTimeoutMessage), RateLimitPatterns)
  {
    LowerSdkTimeoutMessage();
    var s := "request timed out.";
    ContainsAny3(s, "rate limit", "429", "too many requests");
    SdkTimeoutMessageLacksRateLimit();
    SdkTimeoutMessageLacks429();
    SdkTimeoutMessageLacksTooManyRequests();
  }

  lemma SdkTimeoutMessageLacksQuota()
    ensures !Contains("request timed out.", "quota")
  {
    NotContainsByChar("request timed out.", "quota", 4);
  }

  lemma SdkTimeoutMessageLacksInsufficient()
    ensures !Contains("request timed out.", "insufficient")
  {
    NotContainsByChar("request timed out.", "insufficient", 1);
  }

  lemma SdkTimeoutMessageLacksBilling()
    ensures !Contains("request timed out.", "billing")
  {
    NotContainsByChar("request timed out.", "billing", 0);
  }

  lemma SdkTimeoutMessageLacksCredits()
    ensures !Contains("request timed out.", "credits")
  {
    NotContainsByChar("request timed out.", "credits", 0);
  }

  lemma SdkTimeoutMessageNotQuota()
    ensures !ContainsAny(Lower(SdkTimeoutMessage), QuotaPatterns)
  {
    LowerSdkTimeoutMessage();
    var s := "request timed out.";
    ContainsAny4(s, "quota", "insufficient", "billing", "credits");
    SdkTimeoutMessageLacksQuota();
    SdkTimeoutMessageLacksInsufficient();
    SdkTimeoutMessageLacksBilling();
    SdkTimeoutMessageLacksCredits();
  }

  lemma SdkTimeoutMessageHasTimeout()
    ensures ContainsAny(Lower(SdkTimeoutMessage), TimeoutPatterns)
  {
    LowerSdkTimeoutMessage();
    var s := "request timed out.";
    assert s[8..17] == "timed out";
    ContainsAt(s, "timed out", 8);
    assert TimeoutPatterns[1] == "timed out";
  }

  /** Thrown with this text, an error is classified `Timeout`. */
  lemma ClassifySdkTimeoutMessage(attached: Option<ClassifiedError>)
    ensures ClassifyAIError(ErrorObject(SdkTimeoutMessage, attached)).kind == Timeout
    ensures ClassifyAIError(ErrorObject(SdkTimeoutMessage, attached)).canRetry
    ensures ClassifyAIError(ErrorObject(SdkTimeoutMessage, attached)).userMessage == TimeoutUserMessage
  {
    SdkTimeoutMessageNotApiKey();
    SdkTimeoutMessageNotRateLimit();
    SdkTimeoutMessageNotQuota();
    SdkTimeoutMessageHasTimeout();
    TimeoutGroupDecides(ErrorObject(SdkTimeoutMessage, attached));
  }

}
