/** The AI error taxonomy: classification of a raw error into a
    `ClassifiedError` by a first-match table of substring tests on its
    lower-cased text, the retry-after extraction for rate limits, the
    content-length gate run before any AI request, and the display text. */
module AIErrors {
  import opened Wrappers
  import opened Strings
  import opened Js

  datatype AIErrorType =
    | Timeout
    | RateLimit
    | InvalidApiKey
    | InsufficientQuota
    | NetworkError
    | InvalidResponse
    | ContentTooShort
    | ContentTooLong
    | Unknown

  /** The string value of each member of the `AIErrorType` enum. */
  function TypeName(t: AIErrorType): string {
    match t
    case Timeout => "timeout"
    case RateLimit => "rate_limit"
    case InvalidApiKey => "invalid_api_key"
    case InsufficientQuota => "insufficient_quota"
    case NetworkError => "network_error"
    case InvalidResponse => "invalid_response"
    case ContentTooShort => "content_too_short"
    case ContentTooLong => "content_too_long"
    case Unknown => "unknown"
  }

  /** Distinct error kinds have distinct names, so the name identifies the kind. */
  lemma TypeNameInjective(a: AIErrorType, b: AIErrorType)
    ensures TypeName(a) == TypeName(b) <==> a == b
  {
  }

  /** `retryAfter` is seconds to wait; `None` is an absent property. */
  datatype ClassifiedError = ClassifiedError(
    kind: AIErrorType,
    message: string,
    userMessage: string,
    canRetry: bool,
    retryAfter: Option<nat>)

  /** A thrown value: an `Error` (with the `classified` property the entry
      analysis attaches to the errors it rethrows), or any other value. */
  datatype RawError =
    | ErrorObject(message: string, classified: Option<ClassifiedError>)
    | NonError(value: JsValue)

  /** `error instanceof Error ? error.message : String(error)`. */
  function ErrorMessage(e: RawError): string {
    match e
    case ErrorObject(m, _) => m
    case NonError(v) => ToJsString(v)
  }

  // ---------------------------------------------------------------------------
  // The retry-after header pattern `/retry[- ]after[:\s]+(\d+)/i`

  /** The separator class `[:\s]`. */
  predicate IsSeparator(c: char) { c == ':' || IsWhitespace(c) }

  /** Length of the longest run of separators starting at `j`. */
  function SeparatorRun(s: string, j: nat): (n: nat)
    requires j <= |s|
    ensures j + n <= |s|
    ensures forall k | j <= k < j + n :: IsSeparator(s[k])
    ensures j + n == |s| || !IsSeparator(s[j + n])
    decreases |s| - j
  {
    if j < |s| && IsSeparator(s[j]) then 1 + SeparatorRun(s, j + 1) else 0
  }

  /** Length of the longest run of decimal digits starting at `j`. */
  function DigitRun(s: string, j: nat): (n: nat)
    requires j <= |s|
    ensures j + n <= |s|
    ensures forall k | j <= k < j + n :: IsDigit(s[k])
    ensures j + n == |s| || !IsDigit(s[j + n])
    decreases |s| - j
  {
    if j < |s| && IsDigit(s[j]) then 1 + DigitRun(s, j + 1) else 0
  }

  /** The pattern matched at position `i` of `s`, giving the value of its digit
      group. Letters match case-insensitively; separators and digits are taken
      greedily, which here never needs backtracking because no character is
      both a separator and a digit. */
  function RetryAfterAt(s: string, i: nat): Option<nat>
    requires i <= |s|
  {
    if i + 11 <= |s| && Lower(s[i..i + 5]) == "retry" && (s[i + 5] == '-' || s[i + 5] == ' ')
       && Lower(s[i + 6..i + 11]) == "after"
    then
      var sep := SeparatorRun(s, i + 11);
      var start := i + 11 + sep;
      var digits := DigitRun(s, start);
      if sep > 0 && digits > 0 then Some(DigitsValue(s[start..start + digits])) else None
    else None
  }

  /** The leftmost position at or after `from` where the pattern matches, or
      `|s| + 1` when there is none. */
  function FirstRetryAfterAt(s: string, from: nat): (i: nat)
    requires from <= |s|
    ensures from <= i <= |s| + 1
    ensures i <= |s| ==> RetryAfterAt(s, i).Some?
    ensures forall k | from <= k < i && k <= |s| :: RetryAfterAt(s, k).None?
    decreases |s| - from
  {
    if RetryAfterAt(s, from).Some? then from
    else if from == |s| then |s| + 1
    else FirstRetryAfterAt(s, from + 1)
  }

  /** `s.match(...)`: the value read at the leftmost match, if there is one. */
  function FindRetryAfter(s: string): (r: Option<nat>)
    ensures r.None? <==> forall i | 0 <= i <= |s| :: RetryAfterAt(s, i).None?
    ensures r.Some? ==> exists i | 0 <= i <= |s| ::
              RetryAfterAt(s, i) == r && forall k | 0 <= k < i :: RetryAfterAt(s, k).None?
  {
    var i := FirstRetryAfterAt(s, 0);
    if i <= |s| then RetryAfterAt(s, i) else None
  }

  /** The number of seconds a rate-limited caller is told to wait: the header
      value, else 60. */
  function RetryAfterSeconds(message: string): nat {
    match FindRetryAfter(message)
    case Some(n) => n
    case None => 60
  }

  /** The pattern matches at `i` with `sep` separators and `digits` digits. */
  lemma RetryAfterAtOf(s: string, i: nat, sep: nat, digits: nat)
    requires i + 11 + sep + digits <= |s|
    requires Lower(s[i..i + 5]) == "retry" && (s[i + 5] == '-' || s[i + 5] == ' ')
    requires Lower(s[i + 6..i + 11]) == "after"
    requires sep > 0 && digits > 0
    requires forall k | i + 11 <= k < i + 11 + sep :: IsSeparator(s[k])
    requires forall k | i + 11 + sep <= k < i + 11 + sep + digits :: IsDigit(s[k])
    requires i + 11 + sep + digits == |s| || !IsDigit(s[i + 11 + sep + digits])
    ensures RetryAfterAt(s, i) == Some(DigitsValue(s[i + 11 + sep..i + 11 + sep + digits]))
  {
    SeparatorRunOf(s, i + 11, sep);
    DigitRunOf(s, i + 11 + sep, digits);
  }

  lemma LowerRetryAfterWords()
    ensures Lower("Retry") == "retry" && Lower("After") == "after"
  {
  }

  /** A header written as "Retry-After", separators and a decimal number is read
      back as that number. */
  lemma RetryAfterOfHeader(n: nat, sep: string, rest: string)
    requires |sep| > 0 && forall k | 0 <= k < |sep| :: IsSeparator(sep[k])
    requires rest == [] || !IsDigit(rest[0])
    ensures RetryAfterAt("Retry-After" + sep + NatToString(n) + rest, 0) == Some(n)
  {
    var d := NatToString(n);
    var s := "Retry-After" + sep + d + rest;
    assert s[0..5] == "Retry" && s[6..11] == "After" && s[5] == '-';
    LowerRetryAfterWords();
    assert s[11..11 + |sep|] == sep;
    assert s[11 + |sep|..11 + |sep| + |d|] == d;
    assert 11 + |sep| + |d| == |s| || s[11 + |sep| + |d|] == rest[0];
    RetryAfterAtOf(s, 0, |sep|, |d|);
    NatToStringRoundTrip(n);
  }

  lemma SeparatorRunOf(s: string, j: nat, n: nat)
    requires j + n <= |s|
    requires forall k | j <= k < j + n :: IsSeparator(s[k])
    requires j + n == |s| || !IsSeparator(s[j + n])
    ensures SeparatorRun(s, j) == n
    decreases n
  {
    if n > 0 { SeparatorRunOf(s, j + 1, n - 1); }
  }

  lemma DigitRunOf(s: string, j: nat, n: nat)
    requires j + n <= |s|
    requires forall k | j <= k < j + n :: IsDigit(s[k])
    requires j + n == |s| || !IsDigit(s[j + n])
    ensures DigitRun(s, j) == n
    decreases n
  {
    if n > 0 { DigitRunOf(s, j + 1, n - 1); }
  }

  // ---------------------------------------------------------------------------
  // Classification

  const ApiKeyUserMessage: string := "Invalid OpenAI API key. " + "Please check your " + "configuration."
  const QuotaUserMessage: string := "OpenAI account has " + "insufficient credits. " + "Please check your " + "billing settings."
  const TimeoutUserMessage: string := "Request timed out. " + "The AI service may be " + "slow. Please try again."
  const NetworkUserMessage: string := "Network error. Please " + "check your internet " + "connection and try again."
  const InvalidResponseUserMessage: string := "Received an unexpected " + "response from AI. " + "Please try again."
  const UnknownUserMessage: string := "An unexpected error " + "occurred during AI " + "analysis. Please try again."

  function RateLimitUserMessage(seconds: nat): string {
    "Rate limit reached. " + "Please wait " + NatToString(seconds) + " seconds before " + "retrying."
  }

  /** The patterns of each group of the decision table, in the order they are tried. */
  const ApiKeyPatterns: seq<string> := ["api key", "unauthorized", "401"]
  const RateLimitPatterns: seq<string> := ["rate limit", "429", "too many requests"]
  const QuotaPatterns: seq<string> := ["quota", "insufficient", "billing", "credits"]
  const TimeoutPatterns: seq<string> := ["timeout", "timed out", "ETIMEDOUT"]
  const NetworkPatterns: seq<string> := ["network", "ECONNREFUSED", "ENOTFOUND", "fetch failed"]
  const InvalidResponsePatterns: seq<string> := ["invalid response", "json", "parse"]

  predicate ContainsAny(s: string, patterns: seq<string>) {
    exists k | 0 <= k < |patterns| :: Contains(s, patterns[k])
  }

  /** Only rate limits carry a wait; only key, quota and content problems are
      final. */
  predicate RetryPolicy(c: ClassifiedError) {
    && (c.canRetry <==> c.kind !in {InvalidApiKey, InsufficientQuota, ContentTooShort, ContentTooLong})
    && (c.retryAfter.Some? <==> c.kind == RateLimit)
  }

  /** `classifyAIError`: the first group one of whose patterns occurs in the
      lower-cased message decides the kind; no match gives `Unknown`. */
  function ClassifyAIError(e: RawError): (r: ClassifiedError)
    ensures r.message == ErrorMessage(e)
    ensures RetryPolicy(r)
    ensures r.kind != ContentTooShort && r.kind != ContentTooLong
    ensures r.kind == RateLimit ==>
              r.retryAfter == Some(RetryAfterSeconds(ErrorMessage(e)))
              && r.userMessage == RateLimitUserMessage(RetryAfterSeconds(ErrorMessage(e)))
    ensures r.kind == InsufficientQuota ==> r.userMessage == QuotaUserMessage
    ensures r.kind == NetworkError ==> r.userMessage == NetworkUserMessage
  {
    var message := ErrorMessage(e);
    var s := Lower(message);
    if Contains(s, "api key") || Contains(s, "unauthorized") || Contains(s, "401") then
      ClassifiedError(InvalidApiKey, message, ApiKeyUserMessage, false, None)
    else if Contains(s, "rate limit") || Contains(s, "429") || Contains(s, "too many requests") then
      var seconds := RetryAfterSeconds(message);
      ClassifiedError(RateLimit, message, RateLimitUserMessage(seconds), true, Some(seconds))
    else if Contains(s, "quota") || Contains(s, "insufficient") || Contains(s, "billing") || Contains(s, "credits") then
      ClassifiedError(InsufficientQuota, message, QuotaUserMessage, false, None)
    else if Contains(s, "timeout") || Contains(s, "timed out") || Contains(s, "ETIMEDOUT") then
      ClassifiedError(Timeout, message, TimeoutUserMessage, true, None)
    else if Contains(s, "network") || Contains(s, "ECONNREFUSED") || Contains(s, "ENOTFOUND") || Contains(s, "fetch failed") then
      ClassifiedError(NetworkError, message, NetworkUserMessage, true, None)
    else if Contains(s, "invalid response") || Contains(s, "json") || Contains(s, "parse") then
      ClassifiedError(InvalidResponse, message, InvalidResponseUserMessage, true, None)
    else
      ClassifiedError(Unknown, message, UnknownUserMessage, true, None)
  }

  /** The decision table as data: each kind with its patterns, in order. */
  datatype Rule = Rule(kind: AIErrorType, patterns: seq<string>)

  const Rules: seq<Rule> := [
    Rule(InvalidApiKey, ApiKeyPatterns),
    Rule(RateLimit, RateLimitPatterns),
    Rule(InsufficientQuota, QuotaPatterns),
    Rule(Timeout, TimeoutPatterns),
    Rule(NetworkError, NetworkPatterns),
    Rule(InvalidResponse, InvalidResponsePatterns)
  ]

  /** The kind of the first rule from position `g` on with a pattern occurring
      in `s`, else `Unknown`. */
  function FirstMatchFrom(s: string, rules: seq<Rule>, g: nat): (k: AIErrorType)
    requires g <= |rules|
    ensures (forall h | g <= h < |rules| :: !ContainsAny(s, rules[h].patterns)) ==> k == Unknown
    ensures forall h | g <= h < |rules| ::
              ContainsAny(s, rules[h].patterns) && (forall h' | g <= h' < h :: !ContainsAny(s, rules[h'].patterns))
              ==> k == rules[h].kind
    decreases |rules| - g
  {
    if g == |rules| then Unknown
    else if ContainsAny(s, rules[g].patterns) then rules[g].kind
    else FirstMatchFrom(s, rules, g + 1)
  }

  function FirstMatch(s: string, rules: seq<Rule>): AIErrorType {
    FirstMatchFrom(s, rules, 0)
  }

  lemma ContainsAny3(s: string, a: string, b: string, c: string)
    ensures ContainsAny(s, [a, b, c]) <==> Contains(s, a) || Contains(s, b) || Contains(s, c)
  {
    if Contains(s, a) { assert [a, b, c][0] == a; }
    if Contains(s, b) { assert [a, b, c][1] == b; }
    if Contains(s, c) { assert [a, b, c][2] == c; }
  }

  lemma ContainsAny4(s: string, a: string, b: string, c: string, d: string)
    ensures ContainsAny(s, [a, b, c, d]) <==> Contains(s, a) || Contains(s, b) || Contains(s, c) || Contains(s, d)
  {
    if Contains(s, a) { assert [a, b, c, d][0] == a; }
    if Contains(s, b) { assert [a, b, c, d][1] == b; }
    if Contains(s, c) { assert [a, b, c, d][2] == c; }
    if Contains(s, d) { assert [a, b, c, d][3] == d; }
  }

  /** The decision table written out as a chain of tests. */
  lemma RulesUnfold(s: string, rules: seq<Rule>)
    requires rules == Rules
    ensures FirstMatch(s, rules) ==
      if ContainsAny(s, ApiKeyPatterns) then InvalidApiKey
      else if ContainsAny(s, RateLimitPatterns) then RateLimit
      else if ContainsAny(s, QuotaPatterns) then InsufficientQuota
      else if ContainsAny(s, TimeoutPatterns) then Timeout
      else if ContainsAny(s, NetworkPatterns) then NetworkError
      else if ContainsAny(s, InvalidResponsePatterns) then InvalidResponse
      else Unknown
  {
    assert rules[0].patterns == ApiKeyPatterns && rules[1].patterns == RateLimitPatterns;
    assert rules[2].patterns == QuotaPatterns && rules[3].patterns == TimeoutPatterns;
    assert rules[4].patterns == NetworkPatterns && rules[5].patterns == InvalidResponsePatterns;
    assert FirstMatchFrom(s, rules, 6) == Unknown;
  }

  /** The if-chain agrees with the decision table. */
  lemma ClassifyFollowsRules(e: RawError)
    ensures ClassifyAIError(e).kind == FirstMatch(Lower(ErrorMessage(e)), Rules)
  {
    var s := Lower(ErrorMessage(e));
    RulesUnfold(s, Rules);
    ContainsAny3(s, "api key", "unauthorized", "401");
    ContainsAny3(s, "rate limit", "429", "too many requests");
    ContainsAny4(s, "quota", "insufficient", "billing", "credits");
    ContainsAny3(s, "timeout", "timed out", "ETIMEDOUT");
    ContainsAny4(s, "network", "ECONNREFUSED", "ENOTFOUND", "fetch failed");
    ContainsAny3(s, "invalid response", "json", "parse");
  }

  /** An api-key pattern decides the result whatever else the message says. */
  lemma ApiKeyDominates(e: RawError)
    requires ContainsAny(Lower(ErrorMessage(e)), ApiKeyPatterns)
    ensures ClassifyAIError(e).kind == InvalidApiKey
    ensures !ClassifyAIError(e).canRetry && ClassifyAIError(e).retryAfter.None?
    ensures ClassifyAIError(e).userMessage == ApiKeyUserMessage
  {
    ContainsAny3(Lower(ErrorMessage(e)), "api key", "unauthorized", "401");
  }

  /** The group tried in position `g` decides the kind exactly when it is the
      first group with a matching pattern. */
  lemma FirstMatchingGroupDecides(e: RawError, g: nat)
    requires g < |Rules|
    requires ContainsAny(Lower(ErrorMessage(e)), Rules[g].patterns)
    requires forall h | 0 <= h < g :: !ContainsAny(Lower(ErrorMessage(e)), Rules[h].patterns)
    ensures ClassifyAIError(e).kind == Rules[g].kind
  {
    ClassifyFollowsRules(e);
  }

  /** A message with no pattern of any group is `Unknown`, and still retryable. */
  lemma NoPatternIsUnknown(e: RawError)
    requires !ContainsAny(Lower(ErrorMessage(e)), ApiKeyPatterns)
    requires !ContainsAny(Lower(ErrorMessage(e)), RateLimitPatterns)
    requires !ContainsAny(Lower(ErrorMessage(e)), QuotaPatterns)
    requires !ContainsAny(Lower(ErrorMessage(e)), TimeoutPatterns)
    requires !ContainsAny(Lower(ErrorMessage(e)), NetworkPatterns)
    requires !ContainsAny(Lower(ErrorMessage(e)), InvalidResponsePatterns)
    ensures ClassifyAIError(e).kind == Unknown && ClassifyAIError(e).canRetry
    ensures ClassifyAIError(e).userMessage == UnknownUserMessage
  {
    ClassifyFollowsRules(e);
    RulesUnfold(Lower(ErrorMessage(e)), Rules);
  }

  /** A timeout pattern decides the kind when no earlier group matches. */
  lemma TimeoutGroupDecides(e: RawError)
    requires !ContainsAny(Lower(ErrorMessage(e)), ApiKeyPatterns)
    requires !ContainsAny(Lower(ErrorMessage(e)), RateLimitPatterns)
    requires !ContainsAny(Lower(ErrorMessage(e)), QuotaPatterns)
    requires ContainsAny(Lower(ErrorMessage(e)), TimeoutPatterns)
    ensures ClassifyAIError(e).kind == Timeout && ClassifyAIError(e).canRetry
    ensures ClassifyAIError(e).userMessage == TimeoutUserMessage
  {
    ClassifyFollowsRules(e);
    RulesUnfold(Lower(ErrorMessage(e)), Rules);
  }

  /** An invalid-response pattern decides the kind when no earlier group
      matches. */
  lemma InvalidResponseGroupDecides(e: RawError)
    requires !ContainsAny(Lower(ErrorMessage(e)), ApiKeyPatterns)
    requires !ContainsAny(Lower(ErrorMessage(e)), RateLimitPatterns)
    requires !ContainsAny(Lower(ErrorMessage(e)), QuotaPatterns)
    requires !ContainsAny(Lower(ErrorMessage(e)), TimeoutPatterns)
    requires !ContainsAny(Lower(ErrorMessage(e)), NetworkPatterns)
    requires ContainsAny(Lower(ErrorMessage(e)), InvalidResponsePatterns)
    ensures ClassifyAIError(e).kind == InvalidResponse && ClassifyAIError(e).canRetry
    ensures ClassifyAIError(e).userMessage == InvalidResponseUserMessage
  {
    ClassifyFollowsRules(e);
    RulesUnfold(Lower(ErrorMessage(e)), Rules);
  }

  /** The table without the three upper-case patterns, which are tested against
      a lower-cased string. */
  const LiveRules: seq<Rule> := [
    Rule(InvalidApiKey, ApiKeyPatterns),
    Rule(RateLimit, RateLimitPatterns),
    Rule(InsufficientQuota, QuotaPatterns),
    Rule(Timeout, ["timeout", "timed out"]),
    Rule(NetworkError, ["network", "fetch failed"]),
    Rule(InvalidResponse, InvalidResponsePatterns)
  ]

  lemma LiveRulesUnfold(s: string, rules: seq<Rule>)
    requires rules == LiveRules
    ensures FirstMatch(s, rules) ==
      if ContainsAny(s, ApiKeyPatterns) then InvalidApiKey
      else if ContainsAny(s, RateLimitPatterns) then RateLimit
      else if ContainsAny(s, QuotaPatterns) then InsufficientQuota
      else if ContainsAny(s, ["timeout", "timed out"]) then Timeout
      else if ContainsAny(s, ["network", "fetch failed"]) then NetworkError
      else if ContainsAny(s, InvalidResponsePatterns) then InvalidResponse
      else Unknown
  {
    assert rules[0].patterns == ApiKeyPatterns && rules[1].patterns == RateLimitPatterns;
    assert rules[2].patterns == QuotaPatterns && rules[3].patterns == ["timeout", "timed out"];
    assert rules[4].patterns == ["network", "fetch failed"] && rules[5].patterns == InvalidResponsePatterns;
    assert FirstMatchFrom(s, rules, 6) == Unknown;
  }

  lemma ContainsAny2(s: string, a: string, b: string)
    ensures ContainsAny(s, [a, b]) <==> Contains(s, a) || Contains(s, b)
  {
    if Contains(s, a) { assert [a, b][0] == a; }
    if Contains(s, b) { assert [a, b][1] == b; }
  }

  /** "ETIMEDOUT", "ECONNREFUSED" and "ENOTFOUND" can never match: deleting them
      changes no classification. */
  lemma ClassifyIgnoresDeadPatterns(e: RawError)
    ensures ClassifyAIError(e).kind == FirstMatch(Lower(ErrorMessage(e)), LiveRules)
    ensures !Contains(Lower(ErrorMessage(e)), "ETIMEDOUT")
    ensures !Contains(Lower(ErrorMessage(e)), "ECONNREFUSED")
    ensures !Contains(Lower(ErrorMessage(e)), "ENOTFOUND")
  {
    var s := Lower(ErrorMessage(e));
    UpperPatternNeverInLower(ErrorMessage(e), "ETIMEDOUT", 0);
    UpperPatternNeverInLower(ErrorMessage(e), "ECONNREFUSED", 0);
    UpperPatternNeverInLower(ErrorMessage(e), "ENOTFOUND", 0);
    ClassifyFollowsRules(e);
    RulesUnfold(s, Rules);
    LiveRulesUnfold(s, LiveRules);
    ContainsAny3(s, "timeout", "timed out", "ETIMEDOUT");
    ContainsAny2(s, "timeout", "timed out");
    ContainsAny4(s, "network", "ECONNREFUSED", "ENOTFOUND", "fetch failed");
    ContainsAny2(s, "network", "fetch failed");
  }

  /** A message with a rate-limit pattern and no api-key pattern is a rate
      limit whose wait is the header value, else 60 seconds. */
  lemma RateLimitCarriesWait(e: RawError)
    requires !ContainsAny(Lower(ErrorMessage(e)), ApiKeyPatterns)
    requires ContainsAny(Lower(ErrorMessage(e)), RateLimitPatterns)
    ensures ClassifyAIError(e).kind == RateLimit && ClassifyAIError(e).canRetry
    ensures FindRetryAfter(ErrorMessage(e)).None? ==> ClassifyAIError(e).retryAfter == Some(60)
    ensures FindRetryAfter(ErrorMessage(e)).Some? ==> ClassifyAIError(e).retryAfter == FindRetryAfter(ErrorMessage(e))
  {
    var s := Lower(ErrorMessage(e));
    ContainsAny3(s, "api key", "unauthorized", "401");
    ContainsAny3(s, "rate limit", "429", "too many requests");
  }

  // ---------------------------------------------------------------------------
  // Content gate

  const MinContentLength: nat := 10
  const MaxContentLength: nat := 10000

  const TooShortUserMessage: string :=
    "Entry is too short for AI " + "analysis. Please write at " + "least 10 characters."
  const TooLongUserMessage: string :=
    "Entry is too long for AI " + "analysis. Please keep it " + "under 10,000 characters."

  /** `validateEntryContent`: the trimmed content must have between 10 and
      10000 characters; `None` is the `null` that lets analysis proceed. */
  function ValidateEntryContent(content: string): (r: Option<ClassifiedError>)
    ensures r.None? <==> MinContentLength <= |Trim(content)| <= MaxContentLength
    ensures r.Some? ==> RetryPolicy(r.value) && !r.value.canRetry
    ensures r.Some? ==> (r.value.kind == ContentTooShort <==> |Trim(content)| < MinContentLength)
    ensures r.Some? ==> (r.value.kind == ContentTooLong <==> |Trim(content)| > MaxContentLength)
  {
    var trimmed := Trim(content);
    if |trimmed| < MinContentLength then
      Some(ClassifiedError(ContentTooShort, "Content is too short " + "for meaningful analysis",
                           TooShortUserMessage, false, None))
    else if |trimmed| > MaxContentLength then
      Some(ClassifiedError(ContentTooLong, "Content exceeds maximum length",
                           TooLongUserMessage, false, None))
    else None
  }

  // ---------------------------------------------------------------------------
  // Display

  const ClickRetrySuffix: string := " Click 'Retry' to try again."
  const ResolveSuffix: string := " Please resolve the " + "issue before retrying."

  function RetryInSuffix(seconds: nat): string {
    " You can retry in " + NatToString(seconds) + " seconds."
  }

  /** `formatErrorForDisplay`: the user message followed by retry guidance. A
      wait of 0 seconds is falsy and so gets the click-to-retry text. */
  function FormatErrorForDisplay(c: ClassifiedError): (r: string)
    ensures |r| > |c.userMessage| && r[..|c.userMessage|] == c.userMessage
  {
    c.userMessage +
      if !c.canRetry then ResolveSuffix
      else if c.retryAfter.Some? && c.retryAfter.value != 0 then RetryInSuffix(c.retryAfter.value)
      else ClickRetrySuffix
  }

  /** Each of the three suffixes is chosen in exactly the situation it is meant for. */
  lemma FormatErrorSuffixes(c: ClassifiedError)
    ensures FormatErrorForDisplay(c) == c.userMessage + ResolveSuffix <==> !c.canRetry
    ensures FormatErrorForDisplay(c) == c.userMessage + ClickRetrySuffix <==>
              c.canRetry && (c.retryAfter.None? || c.retryAfter == Some(0))
    ensures (exists n: nat | n > 0 :: FormatErrorForDisplay(c) == c.userMessage + RetryInSuffix(n)) <==>
              c.canRetry && c.retryAfter.Some? && c.retryAfter.value > 0
    ensures c.canRetry && c.retryAfter.Some? && c.retryAfter.value > 0 ==>
              FormatErrorForDisplay(c) == c.userMessage + RetryInSuffix(c.retryAfter.value)
  {
    var u := c.userMessage;
    var r := FormatErrorForDisplay(c);
    SuffixesDiffer(u, ResolveSuffix, ClickRetrySuffix);
    forall n: nat
      ensures u + RetryInSuffix(n) != u + ResolveSuffix && u + RetryInSuffix(n) != u + ClickRetrySuffix
    {
      SuffixesDiffer(u, RetryInSuffix(n), ResolveSuffix);
      SuffixesDiffer(u, RetryInSuffix(n), ClickRetrySuffix);
    }
    if c.canRetry && c.retryAfter.Some? && c.retryAfter.value > 0 {
      assert r == u + RetryInSuffix(c.retryAfter.value);
    }
  }

  /** Two suffixes that differ in their second character give different texts. */
  lemma SuffixesDiffer(u: string, a: string, b: string)
    requires |a| > 1 && |b| > 1 && a[1] != b[1]
    ensures u + a != u + b
  {
    assert (u + a)[|u| + 1] == a[1];
    assert (u + b)[|u| + 1] == b[1];
  }
}
