/** The AI job actions: each looks up its record, writes the job's status
    to the store in a fixed order (`pending`, `processing`, then `success` or
    `failed`), runs the analysis, and reports the outcome. All of them act
    for the default user. Each action is a method on the database, specified
    by a function of the store's state before the call. */
module AIActions {
  import opened Wrappers
  import opened Strings
  import opened Js
  import opened Types
  import opened AIErrors
  import opened ErrorTexts
  import opened AIProvider
  import opened Queries
  import opened EntryAnalysis
  import opened BatchInsights

  /** `ActionResult`: success with its data, or failure with the error text
      and, for AI failures, the classification's kind, retry flag and wait. */
  datatype ActionResult<+T> =
    | ActionOk(data: T)
    | ActionFailed(error: string, errorType: Option<string>, canRetry: Option<bool>, retryAfter: Option<nat>)

  const EntryNotFoundMessage: string := "Entry not found"
  const InsightNotFoundMessage: string := "Insight not found"
  const NoEntriesForInsightMessage: string := "No entries found for " + "this insight"

  function NoEntriesBetweenMessage(startDate: string, endDate: string): string {
    "No entries found between " + startDate + " and " + endDate
  }

  /** A failure that is not an AI failure: just the error text. */
  function Plain<T>(message: string): ActionResult<T> {
    ActionFailed(message, None, None, None)
  }

  /** The failure an AI job reports, every field taken from one
      classification. */
  function Reported<T>(c: ClassifiedError): ActionResult<T> {
    ActionFailed(c.userMessage, Some(TypeName(c.kind)), Some(c.canRetry), c.retryAfter)
  }

  /** `(aiError as any).classified || classifyAIError(aiError)`. */
  function ResolveClassification(e: RawError): (c: ClassifiedError)
    ensures e.ErrorObject? && e.classified.Some? ==> c == e.classified.value
    ensures !(e.ErrorObject? && e.classified.Some?) ==> c == ClassifyAIError(e)
  {
    if e.ErrorObject? && e.classified.Some? then e.classified.value else ClassifyAIError(e)
  }

  // ---------------------------------------------------------------------------
  // The AI updates the jobs write

  const ProcessingEntryData: EntryAIData := EntryAIData(Processing, Omitted, Omitted, Omitted, Omitted)
  const PendingEntryData: EntryAIData := EntryAIData(Pending, Omitted, Omitted, Omitted, Null)

  function EntrySuccessData(a: AnalysisResult): EntryAIData {
    EntryAIData(Success, Given(a.summary), Given(a.sentiment), Given(a.themes), Null)
  }

  function EntryFailureData(c: ClassifiedError): EntryAIData {
    EntryAIData(Failed, Omitted, Omitted, Omitted, Given(c.userMessage))
  }

  const ProcessingInsightData: InsightAIData := InsightAIData(Processing, Omitted, Omitted, Omitted, Omitted)
  const PendingInsightData: InsightAIData := InsightAIData(Pending, Omitted, Omitted, Omitted, Null)

  function InsightSuccessData(b: BatchResult): InsightAIData {
    InsightAIData(Success, Given(b.content), Given(b.themes), Given(b.sentimentTrend), Null)
  }

  function InsightFailureData(c: ClassifiedError): InsightAIData {
    InsightAIData(Failed, Omitted, Omitted, Omitted, Given(c.userMessage))
  }

  /** The terminal write of a job and what the job returns. */
  datatype JobEnd<+D, +T> = JobEnd(data: D, result: ActionResult<T>)

  function EntryJobEnd(analysis: Result<AnalysisResult, RawError>): JobEnd<EntryAIData, ()> {
    match analysis
    case Ok(a) => JobEnd(EntrySuccessData(a), ActionOk(()))
    case Err(e) =>
      var c := ResolveClassification(e);
      JobEnd(EntryFailureData(c), Reported(c))
  }

  function InsightJobEnd<T>(batch: Result<BatchResult, RawError>, data: T): JobEnd<InsightAIData, T> {
    match batch
    case Ok(b) => JobEnd(InsightSuccessData(b), ActionOk(data))
    case Err(e) =>
      var c := ResolveClassification(e);
      JobEnd(InsightFailureData(c), Reported(c))
  }

  // ---------------------------------------------------------------------------
  // What each action does, as a function of the store

  /** The entries table after an entry job, the statements it issued and
      its result. */
  datatype EntryRun = EntryRun(entries: map<RowKey, Entry>, issued: seq<Statement>, result: ActionResult<()>)

  /** The insights table after an insight job, the statements it issued and
      its result. */
  datatype InsightRun<+T> = InsightRun(insights: map<RowKey, Insight>, issued: seq<Statement>, result: ActionResult<T>)

  /** `processEntryAI(entryId)` on the entries table `m`. */
  function ProcessEntryRun(m: map<RowKey, Entry>, entryId: string, keyConfigured: bool,
                           respond: string -> ProviderOutcome, now: string): EntryRun
  {
    var key := RowKey(entryId, DefaultUser);
    if key !in m then EntryRun(m, [], Plain(EntryNotFoundMessage))
    else
      var end := EntryJobEnd(AnalyzeEntry(m[key].content, keyConfigured, respond));
      EntryRun(EntryAIAt(EntryAIAt(m, key, ProcessingEntryData, now), key, end.data, now),
               [UpdateEntryAIRow(key, ProcessingEntryData), UpdateEntryAIRow(key, end.data)],
               end.result)
  }

  /** `regenerateAIAnalysis(entryId)`: the pending write, then
      `processEntryAI` on the table it left. */
  function RegenerateRun(m: map<RowKey, Entry>, entryId: string, keyConfigured: bool,
                         respond: string -> ProviderOutcome, now: string): EntryRun
  {
    var key := RowKey(entryId, DefaultUser);
    var run := ProcessEntryRun(EntryAIAt(m, key, PendingEntryData, now), entryId, keyConfigured, respond, now);
    EntryRun(run.entries, [UpdateEntryAIRow(key, PendingEntryData)] + run.issued, run.result)
  }

  /** `generateInsight` on the insights table `m`, given the entries the
      range query listed. */
  function GenerateInsightRun(m: map<RowKey, Insight>, listed: seq<Entry>, t: InsightType,
                              startDate: string, endDate: string, insightId: string, keyConfigured: bool,
                              respond: BatchRequest -> ProviderOutcome, now: string): InsightRun<string>
  {
    var key := RowKey(insightId, DefaultUser);
    if |listed| == 0 then InsightRun(m, [], Plain(NoEntriesBetweenMessage(startDate, endDate)))
    else
      var created := m[key := NewInsight(insightId, t, startDate, endDate, DefaultUser, now)];
      var end := InsightJobEnd(GenerateBatchInsight(listed, t, keyConfigured, respond), insightId);
      InsightRun(InsightAIAt(InsightAIAt(created, key, ProcessingInsightData, now), key, end.data, now),
                 [InsertInsightRow(key), UpdateInsightAIRow(key, ProcessingInsightData), UpdateInsightAIRow(key, end.data)],
                 end.result)
  }

  /** `retryInsight(insightId)` on the insights table `m`, given the entries
      the range query listed. */
  function RetryInsightRun(m: map<RowKey, Insight>, listed: seq<Entry>, insightId: string, keyConfigured: bool,
                           respond: BatchRequest -> ProviderOutcome, now: string): InsightRun<()>
  {
    var key := RowKey(insightId, DefaultUser);
    if key !in m then InsightRun(m, [], Plain(InsightNotFoundMessage))
    else
      var pending := InsightAIAt(m, key, PendingInsightData, now);
      if |listed| == 0 then
        InsightRun(pending, [UpdateInsightAIRow(key, PendingInsightData)], Plain(NoEntriesForInsightMessage))
      else
        var end := InsightJobEnd(GenerateBatchInsight(listed, m[key].insightType, keyConfigured, respond), ());
        InsightRun(InsightAIAt(InsightAIAt(pending, key, ProcessingInsightData, now), key, end.data, now),
                   [UpdateInsightAIRow(key, PendingInsightData), UpdateInsightAIRow(key, ProcessingInsightData),
                    UpdateInsightAIRow(key, end.data)],
                   end.result)
  }

  // ---------------------------------------------------------------------------
  // The actions

  /** `processEntryAI`. */
  method ProcessEntryAI(db: Database, entryId: string, keyConfigured: bool,
                        respond: string -> ProviderOutcome, now: string) returns (r: ActionResult<()>)
    requires db.Valid()
    modifies db
    ensures db.Valid()
    ensures var run := ProcessEntryRun(old(db.entries), entryId, keyConfigured, respond, now);
      db.entries == run.entries && db.log == old(db.log) + run.issued && r == run.result
    ensures db.insights == old(db.insights)
  {
    var entry := db.GetEntryById(entryId, DefaultUser);
    if entry.None? {
      return Plain(EntryNotFoundMessage);
    }
    var processing := db.UpdateEntryAI(entryId, ProcessingEntryData, DefaultUser, now);
    var analysis := AnalyzeEntry(entry.value.content, keyConfigured, respond);
    var end := EntryJobEnd(analysis);
    var terminal := db.UpdateEntryAI(entryId, end.data, DefaultUser, now);
    r := end.result;
  }

  /** `retryAIAnalysis`: `processEntryAI` itself, with no reset. */
  method RetryAIAnalysis(db: Database, entryId: string, keyConfigured: bool,
                         respond: string -> ProviderOutcome, now: string) returns (r: ActionResult<()>)
    requires db.Valid()
    modifies db
    ensures db.Valid()
    ensures var run := ProcessEntryRun(old(db.entries), entryId, keyConfigured, respond, now);
      db.entries == run.entries && db.log == old(db.log) + run.issued && r == run.result
    ensures db.insights == old(db.insights)
  {
    r := ProcessEntryAI(db, entryId, keyConfigured, respond, now);
  }

  /** `regenerateAIAnalysis`. */
  method RegenerateAIAnalysis(db: Database, entryId: string, keyConfigured: bool,
                              respond: string -> ProviderOutcome, now: string) returns (r: ActionResult<()>)
    requires db.Valid()
    modifies db
    ensures db.Valid()
    ensures var run := RegenerateRun(old(db.entries), entryId, keyConfigured, respond, now);
      db.entries == run.entries && db.log == old(db.log) + run.issued && r == run.result
    ensures db.insights == old(db.insights)
  {
    var pending := db.UpdateEntryAI(entryId, PendingEntryData, DefaultUser, now);
    r := ProcessEntryAI(db, entryId, keyConfigured, respond, now);
  }

  /** `generateInsight`, with the fresh insight id as an input. `listed` is
      the list the range query returned. */
  method GenerateInsight(db: Database, t: InsightType, startDate: string, endDate: string, insightId: string,
                         keyConfigured: bool, respond: BatchRequest -> ProviderOutcome, now: string)
    returns (r: ActionResult<string>, ghost listed: seq<Entry>)
    requires db.Valid()
    requires RowKey(insightId, DefaultUser) !in db.insights
    modifies db
    ensures db.Valid()
    ensures Lists(listed, old(db.entries), InDateRange(DefaultUser, startDate, endDate))
    ensures SortedBy(DateAscending, listed)
    ensures var run := GenerateInsightRun(old(db.insights), listed, t, startDate, endDate, insightId,
                                          keyConfigured, respond, now);
      db.insights == run.insights && db.log == old(db.log) + run.issued && r == run.result
    ensures db.entries == old(db.entries)
  {
    var entries := db.GetEntriesByDateRange(startDate, endDate, DefaultUser);
    listed := entries;
    if |entries| == 0 {
      return Plain(NoEntriesBetweenMessage(startDate, endDate)), listed;
    }
    var created := db.CreateInsight(insightId, t, startDate, endDate, DefaultUser, now);
    var processing := db.UpdateInsightAI(insightId, ProcessingInsightData, DefaultUser, now);
    var batch := GenerateBatchInsight(entries, t, keyConfigured, respond);
    var end := InsightJobEnd(batch, insightId);
    var terminal := db.UpdateInsightAI(insightId, end.data, DefaultUser, now);
    r := end.result;
  }

  /** `retryInsight`. `listed` is the list the range query returned, when
      the insight exists. */
  method RetryInsight(db: Database, insightId: string, keyConfigured: bool,
                      respond: BatchRequest -> ProviderOutcome, now: string)
    returns (r: ActionResult<()>, ghost listed: seq<Entry>)
    requires db.Valid()
    modifies db
    ensures db.Valid()
    ensures var key := RowKey(insightId, DefaultUser);
      key in old(db.insights) ==>
        Lists(listed, old(db.entries),
              InDateRange(DefaultUser, old(db.insights)[key].startDate, old(db.insights)[key].endDate))
        && SortedBy(DateAscending, listed)
    ensures var run := RetryInsightRun(old(db.insights), listed, insightId, keyConfigured, respond, now);
      db.insights == run.insights && db.log == old(db.log) + run.issued && r == run.result
    ensures db.entries == old(db.entries)
  {
    listed := [];
    var insight := db.GetInsightById(insightId, DefaultUser);
    if insight.None? {
      return Plain(InsightNotFoundMessage), listed;
    }
    var pending := db.UpdateInsightAI(insightId, PendingInsightData, DefaultUser, now);
    var entries := db.GetEntriesByDateRange(insight.value.startDate, insight.value.endDate, DefaultUser);
    listed := entries;
    if |entries| == 0 {
      return Plain(NoEntriesForInsightMessage), listed;
    }
    var processing := db.UpdateInsightAI(insightId, ProcessingInsightData, DefaultUser, now);
    var batch := GenerateBatchInsight(entries, insight.value.insightType, keyConfigured, respond);
    var end := InsightJobEnd(batch, ());
    var terminal := db.UpdateInsightAI(insightId, end.data, DefaultUser, now);
    r := end.result;
  }

  // ---------------------------------------------------------------------------
  // What the entry jobs promise

  /** An entry job writes nothing for a missing entry. For an existing one
      it issues exactly two AI updates, `processing` and then `success` or
      `failed`, touches no other row, and the stored row is the processing
      write overwritten by the terminal one. The job succeeds exactly when
      the terminal status is `success`. */
  lemma EntryJobWrites(m: map<RowKey, Entry>, entryId: string, keyConfigured: bool,
                       respond: string -> ProviderOutcome, now: string)
    ensures var key := RowKey(entryId, DefaultUser);
      var run := ProcessEntryRun(m, entryId, keyConfigured, respond, now);
      (key !in m ==> run.entries == m && run.issued == [] && run.result == ActionFailed(EntryNotFoundMessage, None, None, None))
      && (key in m ==>
            |run.issued| == 2 && run.issued[0] == UpdateEntryAIRow(key, ProcessingEntryData)
            && run.issued[1].UpdateEntryAIRow? && run.issued[1].key == key
            && run.issued[1].entryData.status in {Success, Failed}
            && (run.issued[1].entryData.status == Success <==> run.result.ActionOk?)
            && run.entries == m[key := WithEntryAI(m[key], run.issued[1].entryData, now)])
  {
    var key := RowKey(entryId, DefaultUser);
    if key in m {
      var end := EntryJobEnd(AnalyzeEntry(m[key].content, keyConfigured, respond));
      LastAIWriteWins(m, map[], key, ProcessingEntryData, end.data, ProcessingInsightData, ProcessingInsightData, now);
    }
  }

  /** The processing write clears every AI column, so a row caught mid-job
      is consistent and shows no trace of an earlier run. */
  lemma ProcessingWriteClears(e: Entry, now: string)
    ensures var p := WithEntryAI(e, ProcessingEntryData, now);
      p.aiStatus == Processing && p.aiSummary.None? && p.aiSentiment.None? && p.aiThemes.None?
      && p.aiError.None? && EntryConsistent(p)
  {
    WithEntryAIColumns(e, ProcessingEntryData, now);
  }

  /** The row an entry job leaves: the entry's own fields as they were, the
      analysis' outputs and no error on success, and on failure the user
      message of one classification, with the same classification supplying
      the result's error, type, retry flag and wait. The row is consistent
      either way. */
  lemma EntryJobOutcome(m: map<RowKey, Entry>, entryId: string, keyConfigured: bool,
                        respond: string -> ProviderOutcome, now: string)
    requires RowKey(entryId, DefaultUser) in m
    ensures var key := RowKey(entryId, DefaultUser);
      var e := m[key];
      var a := AnalyzeEntry(e.content, keyConfigured, respond);
      var run := ProcessEntryRun(m, entryId, keyConfigured, respond, now);
      var f := run.entries[key];
      f.id == e.id && f.userId == e.userId && f.date == e.date && f.content == e.content
      && f.mood == e.mood && f.createdAt == e.createdAt && f.updatedAt == now
      && EntryConsistent(f)
      && (a.Ok? ==>
            f.aiStatus == Success && f.aiSummary == Some(a.value.summary)
            && f.aiSentiment == Some(a.value.sentiment) && f.aiThemes == Some(a.value.themes)
            && f.aiError.None? && run.result == ActionOk(()))
      && (a.Err? ==>
            var c := ResolveClassification(a.error);
            f.aiStatus == Failed && f.aiError == Some(c.userMessage)
            && run.result == ActionFailed(c.userMessage, Some(TypeName(c.kind)), Some(c.canRetry), c.retryAfter))
  {
    var key := RowKey(entryId, DefaultUser);
    var a := AnalyzeEntry(m[key].content, keyConfigured, respond);
    EntryJobWrites(m, entryId, keyConfigured, respond, now);
    var end := EntryJobEnd(a);
    WithEntryAIColumns(m[key], end.data, now);
    if a.Ok? {
      var j := respond(m[key].content).reply.json;
      assert WellFormedReply(j);
      assert Truthy(a.value.summary) && Truthy(a.value.themes);
    }
  }

  /** A job's result and what it stores depend on the entry's own fields
      only: whatever AI status, outputs or error an earlier run left, the
      job does the same. This is what lets a retry run from any status. */
  lemma EntryJobIgnoresPriorAIState(m: map<RowKey, Entry>, entryId: string, keyConfigured: bool,
                                    respond: string -> ProviderOutcome, now: string,
                                    status: AIStatus, summary: Option<JsValue>, sentiment: Option<Sentiment>,
                                    themes: Option<JsValue>, error: Option<string>, updatedAt: string)
    requires RowKey(entryId, DefaultUser) in m
    ensures var key := RowKey(entryId, DefaultUser);
      var prior := m[key := m[key].(aiStatus := status, aiSummary := summary, aiSentiment := sentiment,
                                    aiThemes := themes, aiError := error, updatedAt := updatedAt)];
      ProcessEntryRun(prior, entryId, keyConfigured, respond, now)
        == ProcessEntryRun(m, entryId, keyConfigured, respond, now)
  {
    var key := RowKey(entryId, DefaultUser);
    var e := m[key];
    var e' := e.(aiStatus := status, aiSummary := summary, aiSentiment := sentiment,
                 aiThemes := themes, aiError := error, updatedAt := updatedAt);
    var prior := m[key := e'];
    EntryJobWrites(m, entryId, keyConfigured, respond, now);
    EntryJobWrites(prior, entryId, keyConfigured, respond, now);
    var end := EntryJobEnd(AnalyzeEntry(e.content, keyConfigured, respond));
    WithEntryAIForgetsPriorState(e, end.data, now, status, summary, sentiment, themes, error, updatedAt);
    assert prior[key := WithEntryAI(e', end.data, now)] == m[key := WithEntryAI(e, end.data, now)];
  }

  /** Regenerating is the reset to `pending` followed by exactly the entry
      job on the table as it was: the same final table and result, one
      write more in front. For a missing entry only the reset is issued,
      and it matches no row. */
  lemma RegenerateIsResetThenJob(m: map<RowKey, Entry>, entryId: string, keyConfigured: bool,
                                 respond: string -> ProviderOutcome, now: string)
    ensures var key := RowKey(entryId, DefaultUser);
      var run := RegenerateRun(m, entryId, keyConfigured, respond, now);
      var job := ProcessEntryRun(m, entryId, keyConfigured, respond, now);
      run.entries == job.entries && run.result == job.result
      && run.issued == [UpdateEntryAIRow(key, PendingEntryData)] + job.issued
  {
    var key := RowKey(entryId, DefaultUser);
    if key in m {
      var e := m[key];
      var p := WithEntryAI(e, PendingEntryData, now);
      assert EntryAIAt(m, key, PendingEntryData, now)
        == m[key := e.(aiStatus := p.aiStatus, aiSummary := p.aiSummary, aiSentiment := p.aiSentiment,
                       aiThemes := p.aiThemes, aiError := p.aiError, updatedAt := p.updatedAt)];
      EntryJobIgnoresPriorAIState(m, entryId, keyConfigured, respond, now,
                                  p.aiStatus, p.aiSummary, p.aiSentiment, p.aiThemes, p.aiError, p.updatedAt);
    }
  }

  /** A failure the request itself produced is reported with the
      classification of the original error, attached when it was rethrown,
      not with a classification of the rethrown user message. */
  lemma RequestFailureKeepsClassification(m: map<RowKey, Entry>, entryId: string,
                                          respond: string -> ProviderOutcome, now: string)
    requires RowKey(entryId, DefaultUser) in m
    requires ValidateEntryContent(m[RowKey(entryId, DefaultUser)].content).None?
    ensures var content := m[RowKey(entryId, DefaultUser)].content;
      var orig := AttemptAnalysis(respond(content));
      var run := ProcessEntryRun(m, entryId, true, respond, now);
      orig.Err? ==>
        (run.result == Reported(ClassifyAIError(orig.error))
         && run.entries[RowKey(entryId, DefaultUser)].aiError == Some(ClassifyAIError(orig.error).userMessage))
  {
    var content := m[RowKey(entryId, DefaultUser)].content;
    RequestFailuresAreClassified(content, respond);
    EntryJobOutcome(m, entryId, true, respond, now);
  }

  /** Content outside the length bounds fails before the request without a
      classification; the job then classifies the gate's user message, which
      matches no pattern, so the entry is marked failed with the generic
      message and the result reports an `unknown` error that may be
      retried. */
  lemma ContentGateReportedAsUnknown(m: map<RowKey, Entry>, entryId: string, keyConfigured: bool,
                                     respond: string -> ProviderOutcome, now: string)
    requires RowKey(entryId, DefaultUser) in m
    requires ValidateEntryContent(m[RowKey(entryId, DefaultUser)].content).Some?
    ensures var run := ProcessEntryRun(m, entryId, keyConfigured, respond, now);
      run.result == ActionFailed(UnknownUserMessage, Some("unknown"), Some(true), None)
      && run.entries[RowKey(entryId, DefaultUser)].aiStatus == Failed
      && run.entries[RowKey(entryId, DefaultUser)].aiError == Some(UnknownUserMessage)
  {
    var content := m[RowKey(entryId, DefaultUser)].content;
    EntryJobOutcome(m, entryId, keyConfigured, respond, now);
    ContentGateComesFirst(content, keyConfigured, respond);
    if |Trim(content)| < MinContentLength {
      ClassifyTooShortUserMessage(None);
    } else {
      ClassifyTooLongUserMessage(None);
    }
  }

  /** Without an API key valid content fails the same way: the client's
      message is classified as `unknown`. */
  lemma MissingKeyReportedAsUnknown(m: map<RowKey, Entry>, entryId: string,
                                    respond: string -> ProviderOutcome, now: string)
    requires RowKey(entryId, DefaultUser) in m
    requires ValidateEntryContent(m[RowKey(entryId, DefaultUser)].content).None?
    ensures var run := ProcessEntryRun(m, entryId, false, respond, now);
      run.result == ActionFailed(UnknownUserMessage, Some("unknown"), Some(true), None)
      && run.entries[RowKey(entryId, DefaultUser)].aiStatus == Failed
      && run.entries[RowKey(entryId, DefaultUser)].aiError == Some(UnknownUserMessage)
  {
    var content := m[RowKey(entryId, DefaultUser)].content;
    EntryJobOutcome(m, entryId, false, respond, now);
    MissingKeyComesSecond(content, respond);
    ClassifyMissingKeyMessage(None);
  }

  /** When the request runs out of time, whether by the 30-second timer or
      the SDK's own timeout, the job reports a `timeout` that may be
      retried, with the timeout message stored. */
  lemma TimeoutReported(m: map<RowKey, Entry>, entryId: string, respond: string -> ProviderOutcome, now: string)
    requires RowKey(entryId, DefaultUser) in m
    requires ValidateEntryContent(m[RowKey(entryId, DefaultUser)].content).None?
    requires respond(m[RowKey(entryId, DefaultUser)].content) in {TimedOut, Rejected(SdkTimeoutMessage)}
    ensures var run := ProcessEntryRun(m, entryId, true, respond, now);
      run.result == ActionFailed(TimeoutUserMessage, Some("timeout"), Some(true), None)
      && run.entries[RowKey(entryId, DefaultUser)].aiError == Some(TimeoutUserMessage)
  {
    var content := m[RowKey(entryId, DefaultUser)].content;
    RequestFailureKeepsClassification(m, entryId, respond, now);
    AttemptErrors(respond(content));
    ClassifyWrapperTimeoutMessage(None);
    ClassifySdkTimeoutMessage(None);
  }

  /** A rate-limited request is reported with the wait the message names
      (60 seconds by default), as a retryable `rate_limit`. */
  lemma RateLimitReportsWait(m: map<RowKey, Entry>, entryId: string, respond: string -> ProviderOutcome,
                             now: string, message: string)
    requires RowKey(entryId, DefaultUser) in m
    requires ValidateEntryContent(m[RowKey(entryId, DefaultUser)].content).None?
    requires respond(m[RowKey(entryId, DefaultUser)].content) == Rejected(message)
    requires ClassifyAIError(ErrorObject(message, None)).kind == RateLimit
    ensures var run := ProcessEntryRun(m, entryId, true, respond, now);
      var seconds := RetryAfterSeconds(message);
      run.result == ActionFailed(RateLimitUserMessage(seconds), Some("rate_limit"), Some(true), Some(seconds))
  {
    RequestFailureKeepsClassification(m, entryId, respond, now);
  }

  // ---------------------------------------------------------------------------
  // What the insight jobs promise

  /** The error for an empty date range names both ends of the range. */
  lemma NoEntriesMessageNamesRange(startDate: string, endDate: string)
    ensures Contains(NoEntriesBetweenMessage(startDate, endDate), startDate)
    ensures Contains(NoEntriesBetweenMessage(startDate, endDate), endDate)
  {
    var head := "No entries found between ";
    var msg := NoEntriesBetweenMessage(startDate, endDate);
    SuffixMatch(head, startDate, startDate, 0);
    PrefixMatch(head + startDate, " and " + endDate, startDate, |head|);
    assert msg == head + startDate + (" and " + endDate);
    assert MatchAt(msg, startDate, |head|);
    SuffixMatch(head + startDate + " and ", endDate, endDate, 0);
    assert msg == head + startDate + " and " + endDate;
    assert MatchAt(msg, endDate, |head + startDate + " and "|);
  }

  /** No insight is created for an empty range: nothing is written and the
      error names the range. */
  lemma GenerateWithoutEntries(m: map<RowKey, Insight>, t: InsightType, startDate: string, endDate: string,
                               insightId: string, keyConfigured: bool, respond: BatchRequest -> ProviderOutcome,
                               now: string)
    ensures var run := GenerateInsightRun(m, [], t, startDate, endDate, insightId, keyConfigured, respond, now);
      run.insights == m && run.issued == [] && run.result.ActionFailed?
      && Contains(run.result.error, startDate) && Contains(run.result.error, endDate)
  {
    NoEntriesMessageNamesRange(startDate, endDate);
  }

  /** With entries in the range the insight is created, then marked
      processing, then finished, and no other insight changes; the stored
      record keeps its type, range and owner, is consistent, and the job
      returns the new id exactly when it ends in `success`. */
  lemma GenerateInsightWrites(m: map<RowKey, Insight>, listed: seq<Entry>, t: InsightType,
                              startDate: string, endDate: string, insightId: string, keyConfigured: bool,
                              respond: BatchRequest -> ProviderOutcome, now: string)
    requires RowKey(insightId, DefaultUser) !in m
    requires |listed| > 0
    ensures var key := RowKey(insightId, DefaultUser);
      var run := GenerateInsightRun(m, listed, t, startDate, endDate, insightId, keyConfigured, respond, now);
      run.insights.Keys == m.Keys + {key}
      && (forall k | k in m :: run.insights[k] == m[k])
      && |run.issued| == 3 && run.issued[0] == InsertInsightRow(key)
      && run.issued[1] == UpdateInsightAIRow(key, ProcessingInsightData)
      && run.issued[2].UpdateInsightAIRow? && run.issued[2].key == key
      && var i := run.insights[key];
      i.id == insightId && i.userId == DefaultUser && i.insightType == t
      && i.startDate == startDate && i.endDate == endDate && i.createdAt == now
      && i.aiStatus in {Success, Failed} && InsightConsistent(i)
      && (i.aiStatus == Success <==> run.result == ActionOk(insightId))
      && (run.result.ActionOk? ==> run.result == ActionOk(insightId))
  {
    var key := RowKey(insightId, DefaultUser);
    var created := m[key := NewInsight(insightId, t, startDate, endDate, DefaultUser, now)];
    var batch := GenerateBatchInsight(listed, t, keyConfigured, respond);
    var end := InsightJobEnd(batch, insightId);
    LastAIWriteWins(map[], created, key, ProcessingEntryData, ProcessingEntryData, ProcessingInsightData, end.data, now);
    WithInsightAIColumns(created[key], end.data, now);
    if batch.Ok? {
      BatchOkIsWellFormed(listed, t, keyConfigured, respond);
    }
  }

  /** A successful batch result has a truthy reflection and an array of
      themes, so both are stored. */
  lemma BatchOkIsWellFormed(entries: seq<Entry>, t: InsightType, keyConfigured: bool,
                            respond: BatchRequest -> ProviderOutcome)
    requires GenerateBatchInsight(entries, t, keyConfigured, respond).Ok?
    ensures var b := GenerateBatchInsight(entries, t, keyConfigured, respond).value;
      Truthy(b.content) && !Nullish(b.content) && b.themes.JArray? && Truthy(b.themes)
  {
    var j := respond(RequestFor(entries, t)).reply.json;
    assert WellFormedBatchReply(j);
  }

  /** What an insight job stores and reports once the insight exists: the
      reflection, themes and trend on success; on failure the batch error,
      which carries no classification of its own, classified afresh, its
      user message stored and its fields reported. */
  lemma InsightJobOutcome(i: Insight, listed: seq<Entry>, t: InsightType, keyConfigured: bool,
                          respond: BatchRequest -> ProviderOutcome, now: string)
    requires |listed| > 0
    ensures var b := GenerateBatchInsight(listed, t, keyConfigured, respond);
      var end := InsightJobEnd(b, ());
      var f := WithInsightAI(WithInsightAI(i, ProcessingInsightData, now), end.data, now);
      InsightConsistent(f)
      && (b.Ok? ==>
            f.aiStatus == Success && f.content == Some(b.value.content) && f.themes == Some(b.value.themes)
            && f.sentimentTrend == Some(b.value.sentimentTrend) && f.aiError.None? && end.result == ActionOk(()))
      && (b.Err? ==>
            var c := ClassifyAIError(b.error);
            f.aiStatus == Failed && f.aiError == Some(c.userMessage) && end.result == Reported(c))
  {
    var b := GenerateBatchInsight(listed, t, keyConfigured, respond);
    var end := InsightJobEnd(b, ());
    WithInsightAIColumns(WithInsightAI(i, ProcessingInsightData, now), end.data, now);
    BatchErrorsAreUnclassified(listed, t, keyConfigured, respond);
    if b.Ok? {
      BatchOkIsWellFormed(listed, t, keyConfigured, respond);
    }
  }

  /** Retrying a missing insight writes nothing. Otherwise it resets the
      insight to `pending` first; with no entries in its range it stops
      there, leaving the insight pending with its AI columns cleared; with
      entries it marks it processing and finishes it as generation does,
      for the insight's own type. */
  lemma RetryInsightWrites(m: map<RowKey, Insight>, listed: seq<Entry>, insightId: string, keyConfigured: bool,
                           respond: BatchRequest -> ProviderOutcome, now: string)
    ensures var key := RowKey(insightId, DefaultUser);
      var run := RetryInsightRun(m, listed, insightId, keyConfigured, respond, now);
      (key !in m ==> run.insights == m && run.issued == [] && run.result == Plain(InsightNotFoundMessage))
      && (key in m ==>
            run.insights.Keys == m.Keys && (forall k | k in m && k != key :: run.insights[k] == m[k])
            && run.issued[0] == UpdateInsightAIRow(key, PendingInsightData)
            && var i := run.insights[key];
            i.id == m[key].id && i.insightType == m[key].insightType && i.startDate == m[key].startDate
            && i.endDate == m[key].endDate && i.createdAt == m[key].createdAt && InsightConsistent(i)
            && (|listed| == 0 ==>
                  |run.issued| == 1 && i.aiStatus == Pending && run.result == Plain(NoEntriesForInsightMessage))
            && (|listed| > 0 ==>
                  |run.issued| == 3 && run.issued[1] == UpdateInsightAIRow(key, ProcessingInsightData)
                  && i.aiStatus in {Success, Failed} && (i.aiStatus == Success <==> run.result.ActionOk?)))
  {
    var key := RowKey(insightId, DefaultUser);
    if key in m {
      var pending := InsightAIAt(m, key, PendingInsightData, now);
      WithInsightAIColumns(m[key], PendingInsightData, now);
      if |listed| > 0 {
        var b := GenerateBatchInsight(listed, m[key].insightType, keyConfigured, respond);
        var end := InsightJobEnd(b, ());
        LastAIWriteWins(map[], pending, key, ProcessingEntryData, ProcessingEntryData, ProcessingInsightData, end.data, now);
        LastAIWriteWins(map[], m, key, ProcessingEntryData, ProcessingEntryData, PendingInsightData, end.data, now);
        LastAIWriteWins(map[], m, key, ProcessingEntryData, ProcessingEntryData, PendingInsightData, ProcessingInsightData, now);
        InsightJobOutcome(m[key], listed, m[key].insightType, keyConfigured, respond, now);
        WithInsightAIColumns(m[key], end.data, now);
      }
    }
  }

  /** For the listing the range query returns, sorted by date, the request
      sent for a reflection covers dates within the asked range, from its
      earliest to its latest entry. */
  lemma RequestSpanWithinRange(listed: seq<Entry>, store: map<RowKey, Entry>, t: InsightType,
                               startDate: string, endDate: string)
    requires |listed| > 0
    requires Lists(listed, store, InDateRange(DefaultUser, startDate, endDate))
    requires SortedBy(DateAscending, listed)
    ensures var q := RequestFor(listed, t);
      q.entryCount == |listed| && StrLe(startDate, q.startDate) && StrLe(q.startDate, q.endDate)
      && StrLe(q.endDate, endDate)
      && forall i | 0 <= i < |listed| :: StrLe(q.startDate, listed[i].date) && StrLe(listed[i].date, q.endDate)
  {
    var n := |listed| - 1;
    assert InScope(InDateRange(DefaultUser, startDate, endDate), listed[0]);
    assert InScope(InDateRange(DefaultUser, startDate, endDate), listed[n]);
    forall i | 0 <= i < |listed|
      ensures StrLe(listed[0].date, listed[i].date) && StrLe(listed[i].date, listed[n].date)
    {
      if 0 < i { assert Before(DateAscending, listed[0], listed[i]); } else { StrLeTotalOrder(listed[0].date, listed[0].date, listed[0].date); }
      if i < n { assert Before(DateAscending, listed[i], listed[n]); } else { StrLeTotalOrder(listed[n].date, listed[n].date, listed[n].date); }
    }
  }
}
