# HeyBagel journal: the AI job lifecycle and its error taxonomy

HeyBagel is a journaling application. Every entry a user writes gets an AI
analysis: a summary, a sentiment and themes. Weekly or monthly reflections
("insights") are generated over the entries of a date range. This project
models the part of the application that drives those analyses and proves
properties of the model:

- **The error classifier** (`AIErrors`): the first-match decision table that
  turns any error text into a classified error. That value carries the kind,
  the original message, a user message, a retry flag and, for rate limits, a
  wait parsed out of the text with `/retry[- ]after[:\s]+(\d+)/i`. The module
  also has the content-length gate and the display formatter. `ErrorTexts`
  proves how the concrete messages the application itself throws are
  classified.
- **The store** (`Queries`): the `entries` and `insights` tables as maps
  keyed by (id, user id), inside a class `Database`. It has the query
  layer's inserts, updates, deletes and ordered listings, and a ghost log of
  the statements issued, so the order of writes can be stated.
- **The job runners** (`EntryAnalysis`, `BatchInsights`): the single-entry
  pipeline (gate, client, request, reply extraction, parse, shape check,
  classified rethrow) and the batch pipeline (entries text, request,
  shape check, unchanged rethrow). The provider's answer is a
  parameter: timed out, rejected with an error, or completed with a reply.
- **The job-status actions** (`AIActions`): `processEntryAI`,
  `retryAIAnalysis`, `regenerateAIAnalysis`, `generateInsight` and
  `retryInsight`. Each is a method on the database, proved equal to a
  function of the store's state before the call. Lemmas on those functions
  state the write order, the cleared columns, the stored outcome, the
  reported classification, and the absence of any status guard.
- **The entry form actions** (`EntryActions`, `Validation`, `Dates`):
  - form-field normalisation (`""` is absent, or `null` for an edited mood);
  - the zod entry schemas;
  - the default date from `getTodayISO`;
  - the create, edit and delete actions on the store.

Two errors of the entry analysis reach the action unclassified. `analyzeEntry`
throws the content gate's user message, and the missing-API-key message,
outside its `try`, so the rethrown error carries no classification.
`processEntryAI` then classifies that text afresh. It matches no pattern, so
the entry is marked failed with the generic message, and the action reports
`unknown` with `canRetry` true, not `content_too_short` or `content_too_long`
(`AIActions.ContentGateReportedAsUnknown`,
`AIActions.MissingKeyReportedAsUnknown`).

Modules: `Wrappers` (Option, Result, Update), `Strings` (JavaScript string
operations: ASCII lower-casing, `trim`, `includes`, number printing,
`padStart`, `join`, code-point order), `Js` (JSON values, truthiness,
nullishness, property access with V8's TypeError for `null`), `Types` (the
records), then `AIErrors`, `ErrorTexts`, `Validation`, `Dates`, `Queries`,
`AIProvider`, `EntryAnalysis`, `BatchInsights`, `AIActions` and
`EntryActions`.

## Model

| member | source | states |
|---|---|---|
| AIErrors.TypeNameInjective | lib/ai/errors.ts:6-16 | the nine kinds have nine distinct type names |
| AIErrors.ClassifyAIError | lib/ai/errors.ts:29-137 | the message is the original text; only rate limits carry a wait and only key and quota errors are final; never a content kind; a rate limit's wait is the parsed header value (exact below 2^53) and its user message embeds it; the quota and network groups carry their own user messages |
| AIErrors.ClassifyFollowsRules | lib/ai/errors.ts:29-137 | the kind is the first group, in the fixed order api key, rate limit, quota, timeout, network, invalid response, whose pattern occurs in the lower-cased message |
| AIErrors.FirstMatchFrom | lib/ai/errors.ts:33-136 | the first matching group from `g` on decides; no match gives unknown |
| AIErrors.ApiKeyDominates | lib/ai/errors.ts:34-46 | a message with "api key", "unauthorized" or "401" is an invalid key, final, with no wait, whatever else it contains |
| AIErrors.FirstMatchingGroupDecides | lib/ai/errors.ts:33-127 | the first group that matches decides the kind, whatever later groups also match |
| AIErrors.NoPatternIsUnknown | lib/ai/errors.ts:129-136 | a message matching no pattern is unknown, retryable, with the generic user message |
| AIErrors.TimeoutGroupDecides | lib/ai/errors.ts:83-96 | a timeout pattern with no key, rate-limit or quota pattern before it is a retryable timeout with the timeout user message |
| AIErrors.InvalidResponseGroupDecides | lib/ai/errors.ts:114-127 | an invalid-response pattern with no pattern of an earlier group is a retryable invalid response with its user message |
| AIErrors.ClassifyIgnoresDeadPatterns | lib/ai/errors.ts:84-104 | "ETIMEDOUT", "ECONNREFUSED" and "ENOTFOUND" never occur in a lower-cased string, so classifying without them gives the same kind |
| AIErrors.RateLimitCarriesWait | lib/ai/errors.ts:48-65 | a rate limit is retryable; its wait is the first header value in the message (exact below 2^53), and 60 when there is none |
| AIErrors.FindRetryAfter | lib/ai/errors.ts:55 | no value exactly when the pattern matches nowhere; otherwise the value at the leftmost match |
| AIErrors.FirstRetryAfterAt | lib/ai/errors.ts:55 | the leftmost position from `from` on where the pattern matches, with no match before it |
| AIErrors.SeparatorRun | lib/ai/errors.ts:55 | the longest run of `[:\s]` characters from a position |
| AIErrors.DigitRun | lib/ai/errors.ts:55 | the longest run of digits from a position (the greedy `\d+`) |
| AIErrors.RetryAfterAtOf | lib/ai/errors.ts:55-56 | where "retry", "-" or " ", "after" (in any case), separators and digits occur, the match yields the digits' value |
| AIErrors.RetryAfterOfHeader | lib/ai/errors.ts:55-56 | "Retry-After", separators and a number, followed by a non-digit, yield that number |
| AIErrors.SeparatorRunOf | lib/ai/errors.ts:55 | a maximal separator run of length `n` is measured as `n` |
| AIErrors.DigitRunOf | lib/ai/errors.ts:55 | a maximal digit run of length `n` is measured as `n` |
| AIErrors.LowerRetryAfterWords | lib/ai/errors.ts:55 | the header's words match the case-insensitive pattern |
| AIErrors.ContainsAny2 | lib/ai/errors.ts:84-104 | a two-pattern group matches exactly when one of its patterns occurs |
| AIErrors.ContainsAny3 | lib/ai/errors.ts:34-37 | a three-pattern group matches exactly when one of its patterns occurs |
| AIErrors.ContainsAny4 | lib/ai/errors.ts:68-73 | a four-pattern group matches exactly when one of its patterns occurs |
| AIErrors.RulesUnfold | lib/ai/errors.ts:33-136 | the decision table is the chain of seven tests in source order |
| AIErrors.LiveRulesUnfold | lib/ai/errors.ts:84-104 | the same chain with the upper-case patterns dropped |
| AIErrors.ValidateEntryContent | lib/ai/errors.ts:142-166 | no error exactly when the trimmed length is within 10 to 10000; below is content too short, above is too long, neither retryable |
| AIErrors.FormatErrorForDisplay | lib/ai/errors.ts:171-187 | the display text starts with the user message and adds guidance after it |
| AIErrors.FormatErrorSuffixes | lib/ai/errors.ts:171-187 | exactly one of three suffixes: resolve-first when final; click-to-retry when retryable with no wait or a wait of 0; retry-in-n-seconds, with n the stored wait itself, for a positive wait |
| AIErrors.SuffixesDiffer | lib/ai/errors.ts:178-183 | two suffixes differing at their second character give two different display texts |
| ErrorTexts.WithTimeoutMessageOfAITimeout | lib/ai/entry-analysis.ts:28-47 | the timer's rejection message for 30000 ms is "Request timed out after 30000ms" |
| ErrorTexts.ClassifyTooShortUserMessage | lib/ai/errors.ts:129-136 | the too-short user message, classified, is unknown, retryable, with the generic user message |
| ErrorTexts.ClassifyTooLongUserMessage | lib/ai/errors.ts:129-136 | the too-long user message, classified, is unknown, retryable, with the generic user message |
| ErrorTexts.ClassifyMissingKeyMessage | lib/ai/client.ts:13-15 | the missing-key message, classified, is unknown and retryable |
| ErrorTexts.ClassifyNoResponseMessage | lib/ai/entry-analysis.ts:115-117 | "No response from OpenAI", classified, is unknown and retryable |
| ErrorTexts.ClassifyWrapperTimeoutMessage | lib/ai/entry-analysis.ts:43 | the timer's message, classified, is a retryable timeout with the timeout user message |
| ErrorTexts.ClassifySdkTimeoutMessage | lib/ai/entry-analysis.ts:106-108 | the SDK's "Request timed out.", classified, is a retryable timeout |
| ErrorTexts.ClassifyInvalidStructureMessage | lib/ai/entry-analysis.ts:122-124 | the shape error, classified, is a retryable invalid response |
| ErrorTexts.ClassifyNullReplyMessage | lib/ai/entry-analysis.ts:119-122 | V8's TypeError for reading `summary` of a `null` reply, classified, is unknown |
| ErrorTexts.ClassifyEmptyResponseMessage | lib/ai/batch-insights.ts:93-95 | "Empty response from OpenAI", classified, is unknown |
| ErrorTexts.ClassifyBatchInvalidStructureMessage | lib/ai/batch-insights.ts:100-107 | the batch shape error, classified, is a retryable invalid response |
| Validation.ParseMood | lib/utils/validation.ts:13 | a parsed mood's name is the input |
| Validation.ParseMoodName | lib/utils/validation.ts:13 | every mood's name parses back to that mood |
| Validation.ParseMoodAccepts | lib/utils/validation.ts:13 | exactly positive, neutral, negative and mixed are accepted |
| Validation.ContentIssues | lib/utils/validation.ts:28-34 | no issue exactly when the raw length is within 10 to 10000 and the trimmed length is at least 10; the first issue is the minimum, then the maximum, then the whitespace message |
| Validation.ParseCreateEntry | lib/utils/validation.ts:27-37 | accepted exactly when the content is a string passing the content rules and the mood is absent or known; the output keeps the content and the date; a `null` content, the first content issue, or the enum message otherwise |
| Validation.ParseUpdateEntry | lib/utils/validation.ts:43-53 | content optional with the same rules, mood absent, `null` or known; absent fields are left out of the patch, a `null` mood clears it; refused content gives its first issue, and an unknown mood with acceptable content gives the enum message |
| Validation.MaxAppliesToRawLength | lib/utils/validation.ts:31 | ten letters and 9991 spaces are refused as too long, though their trimmed form passes the analysis gate |
| Validation.AcceptedContentPassesGate | lib/utils/validation.ts:28-34 | every content the schema accepts passes the analysis gate |
| Dates.LeadingZeroIgnored | lib/utils/date.ts:54-55 | a leading zero does not change a digit string's value |
| Dates.TwoDigitsOf | lib/utils/date.ts:54-55 | below 100 the padded text has two digits with the number's value; from 10 on it is unchanged, below it gets one '0' |
| Dates.MonthPart | lib/utils/date.ts:54 | for month0 in 0 to 11 the month part is "01" to "12" |
| Dates.DateLayout | lib/utils/date.ts:56 | four, two and two characters joined by hyphens give ten characters with '-' at 4 and 7 |
| Dates.TodayISOLayout | lib/utils/date.ts:51-57 | for years 1000 to 9999 the date is ten characters with '-' at 4 and 7, reading back as the year, month0 + 1 and the day |
| Queries.CoalesceColumn | lib/db/queries.ts:225 | `?? null`: a value exactly when one was given and it is not nullish |
| Queries.GivenColumn | lib/db/queries.ts:226-228 | a value exactly when one was given |
| Queries.TruthyColumn | lib/db/queries.ts:227 | a value exactly when a truthy one was given |
| Queries.UpdatesTouchOneRow | lib/db/queries.ts:220-234 | each update keeps the table's keys, leaves every other row as it was, and changes nothing when no row matches |
| Queries.LastAIWriteWins | lib/db/queries.ts:211-232 | a second AI update of the same row overwrites the first entirely |
| Queries.NewEntryIsPending | lib/db/queries.ts:126-133 | a created entry is pending with no AI data, created and updated at the same instant, holding the given fields |
| Queries.NewInsightIsPending | lib/db/queries.ts:272-279 | a created insight is pending with no AI data, created and updated at the same instant |
| Queries.PatchedTouchesOnlyGivenFields | lib/db/queries.ts:154-182 | an edit sets the supplied fields and the update time and nothing else; consistency is kept |
| Queries.WithEntryAIForgetsPriorState | lib/db/queries.ts:211-232 | an AI update's result does not depend on the row's previous AI columns |
| Queries.WithEntryAIColumns | lib/db/queries.ts:211-232 | every AI column is overwritten: an absent or null summary or error, and a falsy or absent sentiment or themes, become null; content, mood and date stay |
| Queries.WithInsightAIColumns | lib/db/queries.ts:303-324 | the same for an insight's columns; type and range stay |
| Queries.BeforeTotal | lib/db/queries.ts:64 | both orders are total |
| Queries.BeforeTransitive | lib/db/queries.ts:64 | both orders are transitive |
| Queries.InsertPos | lib/db/queries.ts:64 | the position after every element that may precede the new one |
| Queries.InsertKeepsSorted | lib/db/queries.ts:64 | inserting there keeps a sorted list sorted |
| Queries.InsertMembers | lib/db/queries.ts:66 | the list after insertion holds exactly the old elements and the new one |
| Queries.InsertDistinct | lib/db/queries.ts:66 | inserting a row with a new key keeps the rows distinct |
| Queries.CollectStep | lib/db/queries.ts:61-67 | taking one more row keeps the listing of the rows taken so far |
| Queries.CollectedAll | lib/db/queries.ts:61-67 | once every row is taken the list is exactly the rows in scope, sorted |
| Queries.Database.GetEntryById | lib/db/queries.ts:96-104 | the row with that id and user, if any |
| Queries.Database.GetInsightById | lib/db/queries.ts:252-260 | the insight with that id and user, if any |
| Queries.Database.CreateEntry | lib/db/queries.ts:116-141 | inserts the pending entry under its key and logs the insert |
| Queries.Database.UpdateEntry | lib/db/queries.ts:143-185 | with nothing supplied, no statement and no change; otherwise the supplied fields of the matching row, logged; returns the row read back |
| Queries.Database.DeleteEntry | lib/db/queries.ts:187-195 | removes the row and reports true exactly when it existed |
| Queries.Database.UpdateEntryAI | lib/db/queries.ts:197-235 | the matching row's AI columns overwritten, logged; returns the row read back |
| Queries.Database.CreateInsight | lib/db/queries.ts:262-287 | inserts the pending insight and logs it |
| Queries.Database.UpdateInsightAI | lib/db/queries.ts:289-327 | the matching insight's AI columns overwritten, logged |
| Queries.Database.SelectEntries | lib/db/queries.ts:61-66 | exactly the rows in scope, each once, sorted by the order |
| Queries.Database.GetAllEntries | lib/db/queries.ts:59-68 | exactly the user's entries, newest date first, then newest creation first |
| Queries.Database.GetRecentEntries | lib/db/queries.ts:77-87 | at most `limit` of the user's entries in that order; all of them when fewer; no omitted entry comes before a returned one |
| Queries.Database.GetEntriesByDateRange | lib/db/queries.ts:329-342 | exactly the user's entries dated within the range, both ends included, in ascending date order |
| AIProvider.GetOpenAI | lib/ai/client.ts:5-23 | a client exactly when a key is configured; otherwise the missing-key error, unclassified |
| EntryAnalysis.AttemptAnalysis | lib/ai/entry-analysis.ts:92-133 | a result exactly for a parsed reply of the right shape, holding its summary, its sentiment's score and label, and its themes; an SDK error passes unchanged; every error is unclassified |
| EntryAnalysis.Rethrow | lib/ai/entry-analysis.ts:134-146 | the rethrown error's message is the classification's user message, with that classification attached |
| EntryAnalysis.AnalyzeEntry | lib/ai/entry-analysis.ts:66-147 | a result exactly when the content passes the gate, a key is configured and the reply is well formed; the result is that reply's fields |
| EntryAnalysis.ContentGateComesFirst | lib/ai/entry-analysis.ts:68-71 | content outside the bounds fails with the gate's user message, unclassified, whatever the key and provider |
| EntryAnalysis.MissingKeyComesSecond | lib/ai/entry-analysis.ts:73 | valid content with no key fails with the client's error, unclassified |
| EntryAnalysis.RequestFailuresAreClassified | lib/ai/entry-analysis.ts:134-146 | every failure inside the request is rethrown with the classification of the original error and its user message |
| EntryAnalysis.AttemptErrors | lib/ai/entry-analysis.ts:38-124 | the timer, a missing reply, a SyntaxError, a `null` reply and a wrong shape each fail with their own message |
| EntryAnalysis.NullSummaryMessage | lib/ai/entry-analysis.ts:122 | reading `summary` of `null` fails with V8's message |
| EntryAnalysis.OutcomeKinds | lib/ai/entry-analysis.ts:92-146 | both timeouts end as timeout, a missing or `null` reply as unknown, a wrong shape as invalid response, an SDK error as its own classification |
| BatchInsights.Blocks | lib/ai/batch-insights.ts:25-31 | one block per entry, numbered from 1 in list order |
| BatchInsights.RequestFacts | lib/ai/batch-insights.ts:34-38 | the count, the first and last entries' dates, and "week" exactly for weekly |
| BatchInsights.EntriesTextHasEveryContent | lib/ai/batch-insights.ts:25-32 | the joined text contains every entry's content in full |
| BatchInsights.AttemptBatch | lib/ai/batch-insights.ts:68-117 | a result exactly for a parsed reply with a truthy reflection, an array of themes and a truthy sentiment analysis, mapped to content, themes and trend; every error is unclassified |
| BatchInsights.GenerateBatchInsight | lib/ai/batch-insights.ts:14-122 | zero entries fail first, then a missing key, then the request |
| BatchInsights.BatchErrorsAreUnclassified | lib/ai/batch-insights.ts:118-121 | errors are rethrown unchanged: never classified, an SDK error keeping its message |
| BatchInsights.BatchOutcomes | lib/ai/batch-insights.ts:69-117 | the SDK timeout, an empty reply, a wrong shape and a good reply each end as stated |
| AIActions.ResolveClassification | actions/ai-actions.ts:64 | an attached classification is used; otherwise the error is classified |
| AIActions.ProcessEntryAI | actions/ai-actions.ts:26-95 | the store, the log and the result are those of the entry job on the table before the call |
| AIActions.RetryAIAnalysis | actions/ai-actions.ts:100-102 | exactly the entry job, with no reset |
| AIActions.RegenerateAIAnalysis | actions/ai-actions.ts:108-127 | the reset to pending, then the entry job |
| AIActions.GenerateInsight | actions/ai-actions.ts:132-208 | lists the range's entries, then the store, log and result of the insight job on them |
| AIActions.RetryInsight | actions/ai-actions.ts:213-289 | looks the insight up, resets it, lists its range, then the store, log and result of the retry job |
| AIActions.EntryJobWrites | actions/ai-actions.ts:31-70 | no write for a missing entry; otherwise exactly processing then one terminal write to that row, and success exactly when the terminal status is success |
| AIActions.ProcessingWriteClears | actions/ai-actions.ts:38-40 | the processing write nulls summary, sentiment, themes and error |
| AIActions.EntryJobOutcome | actions/ai-actions.ts:46-86 | on success the outputs are the runner's and the error null; on failure the status is failed, the error is the classification's user message, and the result's error, type, retry flag and wait come from the same classification; the row stays consistent |
| AIActions.EntryJobIgnoresPriorAIState | actions/ai-actions.ts:26-47 | no status guard: the job does the same whatever AI status, outputs or error the entry held |
| AIActions.RegenerateIsResetThenJob | actions/ai-actions.ts:108-119 | regenerating ends exactly as the entry job on the original table, with the pending write issued first |
| AIActions.RequestFailureKeepsClassification | actions/ai-actions.ts:62-86 | a request failure is reported with the original error's classification, not with one of its rethrown message |
| AIActions.ContentGateReportedAsUnknown | lib/ai/entry-analysis.ts:68-71 | out-of-bounds content ends failed with the generic message, reported as unknown and retryable |
| AIActions.MissingKeyReportedAsUnknown | lib/ai/entry-analysis.ts:73 | a missing key ends the same way |
| AIActions.TimeoutReported | actions/ai-actions.ts:62-86 | either timeout is reported as a retryable timeout with the timeout message stored |
| AIActions.RateLimitReportsWait | actions/ai-actions.ts:80-86 | a rate limit is reported with its wait (exact below 2^53) |
| AIActions.NoEntriesMessageNamesRange | actions/ai-actions.ts:141-146 | the empty-range error names both dates |
| AIActions.GenerateWithoutEntries | actions/ai-actions.ts:139-146 | no entries, no insight: nothing written, the error names the range |
| AIActions.GenerateInsightWrites | actions/ai-actions.ts:148-199 | insert, processing, terminal, to the new insight only; type, range and owner kept; the id returned exactly on success |
| AIActions.BatchOkIsWellFormed | lib/ai/batch-insights.ts:100-117 | a batch result's reflection is truthy and its themes an array |
| AIActions.InsightJobOutcome | actions/ai-actions.ts:160-199 | outputs stored on success; on failure the unclassified batch error is classified afresh, its user message stored and its fields reported |
| AIActions.RetryInsightWrites | actions/ai-actions.ts:215-281 | nothing for a missing insight; the reset first; no entries leaves it pending; otherwise processing then terminal, for the insight's own type |
| AIActions.RequestSpanWithinRange | lib/ai/batch-insights.ts:34-36 | for the range listing, the request's dates lie within the asked range and span every entry |
| EntryActions.OrUndefined | actions/entry-actions.ts:28-31 | an empty or missing field is absent |
| EntryActions.UpdateMood | actions/entry-actions.ts:83 | an empty mood is `null`, a missing one absent, any other the text |
| EntryActions.EntryDate | actions/entry-actions.ts:35 | the submitted date if non-empty, today's otherwise |
| EntryActions.AfterCreate | actions/entry-actions.ts:62-68 | a redirect to the entry's page exactly on success; otherwise the error thrown |
| EntryActions.CreateEntry | actions/entry-actions.ts:15-57 | the store, log and result of the create function |
| EntryActions.CreateEntryAndRedirect | actions/entry-actions.ts:59-69 | the create action, then its navigation |
| EntryActions.UpdateEntry | actions/entry-actions.ts:71-104 | the store, log and result of the edit function |
| EntryActions.DeleteEntryAction | actions/entry-actions.ts:106-121 | the store, log and result of the delete function |
| EntryActions.CreateEntryOutcome | actions/entry-actions.ts:20-48 | created exactly for valid content and an absent, empty or known mood, under the new id, pending, with the date or today's and the mood or none; a refused form writes nothing and reports the first schema message |
| EntryActions.CreatedEntriesPassAnalysisGate | actions/entry-actions.ts:27-42 | every created entry's content passes the analysis gate |
| EntryActions.RedirectFollowsCreation | actions/entry-actions.ts:59-69 | redirects to `/entries/{id}` exactly when creation succeeds |
| EntryActions.UpdateEntryKeepsAnalysis | actions/entry-actions.ts:81-86 | an edit touches only the addressed entry, and never its AI status, outputs or error |
| EntryActions.UpdateEntryAccepts | actions/entry-actions.ts:81-90 | which edits are accepted; success exactly when accepted and the entry exists, "Entry not found" when it does not; refused or empty edits write nothing |
| EntryActions.UpdateEntryOutcome | actions/entry-actions.ts:81-86 | non-empty content replaces, empty or absent keeps; empty mood clears, a name sets, absent keeps |
| EntryActions.DeleteEntryOutcome | actions/entry-actions.ts:106-112 | removes exactly that entry, succeeds exactly when it existed; a second delete reports "Entry not found" |

## Left out

- Input, output and identity:
  - The OpenAI SDK, the HTTP request and `process.env` are out.
  - The provider's answer to a request is a function parameter. Whether a key is configured is a boolean.
  - `randomUUID`, `randomBytes` and `new Date()` are parameters: ids are given as fresh values, and one timestamp `now` is used throughout an action.
  - `console` logging, the prompts' fixed wording and the SDK's internal retries are left out.
  - `revalidatePath` is assumed never to throw. Every call sits inside a `try`, so a throw would change what is stored or returned. These consequences are not modelled:
    - in `processEntryAI`, a throw after the success write (actions/ai-actions.ts:58-59) would overwrite the stored success with `failed`;
    - in `generateInsight` and `retryInsight`, a throw after the processing write (actions/ai-actions.ts:157) would leave the insight `processing` and return the thrown message;
    - in `retryInsight`, a throw after the reset would leave the insight `pending`;
    - in `createEntry` and `updateEntry` (actions/entry-actions.ts:45-46 and 92-93), a throw after the write would return the "Failed to …" message although the row was inserted or updated.
- Concurrency and timing: the `Promise.race` in `withTimeout` becomes one abstract "timed out" outcome. Races between concurrent jobs on one entry are not modelled. No automatic retry exists in the code, so none is modelled.
- Strings and values:
  - Strings are sequences of code points, not UTF-16 units; lower-casing is ASCII-only; ordering is code-point order.
  - Numbers in replies are kept as the text JavaScript prints for them. The model does no arithmetic on scores or averages.
  - `JSON.stringify` when a row is stored and `JSON.parse` when it is read back are both taken as identity, so `rowToEntry` and `rowToInsight` are the identity on the modelled records.
  - A form field holding a file is not modelled.
- The database:
  - The code uses a synchronous sqlite-style statement API (`prepare`, `get`, `all`, `run`). The model gives the statements' meaning, not the client.
  - SQL collation is taken to be code-point order.
  - Queries.Database.CreateEntry: requires that the new key is not in the table, where the code relies on `randomUUID` being fresh. A clashing id would make the INSERT fail.
  - Queries.Database.CreateInsight: requires a fresh insight key, for the same reason (`randomBytes`).
  - Queries.Database.GetRecentEntries: takes the limit as a natural number, where SQL's `LIMIT` accepts other values too.
  - Database exceptions, and the outer `catch` blocks that turn them into "Failed to …" results, are not modelled. The "Failed to create entry" and "Failed to create insight" throws cannot occur in the model.
- AIErrors.RetryAfterSeconds: the wait is the exact value of the digit run, where the code takes `parseInt`'s double (lib/ai/errors.ts:56). Both agree below 2^53. Above that the code rounds the value, 22 or more digits print in exponent form ("1e+21"), and about 309 or more digits give `Infinity`. The model's wait and its printed digits do not show this.
- AIErrors.ClassifyAIError: its rate-limit wait and the user message embedding it are exact only for waits below 2^53, as under AIErrors.RetryAfterSeconds.
- AIErrors.RateLimitCarriesWait: states the exact wait, which is what the code reports only below 2^53, as under AIErrors.RetryAfterSeconds.
- AIActions.RateLimitReportsWait: reports the exact wait, which is what the code reports only below 2^53, as under AIErrors.RetryAfterSeconds.
- AIErrors.FormatErrorSuffixes: the retry-in suffix prints the wait's exact digits (`RetryInSuffix`), which is what `${retryAfter}` prints only for waits below 10^21 that are also exact doubles.
- `getAllInsights` is not used by the modelled actions and is left out.
- HTTP routes, pages, UI components, authentication and `lib/utils/logger.ts` are presentation or plumbing and are left out.
- `formatDate` and `formatDateShort` rely on date-fns and are left out.
- A `null` thrown value reaching the actions' `(aiError as any).classified` would itself throw. No modelled runner throws one, so that case is not modelled.
