/** `generateBatchInsight`: the text block built from a list of entries,
    the request the reflection is asked for with, the check of the reply's
    shape, and the errors, which are rethrown as they are. */
module BatchInsights {
  import opened Wrappers
  import opened Strings
  import opened Js
  import opened Types
  import opened AIErrors
  import opened ErrorTexts
  import opened AIProvider

  /** `BatchInsightResult`. */
  datatype BatchResult = BatchResult(content: JsValue, themes: JsValue, sentimentTrend: SentimentTrend)

  const ZeroEntriesMessage: string := "Cannot generate insight " + "from zero entries"

  /** The separator between entry blocks. */
  const BlockSeparator: string := "\n\n---\n\n"

  /** The variable parts of the reflection prompt; its fixed wording is not
      modelled. */
  datatype BatchRequest = BatchRequest(
    entryCount: nat,
    timeFrame: string,
    startDate: string,
    endDate: string,
    entriesText: string)

  /** `(Sentiment: <label>)` for an analysed entry, nothing otherwise. */
  function SentimentTag(e: Entry): string {
    if e.aiSentiment.Some? then "(Sentiment: " + ToJsString(e.aiSentiment.value.sentimentLabel) + ")" else ""
  }

  /** The block for the entry at (zero-based) position `idx`. */
  function EntryBlock(idx: nat, e: Entry): string {
    "Entry " + NatToString(idx + 1) + " - " + e.date + " " + SentimentTag(e) + ":\n" + e.content
  }

  /** The blocks of `entries`, numbered from 1 in list order. */
  function Blocks(entries: seq<Entry>): (r: seq<string>)
    ensures |r| == |entries|
    ensures forall i | 0 <= i < |r| :: r[i] == EntryBlock(i, entries[i])
  {
    if |entries| == 0 then []
    else Blocks(entries[..|entries| - 1]) + [EntryBlock(|entries| - 1, entries[|entries| - 1])]
  }

  /** `entriesText`. */
  function EntriesText(entries: seq<Entry>): string {
    Join(Blocks(entries), BlockSeparator)
  }

  function TimeFrame(t: InsightType): string {
    match t
    case Weekly => "week"
    case Monthly => "month"
  }

  /** The request for a non-empty list: its size, the time frame, the first
      and the last entry's dates, and the blocks. */
  function RequestFor(entries: seq<Entry>, t: InsightType): BatchRequest
    requires |entries| > 0
  {
    BatchRequest(|entries|, TimeFrame(t), entries[0].date, entries[|entries| - 1].date, EntriesText(entries))
  }

  /** A parsed reply passes the shape check: not `null`, a truthy
      `reflection`, `themes` an array, a truthy `sentimentAnalysis`. */
  predicate WellFormedBatchReply(j: JsValue) {
    !Nullish(j) && Truthy(Get(j, "reflection")) && Get(j, "themes").JArray?
    && Truthy(Get(j, "sentimentAnalysis"))
  }

  function ReadBatch(j: JsValue): BatchResult
    requires WellFormedBatchReply(j)
  {
    var sa := Get(j, "sentimentAnalysis");
    BatchResult(Get(j, "reflection"), Get(j, "themes"),
                SentimentTrend(Get(sa, "overall"), Get(sa, "average"), Get(sa, "trajectory")))
  }

  /** The body of the `try`. The SDK's own 60-second timeout is the only one:
      it rejects with the SDK's timeout error. */
  function AttemptBatch(outcome: ProviderOutcome): (r: Result<BatchResult, RawError>)
    ensures r.Ok? <==> outcome.Completed? && outcome.reply.Parsed? && WellFormedBatchReply(outcome.reply.json)
    ensures r.Ok? ==> r.value == ReadBatch(outcome.reply.json)
    ensures outcome.Rejected? ==> r == Err(ErrorObject(outcome.message, None))
    ensures r.Err? ==> r.error.ErrorObject? && r.error.classified.None?
  {
    match outcome
    case TimedOut => Err(ErrorObject(SdkTimeoutMessage, None))
    case Rejected(m) => Err(ErrorObject(m, None))
    case Completed(NoContent) => Err(ErrorObject(EmptyResponseMessage, None))
    case Completed(Unparsable(m)) => Err(ErrorObject(m, None))
    case Completed(Parsed(j)) =>
      match GetProperty(j, "reflection")
      case Err(m) => Err(ErrorObject(m, None))
      case Ok(reflection) =>
        if !Truthy(reflection) || !Truthy(Get(j, "themes")) || !Get(j, "themes").JArray?
           || !Truthy(Get(j, "sentimentAnalysis")) then
          Err(ErrorObject(BatchInvalidStructureMessage, None))
        else
          Ok(ReadBatch(j))
  }

  /** `generateBatchInsight(entries, insightType)`, with the key
      configuration and the provider's answer to the request as inputs. */
  function GenerateBatchInsight(entries: seq<Entry>, t: InsightType, keyConfigured: bool,
                                respond: BatchRequest -> ProviderOutcome): (r: Result<BatchResult, RawError>)
    ensures |entries| == 0 ==> r == Err(ErrorObject(ZeroEntriesMessage, None))
    ensures |entries| > 0 && !keyConfigured ==> r == Err(ErrorObject(MissingKeyMessage, None))
    ensures |entries| > 0 && keyConfigured ==> r == AttemptBatch(respond(RequestFor(entries, t)))
  {
    if |entries| == 0 then
      Err(ErrorObject(ZeroEntriesMessage, None))
    else
      match GetOpenAI(keyConfigured)
      case Err(e) => Err(e)
      case Ok(_) => AttemptBatch(respond(RequestFor(entries, t)))
  }

  /** Errors are rethrown as they are: none of them carries a
      classification, and an SDK error keeps its message. */
  lemma BatchErrorsAreUnclassified(entries: seq<Entry>, t: InsightType, keyConfigured: bool,
                                   respond: BatchRequest -> ProviderOutcome)
    ensures var r := GenerateBatchInsight(entries, t, keyConfigured, respond);
      (r.Err? ==> r.error.ErrorObject? && r.error.classified.None?)
      && (|entries| > 0 && keyConfigured && respond(RequestFor(entries, t)).Rejected? ==>
            r == Err(ErrorObject(respond(RequestFor(entries, t)).message, None)))
  {
  }

  /** The request's fixed facts: the count, the frame and the dates of the
      first and last entries in list order. */
  lemma RequestFacts(entries: seq<Entry>, t: InsightType)
    requires |entries| > 0
    ensures var q := RequestFor(entries, t);
      q.entryCount == |entries| && q.startDate == entries[0].date
      && q.endDate == entries[|entries| - 1].date
      && (q.timeFrame == "week" <==> t == Weekly)
  {
  }

  /** The text sent for analysis contains every entry's content in full. */
  lemma EntriesTextHasEveryContent(entries: seq<Entry>, i: nat)
    requires i < |entries|
    ensures Contains(EntriesText(entries), entries[i].content)
  {
    var b := EntryBlock(i, entries[i]);
    var head := "Entry " + NatToString(i + 1) + " - " + entries[i].date + " " + SentimentTag(entries[i]) + ":\n";
    assert b == head + entries[i].content;
    SuffixMatch(head, entries[i].content, entries[i].content, 0);
    JoinContainsPart(Blocks(entries), BlockSeparator, i);
    ContainsTransitive(EntriesText(entries), b, entries[i].content);
  }

  /** A reply of the right shape is the result; how the other outcomes fail. */
  lemma BatchOutcomes(entries: seq<Entry>, t: InsightType, respond: BatchRequest -> ProviderOutcome)
    requires |entries| > 0
    ensures var o := respond(RequestFor(entries, t));
      var r := GenerateBatchInsight(entries, t, true, respond);
      (o == TimedOut ==> r == Err(ErrorObject(SdkTimeoutMessage, None)))
      && (o == Completed(NoContent) ==> r == Err(ErrorObject(EmptyResponseMessage, None)))
      && (o.Completed? && o.reply.Parsed? && !Nullish(o.reply.json) && !WellFormedBatchReply(o.reply.json) ==>
            r == Err(ErrorObject(BatchInvalidStructureMessage, None)))
      && (o.Completed? && o.reply.Parsed? && WellFormedBatchReply(o.reply.json) ==>
            r == Ok(ReadBatch(o.reply.json)))
  {
  }
}
