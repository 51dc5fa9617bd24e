/** The records the application stores and passes around: journal entries,
    batch insights and the AI job status they share. Values the AI produced
    and the application never inspects are kept as `JsValue`. */
module Types {
  import opened Wrappers
  import opened Js

  /** The AI job status of an entry or an insight. */
  datatype AIStatus = Pending | Processing | Success | Failed

  datatype Mood = Positive | Neutral | Negative | Mixed

  datatype InsightType = Weekly | Monthly

  /** `AISentiment`: the score and label the AI gave, as parsed. */
  datatype Sentiment = Sentiment(score: JsValue, sentimentLabel: JsValue)

  /** `SentimentTrend` of a batch insight, as parsed. */
  datatype SentimentTrend = SentimentTrend(overall: JsValue, average: JsValue, trajectory: JsValue)

  /** The user every record belongs to when no user is named. */
  const DefaultUser: string := "default_user"

  /** A journal entry as `rowToEntry` returns it; `None` is a null column. */
  datatype Entry = Entry(
    id: string,
    userId: string,
    date: string,
    content: string,
    mood: Option<Mood>,
    aiSummary: Option<JsValue>,
    aiSentiment: Option<Sentiment>,
    aiThemes: Option<JsValue>,
    aiStatus: AIStatus,
    aiError: Option<string>,
    createdAt: string,
    updatedAt: string)

  /** The fields an entry edit supplies (`updateEntry`'s `updates`): each is
      left alone or set; a mood can be set to `null`. */
  datatype EntryPatch = EntryPatch(content: Update<string>, mood: Update<Option<Mood>>)

  /** A weekly or monthly reflection as `rowToInsight` returns it. */
  datatype Insight = Insight(
    id: string,
    userId: string,
    insightType: InsightType,
    startDate: string,
    endDate: string,
    content: Option<JsValue>,
    themes: Option<JsValue>,
    sentimentTrend: Option<SentimentTrend>,
    aiStatus: AIStatus,
    aiError: Option<string>,
    createdAt: string,
    updatedAt: string)

  /** An entry's AI columns agree with its status: nothing while pending or
      processing, outputs and no error on success, an error and no outputs on
      failure. */
  predicate EntryConsistent(e: Entry) {
    match e.aiStatus
    case Pending | Processing =>
      e.aiSummary.None? && e.aiSentiment.None? && e.aiThemes.None? && e.aiError.None?
    case Success =>
      e.aiSummary.Some? && e.aiSentiment.Some? && e.aiThemes.Some? && e.aiError.None?
    case Failed =>
      e.aiSummary.None? && e.aiSentiment.None? && e.aiThemes.None? && e.aiError.Some?
  }

  /** The same agreement for an insight. */
  predicate InsightConsistent(i: Insight) {
    match i.aiStatus
    case Pending | Processing =>
      i.content.None? && i.themes.None? && i.sentimentTrend.None? && i.aiError.None?
    case Success =>
      i.content.Some? && i.themes.Some? && i.sentimentTrend.Some? && i.aiError.None?
    case Failed =>
      i.content.None? && i.themes.None? && i.sentimentTrend.None? && i.aiError.Some?
  }
}
