/** The server-side form schemas: the mood enum and the content rules shared
    by the create and update schemas, with the first-issue message a failed
    parse reports. */
module Validation {
  import opened Wrappers
  import opened Strings
  import opened Types
  import AIErrors

  const MinContentLength: nat := 10
  const MaxContentLength: nat := 10000

  const MinLengthMessage: string := "Entry must be at least " + "10 characters"
  const MaxLengthMessage: string := "Entry must be under " + "10000 characters"
  const WhitespaceMessage: string := "Entry content cannot " + "be just whitespace"
  /** The schema library's message for a `null` where a string is required. */
  const NullContentMessage: string := "Expected string, " + "received null"

  // ---------------------------------------------------------------------------
  // Mood enum

  function MoodName(m: Mood): string {
    match m
    case Positive => "positive"
    case Neutral => "neutral"
    case Negative => "negative"
    case Mixed => "mixed"
  }

  /** `moodSchema`: exactly the four names are accepted. */
  function ParseMood(s: string): (r: Option<Mood>)
    ensures r.Some? ==> MoodName(r.value) == s
  {
    if s == "positive" then Some(Positive)
    else if s == "neutral" then Some(Neutral)
    else if s == "negative" then Some(Negative)
    else if s == "mixed" then Some(Mixed)
    else None
  }

  lemma ParseMoodName(m: Mood)
    ensures ParseMood(MoodName(m)) == Some(m)
  {
  }

  /** A string is a mood exactly when it is one of the four names. */
  lemma ParseMoodAccepts(s: string)
    ensures ParseMood(s).Some? <==> s in {"positive", "neutral", "negative", "mixed"}
  {
  }

  /** The enum's message for any other string. */
  function EnumMessage(received: string): string {
    "Invalid enum value. " + "Expected 'positive' | " + "'neutral' | 'negative' | " + "'mixed', received '" + received + "'"
  }

  // ---------------------------------------------------------------------------
  // Content

  /** The issues the content schema reports for a string, in order: the
      minimum, the maximum, then the whitespace refinement (which runs even
      after a length issue). */
  function ContentIssues(c: string): (r: seq<string>)
    ensures r == [] <==> MinContentLength <= |c| <= MaxContentLength && |Trim(c)| >= MinContentLength
    ensures |c| < MinContentLength ==> r[0] == MinLengthMessage
    ensures MinContentLength <= |c| && |c| > MaxContentLength ==> r[0] == MaxLengthMessage
    ensures MinContentLength <= |c| <= MaxContentLength && |Trim(c)| < MinContentLength ==> r == [WhitespaceMessage]
  {
    (if |c| < MinContentLength then [MinLengthMessage] else [])
    + (if |c| > MaxContentLength then [MaxLengthMessage] else [])
    + (if |Trim(c)| < MinContentLength then [WhitespaceMessage] else [])
  }

  predicate ContentAccepted(c: string) {
    ContentIssues(c) == []
  }

  /** `createEntrySchema`'s output. */
  datatype CreateEntryData = CreateEntryData(content: string, mood: Option<Mood>, date: Option<string>)

  /** `createEntrySchema.parse`, given the content (`None` is `null`), the mood
      and the date (`None` is `undefined`); an error is the first issue's
      message. */
  function ParseCreateEntry(content: Option<string>, mood: Option<string>, date: Option<string>)
    : (r: Result<CreateEntryData, string>)
    ensures r.Ok? <==> content.Some? && ContentAccepted(content.value)
                       && (mood.None? || ParseMood(mood.value).Some?)
    ensures r.Ok? ==> r.value.content == content.value && r.value.date == date
                      && (mood.None? ==> r.value.mood.None?)
                      && (mood.Some? ==> r.value.mood == ParseMood(mood.value))
    ensures content.None? ==> r == Err(NullContentMessage)
    ensures content.Some? && !ContentAccepted(content.value) ==> r == Err(ContentIssues(content.value)[0])
    ensures (content.Some? && ContentAccepted(content.value) && mood.Some? && ParseMood(mood.value).None?)
              ==> r == Err(EnumMessage(mood.value))
  {
    var contentIssues := if content.None? then [NullContentMessage] else ContentIssues(content.value);
    var moodIssues := if mood.Some? && ParseMood(mood.value).None? then [EnumMessage(mood.value)] else [];
    if contentIssues != [] then Err(contentIssues[0])
    else if moodIssues != [] then Err(moodIssues[0])
    else Ok(CreateEntryData(content.value, if mood.Some? then ParseMood(mood.value) else None, date))
  }

  /** A mood as the update schema receives it. */
  datatype MoodInput = MoodUndefined | MoodNull | MoodText(text: string)

  /** `updateEntrySchema.parse`: content is optional and follows the create
      rules when present; mood may be absent, `null` or one of the names. */
  function ParseUpdateEntry(content: Option<string>, mood: MoodInput): (r: Result<EntryPatch, string>)
    ensures r.Ok? <==> (content.None? || ContentAccepted(content.value))
                       && (!mood.MoodText? || ParseMood(mood.text).Some?)
    ensures r.Ok? ==> (content.None? <==> r.value.content.Keep?)
                      && (content.Some? ==> r.value.content == SetTo(content.value))
    ensures r.Ok? ==> (mood.MoodUndefined? <==> r.value.mood.Keep?)
                      && (mood.MoodNull? ==> r.value.mood == SetTo(None))
                      && (mood.MoodText? ==> r.value.mood == SetTo(ParseMood(mood.text)))
    ensures content.Some? && !ContentAccepted(content.value) ==> r == Err(ContentIssues(content.value)[0])
    ensures ((content.None? || ContentAccepted(content.value)) && mood.MoodText? && ParseMood(mood.text).None?)
              ==> r == Err(EnumMessage(mood.text))
  {
    var contentIssues := if content.Some? then ContentIssues(content.value) else [];
    var moodIssues := if mood.MoodText? && ParseMood(mood.text).None? then [EnumMessage(mood.text)] else [];
    if contentIssues != [] then Err(contentIssues[0])
    else if moodIssues != [] then Err(moodIssues[0])
    else
      Ok(EntryPatch(
        if content.Some? then SetTo(content.value) else Keep,
        match mood
        case MoodUndefined => Keep
        case MoodNull => SetTo(None)
        case MoodText(t) => SetTo(ParseMood(t))))
  }

  // ---------------------------------------------------------------------------
  // Properties

  /** The maximum is checked on the raw length: ten letters followed by 9991
      spaces are rejected as too long, though their trimmed form is only ten
      characters and the AI gate would let them through. */
  lemma MaxAppliesToRawLength()
    ensures var c := "aaaaaaaaaa" + seq(9991, _ => ' ');
            && |c| == 10001 && |Trim(c)| == 10
            && ContentIssues(c) == [MaxLengthMessage]
            && AIErrors.ValidateEntryContent(c).None?
  {
    var x := "aaaaaaaaaa";
    var w := seq(9991, _ => ' ');
    var c := x + w;
    assert AllWhitespace(w);
    assert TrimStart(c) == c;
    TrimEndDropsWhitespaceTail(x, w);
    assert TrimEnd(x) == x;
  }

  /** Content the schema accepts always passes the AI content gate. */
  lemma AcceptedContentPassesGate(c: string)
    requires ContentAccepted(c)
    ensures AIErrors.ValidateEntryContent(c).None?
  {
    TrimIsCore(c);
  }
}
