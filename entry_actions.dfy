/** The entry form actions: creating, editing and deleting a journal entry
    from submitted form fields. Each normalises the fields, validates them
    with the entry schemas, and issues at most one statement. All of them
    act for the default user. Each action is a method on the database,
    specified by a function of the entries table before the call. */
module EntryActions {
  import opened Wrappers
  import opened Strings
  import opened Types
  import opened Validation
  import opened Dates
  import opened Queries

  /** What an entry action returns: success with its data, or the error
      text. */
  datatype ActionResult<+T> = ActionOk(data: T) | ActionFailed(error: string)

  const EntryNotFoundMessage: string := "Entry not found"

  /** `field || undefined` on a form field (`None` is a field that was not
      submitted): an empty field counts as absent. */
  function OrUndefined(field: Option<string>): (r: Option<string>)
    ensures r.None? <==> field.None? || field.value == ""
    ensures r.Some? ==> r == field
  {
    if field.Some? && field.value != "" then field else None
  }

  /** The mood given to the update schema: an empty field is `null`, an
      absent one `undefined`. */
  function UpdateMood(field: Option<string>): (r: MoodInput)
    ensures r.MoodNull? <==> field == Some("")
    ensures r.MoodUndefined? <==> field.None?
    ensures r.MoodText? ==> field == Some(r.text) && r.text != ""
  {
    if field == Some("") then MoodNull
    else if field.None? then MoodUndefined
    else MoodText(field.value)
  }

  /** `validatedData.date || getTodayISO()`: the given date unless it is
      absent or empty, and today's date otherwise. */
  function EntryDate(date: Option<string>, year: int, month0: nat, day: nat): (r: string)
    ensures date.Some? && date.value != "" ==> r == date.value
    ensures date.None? || date.value == "" ==> r == TodayISO(year, month0, day)
  {
    if date.Some? && date.value != "" then date.value else TodayISO(year, month0, day)
  }

  /** The entries table after an action, the statements it issued and its
      result. */
  datatype EntriesRun<+T> = EntriesRun(entries: map<RowKey, Entry>, issued: seq<Statement>, result: ActionResult<T>)

  /** `createEntry` on the entries table `m`, with the submitted `content`,
      `mood` and `date` fields, the fresh id, today's date as the clock reads
      it, and the time of the insert. */
  function CreateEntryRun(m: map<RowKey, Entry>, content: Option<string>, mood: Option<string>, date: Option<string>,
                          entryId: string, year: int, month0: nat, day: nat, now: string): EntriesRun<string>
  {
    match ParseCreateEntry(content, OrUndefined(mood), OrUndefined(date))
    case Err(message) => EntriesRun(m, [], ActionFailed(message))
    case Ok(v) =>
      var key := RowKey(entryId, DefaultUser);
      var e := NewEntry(entryId, v.content, EntryDate(v.date, year, month0, day), v.mood, DefaultUser, now);
      EntriesRun(m[key := e], [InsertEntryRow(key)], ActionOk(entryId))
  }

  /** `updateEntry(entryId, formData)` on the entries table `m`. */
  function UpdateEntryRun(m: map<RowKey, Entry>, entryId: string, content: Option<string>, mood: Option<string>,
                          now: string): EntriesRun<()>
  {
    match ParseUpdateEntry(OrUndefined(content), UpdateMood(mood))
    case Err(message) => EntriesRun(m, [], ActionFailed(message))
    case Ok(patch) =>
      var key := RowKey(entryId, DefaultUser);
      var entries := if patch == EntryPatch(Keep, Keep) then m else PatchAt(m, key, patch, now);
      var issued := if patch == EntryPatch(Keep, Keep) then [] else [UpdateEntryRow(key, patch)];
      EntriesRun(entries, issued, if key in m then ActionOk(()) else ActionFailed(EntryNotFoundMessage))
  }

  /** `deleteEntryAction(entryId)` on the entries table `m`. */
  function DeleteEntryRun(m: map<RowKey, Entry>, entryId: string): EntriesRun<()> {
    var key := RowKey(entryId, DefaultUser);
    EntriesRun(m - {key}, [DeleteEntryRow(key)], if key in m then ActionOk(()) else ActionFailed(EntryNotFoundMessage))
  }

  /** Where `createEntryAndRedirect` sends the browser: to the new entry's
      page, or nowhere, throwing an error with the action's message. */
  datatype Navigation = RedirectTo(path: string) | Thrown(message: string)

  function AfterCreate(r: ActionResult<string>): (n: Navigation)
    ensures n.RedirectTo? <==> r.ActionOk?
    ensures r.ActionOk? ==> n.path == "/entries/" + r.data
    ensures r.ActionFailed? ==> n.message == r.error
  {
    match r
    case ActionOk(id) => RedirectTo("/entries/" + id)
    case ActionFailed(message) => Thrown(message)
  }

  // ---------------------------------------------------------------------------
  // The actions

  /** `createEntry`, with the fresh id and the clock readings as inputs. */
  method CreateEntry(db: Database, content: Option<string>, mood: Option<string>, date: Option<string>,
                     entryId: string, year: int, month0: nat, day: nat, now: string)
    returns (r: ActionResult<string>)
    requires db.Valid()
    requires RowKey(entryId, DefaultUser) !in db.entries
    modifies db
    ensures db.Valid()
    ensures var run := CreateEntryRun(old(db.entries), content, mood, date, entryId, year, month0, day, now);
      db.entries == run.entries && db.log == old(db.log) + run.issued && r == run.result
    ensures db.insights == old(db.insights)
  {
    var validated := ParseCreateEntry(content, OrUndefined(mood), OrUndefined(date));
    if validated.Err? {
      return ActionFailed(validated.error);
    }
    var entryDate := if validated.value.date.Some? && validated.value.date.value != "" then validated.value.date.value
                     else TodayISO(year, month0, day);
    var e := db.CreateEntry(entryId, validated.value.content, entryDate, validated.value.mood, DefaultUser, now);
    r := ActionOk(entryId);
  }

  /** `createEntryAndRedirect`. */
  method CreateEntryAndRedirect(db: Database, content: Option<string>, mood: Option<string>, date: Option<string>,
                                entryId: string, year: int, month0: nat, day: nat, now: string)
    returns (n: Navigation)
    requires db.Valid()
    requires RowKey(entryId, DefaultUser) !in db.entries
    modifies db
    ensures db.Valid()
    ensures var run := CreateEntryRun(old(db.entries), content, mood, date, entryId, year, month0, day, now);
      db.entries == run.entries && db.log == old(db.log) + run.issued && n == AfterCreate(run.result)
    ensures db.insights == old(db.insights)
  {
    var r := CreateEntry(db, content, mood, date, entryId, year, month0, day, now);
    if r.ActionOk? {
      n := RedirectTo("/entries/" + r.data);
    } else {
      n := Thrown(r.error);
    }
  }

  /** `updateEntry`. */
  method UpdateEntry(db: Database, entryId: string, content: Option<string>, mood: Option<string>, now: string)
    returns (r: ActionResult<()>)
    requires db.Valid()
    modifies db
    ensures db.Valid()
    ensures var run := UpdateEntryRun(old(db.entries), entryId, content, mood, now);
      db.entries == run.entries && db.log == old(db.log) + run.issued && r == run.result
    ensures db.insights == old(db.insights)
  {
    var validated := ParseUpdateEntry(OrUndefined(content), UpdateMood(mood));
    if validated.Err? {
      return ActionFailed(validated.error);
    }
    var updated := db.UpdateEntry(entryId, validated.value, DefaultUser, now);
    if updated.None? {
      return ActionFailed(EntryNotFoundMessage);
    }
    r := ActionOk(());
  }

  /** `deleteEntryAction`. */
  method DeleteEntryAction(db: Database, entryId: string) returns (r: ActionResult<()>)
    requires db.Valid()
    modifies db
    ensures db.Valid()
    ensures var run := DeleteEntryRun(old(db.entries), entryId);
      db.entries == run.entries && db.log == old(db.log) + run.issued && r == run.result
    ensures db.insights == old(db.insights)
  {
    var deleted := db.DeleteEntry(entryId, DefaultUser);
    if !deleted {
      return ActionFailed(EntryNotFoundMessage);
    }
    r := ActionOk(());
  }

  // ---------------------------------------------------------------------------
  // What the entry actions promise

  /** Creation succeeds exactly when the content passes the schema and the
      mood, if one was chosen, is a known mood. A created entry is stored
      under the new id with the submitted content, the chosen mood or none,
      the submitted date or else today's, and a pending analysis; a refused
      form writes nothing and reports the schema's first message. */
  lemma CreateEntryOutcome(m: map<RowKey, Entry>, content: Option<string>, mood: Option<string>,
                           date: Option<string>, entryId: string, year: int, month0: nat, day: nat, now: string)
    ensures var run := CreateEntryRun(m, content, mood, date, entryId, year, month0, day, now);
      var key := RowKey(entryId, DefaultUser);
      (run.result.ActionOk? <==>
         content.Some? && ContentAccepted(content.value)
         && (mood.None? || mood.value == "" || ParseMood(mood.value).Some?))
      && (run.result.ActionOk? ==>
            run.result.data == entryId && run.issued == [InsertEntryRow(key)]
            && run.entries.Keys == m.Keys + {key} && (forall k | k in m && k != key :: run.entries[k] == m[k])
            && var e := run.entries[key];
            e.id == entryId && e.userId == DefaultUser && e.content == content.value
            && e.mood == (if mood.None? || mood.value == "" then None else ParseMood(mood.value))
            && e.date == EntryDate(date, year, month0, day)
            && e.aiStatus == Pending && EntryConsistent(e) && e.createdAt == now && e.updatedAt == now)
      && (run.result.ActionFailed? ==>
            run.entries == m && run.issued == []
            && (content.None? ==> run.result.error == NullContentMessage)
            && (content.Some? && !ContentAccepted(content.value) ==>
                  run.result.error == ContentIssues(content.value)[0]))
  {
    var v := ParseCreateEntry(content, OrUndefined(mood), OrUndefined(date));
    if v.Ok? {
      NewEntryIsPending(entryId, v.value.content, EntryDate(v.value.date, year, month0, day), v.value.mood,
                        DefaultUser, now);
    }
  }

  /** Every entry created passes the analysis gate: the create schema is
      stricter than the content check the analysis makes. */
  lemma CreatedEntriesPassAnalysisGate(m: map<RowKey, Entry>, content: Option<string>, mood: Option<string>,
                                       date: Option<string>, entryId: string, year: int, month0: nat, day: nat,
                                       now: string)
    requires CreateEntryRun(m, content, mood, date, entryId, year, month0, day, now).result.ActionOk?
    ensures var run := CreateEntryRun(m, content, mood, date, entryId, year, month0, day, now);
      AIErrors.ValidateEntryContent(run.entries[RowKey(entryId, DefaultUser)].content).None?
  {
    CreateEntryOutcome(m, content, mood, date, entryId, year, month0, day, now);
    AcceptedContentPassesGate(content.value);
  }

  /** The browser is sent to the new entry's page exactly when creation
      succeeds; otherwise the action throws with the validation message. */
  lemma RedirectFollowsCreation(m: map<RowKey, Entry>, content: Option<string>, mood: Option<string>,
                                date: Option<string>, entryId: string, year: int, month0: nat, day: nat,
                                now: string)
    ensures var run := CreateEntryRun(m, content, mood, date, entryId, year, month0, day, now);
      var n := AfterCreate(run.result);
      (n == RedirectTo("/entries/" + entryId) <==> run.result.ActionOk?)
      && (content.None? ==> n == Thrown(NullContentMessage))
  {
    CreateEntryOutcome(m, content, mood, date, entryId, year, month0, day, now);
  }

  /** An edit changes at most the addressed entry and only its content, mood
      and update time: the entry's AI status, outputs and error stay as they
      were, even when the content changes. */
  lemma UpdateEntryKeepsAnalysis(m: map<RowKey, Entry>, entryId: string, content: Option<string>,
                                 mood: Option<string>, now: string)
    ensures var run := UpdateEntryRun(m, entryId, content, mood, now);
      run.entries.Keys == m.Keys
      && (forall k | k in m && k != RowKey(entryId, DefaultUser) :: run.entries[k] == m[k])
      && forall k | k in m ::
           var e, f := m[k], run.entries[k];
           f.id == e.id && f.userId == e.userId && f.date == e.date && f.createdAt == e.createdAt
           && f.aiStatus == e.aiStatus && f.aiSummary == e.aiSummary && f.aiSentiment == e.aiSentiment
           && f.aiThemes == e.aiThemes && f.aiError == e.aiError
  {
    var key := RowKey(entryId, DefaultUser);
    match ParseUpdateEntry(OrUndefined(content), UpdateMood(mood))
    case Err(_) =>
    case Ok(patch) =>
      var d := EntryAIData(Pending, Omitted, Omitted, Omitted, Omitted);
      UpdatesTouchOneRow(m, map[], key, patch, d, InsightAIData(Pending, Omitted, Omitted, Omitted, Omitted), now);
      if key in m {
        PatchedTouchesOnlyGivenFields(m[key], patch, now);
      }
  }

  /** Which edits are accepted: content that is absent, empty or passes the
      schema, and a mood that is absent, empty or a known name. The edit
      reports success exactly when it is accepted and the entry exists; a
      refused edit writes nothing, and neither does one that leaves both
      fields absent or empty. */
  lemma UpdateEntryAccepts(m: map<RowKey, Entry>, entryId: string, content: Option<string>,
                           mood: Option<string>, now: string)
    ensures var run := UpdateEntryRun(m, entryId, content, mood, now);
      var key := RowKey(entryId, DefaultUser);
      var accepted := ParseUpdateEntry(OrUndefined(content), UpdateMood(mood)).Ok?;
      (accepted <==>
         (OrUndefined(content).None? || ContentAccepted(content.value))
         && (mood.None? || mood.value == "" || ParseMood(mood.value).Some?))
      && (run.result.ActionOk? <==> accepted && key in m)
      && (accepted && key !in m ==> run.result == ActionFailed(EntryNotFoundMessage) && run.entries == m)
      && (!accepted || (OrUndefined(content).None? && mood.None?) ==> run.entries == m && run.issued == [])
  {
  }

  /** How an accepted edit changes an existing entry: non-empty content
      replaces the content, an empty or absent content field keeps it; an
      empty mood field clears the mood, a mood name sets it, an absent field
      keeps it. An edit that sets something issues one update and stamps the
      update time. */
  lemma UpdateEntryOutcome(m: map<RowKey, Entry>, entryId: string, content: Option<string>,
                           mood: Option<string>, now: string)
    requires RowKey(entryId, DefaultUser) in m
    requires ParseUpdateEntry(OrUndefined(content), UpdateMood(mood)).Ok?
    ensures var run := UpdateEntryRun(m, entryId, content, mood, now);
      var e, f := m[RowKey(entryId, DefaultUser)], run.entries[RowKey(entryId, DefaultUser)];
      f.content == (if content.None? || content.value == "" then e.content else content.value)
      && f.mood == (if mood.None? then e.mood else if mood.value == "" then None else ParseMood(mood.value))
      && (!(OrUndefined(content).None? && mood.None?) ==>
            f.updatedAt == now && |run.issued| == 1 && run.issued[0].UpdateEntryRow?)
  {
    var key := RowKey(entryId, DefaultUser);
    var patch := ParseUpdateEntry(OrUndefined(content), UpdateMood(mood)).value;
    PatchedTouchesOnlyGivenFields(m[key], patch, now);
  }

  /** Deleting removes exactly the addressed entry and succeeds exactly when
      it existed; deleting it again changes nothing more and reports that the
      entry is not found. */
  lemma DeleteEntryOutcome(m: map<RowKey, Entry>, entryId: string)
    ensures var run := DeleteEntryRun(m, entryId);
      var key := RowKey(entryId, DefaultUser);
      run.entries.Keys == m.Keys - {key}
      && (forall k | k in run.entries :: run.entries[k] == m[k])
      && (run.result.ActionOk? <==> key in m)
      && var again := DeleteEntryRun(run.entries, entryId);
      again.entries == run.entries && again.result == ActionFailed(EntryNotFoundMessage)
  {
  }
}
