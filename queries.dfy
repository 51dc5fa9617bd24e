/** The store behind the application: the `entries` and `insights` tables and
    the statements the query layer issues against them. Rows are kept as the
    records `rowToEntry` and `rowToInsight` produce; a row is addressed by
    its id together with its user, as every statement's `WHERE id = ? AND
    user_id = ?` does. */
module Queries {
  import opened Wrappers
  import opened Strings
  import opened Js
  import opened Types

  /** The columns every single-row statement matches on. */
  datatype RowKey = RowKey(id: string, userId: string)

  function EntryKey(e: Entry): RowKey { RowKey(e.id, e.userId) }

  function InsightKey(i: Insight): RowKey { RowKey(i.id, i.userId) }

  /** The number of rows `getRecentEntries` returns when no limit is given. */
  const DefaultRecentLimit: nat := 20

  // ---------------------------------------------------------------------------
  // Column values of the AI updates

  /** An optional, nullable property of an AI update: left out, `null`, or
      given. */
  datatype Field<+T> = Omitted | Null | Given(value: T)

  /** `updateEntryAI`'s `aiData`. */
  datatype EntryAIData = EntryAIData(
    status: AIStatus,
    summary: Field<JsValue>,
    sentiment: Field<Sentiment>,
    themes: Field<JsValue>,
    error: Field<string>)

  /** `updateInsightAI`'s `aiData`. */
  datatype InsightAIData = InsightAIData(
    status: AIStatus,
    content: Field<JsValue>,
    themes: Field<JsValue>,
    sentimentTrend: Field<SentimentTrend>,
    error: Field<string>)

  /** `x ?? null` on a property holding a JavaScript value. */
  function CoalesceColumn(f: Field<JsValue>): (r: Option<JsValue>)
    ensures r.Some? <==> f.Given? && !Nullish(f.value)
    ensures r.Some? ==> r.value == f.value
  {
    if f.Given? && !Nullish(f.value) then Some(f.value) else None
  }

  /** `x ?? null` or `x ? JSON.stringify(x) : null` on a property whose given
      value is never nullish or falsy (a string or an object). */
  function GivenColumn<T>(f: Field<T>): (r: Option<T>)
    ensures r.Some? <==> f.Given?
    ensures r.Some? ==> r.value == f.value
  {
    if f.Given? then Some(f.value) else None
  }

  /** `x ? JSON.stringify(x) : null` on a property holding a JavaScript value. */
  function TruthyColumn(f: Field<JsValue>): (r: Option<JsValue>)
    ensures r.Some? <==> f.Given? && Truthy(f.value)
    ensures r.Some? ==> r.value == f.value
  {
    if f.Given? && Truthy(f.value) then Some(f.value) else None
  }

  // ---------------------------------------------------------------------------
  // Rows written

  /** The row `createEntry` inserts. */
  function NewEntry(id: string, content: string, date: string, mood: Option<Mood>, userId: string, now: string): Entry {
    Entry(id, userId, date, content, mood, None, None, None, Pending, None, now, now)
  }

  /** The row `createInsight` inserts. */
  function NewInsight(id: string, insightType: InsightType, startDate: string, endDate: string, userId: string, now: string): Insight {
    Insight(id, userId, insightType, startDate, endDate, None, None, None, Pending, None, now, now)
  }

  /** An entry row after `updateEntry`'s UPDATE. */
  function Patched(e: Entry, patch: EntryPatch, now: string): Entry {
    e.(content := if patch.content.SetTo? then patch.content.value else e.content,
       mood := if patch.mood.SetTo? then patch.mood.value else e.mood,
       updatedAt := now)
  }

  /** An entry row after `updateEntryAI`'s UPDATE. */
  function WithEntryAI(e: Entry, d: EntryAIData, now: string): Entry {
    e.(aiStatus := d.status,
       aiSummary := CoalesceColumn(d.summary),
       aiSentiment := GivenColumn(d.sentiment),
       aiThemes := TruthyColumn(d.themes),
       aiError := GivenColumn(d.error),
       updatedAt := now)
  }

  /** An insight row after `updateInsightAI`'s UPDATE. */
  function WithInsightAI(i: Insight, d: InsightAIData, now: string): Insight {
    i.(aiStatus := d.status,
       content := CoalesceColumn(d.content),
       themes := TruthyColumn(d.themes),
       sentimentTrend := GivenColumn(d.sentimentTrend),
       aiError := GivenColumn(d.error),
       updatedAt := now)
  }

  /** `updateEntry`'s UPDATE on the table: it changes the row at `k` when
      there is one, and nothing otherwise. */
  function PatchAt(m: map<RowKey, Entry>, k: RowKey, patch: EntryPatch, now: string): map<RowKey, Entry> {
    if k in m then m[k := Patched(m[k], patch, now)] else m
  }

  /** `updateEntryAI`'s UPDATE on the table. */
  function EntryAIAt(m: map<RowKey, Entry>, k: RowKey, d: EntryAIData, now: string): map<RowKey, Entry> {
    if k in m then m[k := WithEntryAI(m[k], d, now)] else m
  }

  /** `updateInsightAI`'s UPDATE on the table. */
  function InsightAIAt(m: map<RowKey, Insight>, k: RowKey, d: InsightAIData, now: string): map<RowKey, Insight> {
    if k in m then m[k := WithInsightAI(m[k], d, now)] else m
  }

  /** Each UPDATE changes at most the row at `k`: the set of rows stays, every
      other row stays, and with no row at `k` nothing changes. */
  lemma UpdatesTouchOneRow(m: map<RowKey, Entry>, n: map<RowKey, Insight>, k: RowKey,
                           patch: EntryPatch, d: EntryAIData, g: InsightAIData, now: string)
    ensures PatchAt(m, k, patch, now).Keys == m.Keys && EntryAIAt(m, k, d, now).Keys == m.Keys
    ensures InsightAIAt(n, k, g, now).Keys == n.Keys
    ensures forall j | j in m && j != k :: PatchAt(m, k, patch, now)[j] == m[j] && EntryAIAt(m, k, d, now)[j] == m[j]
    ensures forall j | j in n && j != k :: InsightAIAt(n, k, g, now)[j] == n[j]
    ensures k !in m ==> PatchAt(m, k, patch, now) == m && EntryAIAt(m, k, d, now) == m
    ensures k !in n ==> InsightAIAt(n, k, g, now) == n
  {
  }

  /** Two AI updates of one row in a row leave what the second alone would:
      the last write decides every AI column. */
  lemma LastAIWriteWins(m: map<RowKey, Entry>, n: map<RowKey, Insight>, k: RowKey,
                        d1: EntryAIData, d2: EntryAIData, g1: InsightAIData, g2: InsightAIData, now: string)
    ensures EntryAIAt(EntryAIAt(m, k, d1, now), k, d2, now) == EntryAIAt(m, k, d2, now)
    ensures InsightAIAt(InsightAIAt(n, k, g1, now), k, g2, now) == InsightAIAt(n, k, g2, now)
  {
    if k in m {
      assert WithEntryAI(WithEntryAI(m[k], d1, now), d2, now) == WithEntryAI(m[k], d2, now);
    }
    if k in n {
      assert WithInsightAI(WithInsightAI(n[k], g1, now), g2, now) == WithInsightAI(n[k], g2, now);
    }
  }

  /** A new entry is pending, has no AI data, and was created and updated at
      the same instant. */
  lemma NewEntryIsPending(id: string, content: string, date: string, mood: Option<Mood>, userId: string, now: string)
    ensures var e := NewEntry(id, content, date, mood, userId, now);
      e.aiStatus == Pending && EntryConsistent(e) && e.createdAt == e.updatedAt == now
      && EntryKey(e) == RowKey(id, userId) && e.content == content && e.date == date && e.mood == mood
  {
  }

  lemma NewInsightIsPending(id: string, insightType: InsightType, startDate: string, endDate: string, userId: string, now: string)
    ensures var i := NewInsight(id, insightType, startDate, endDate, userId, now);
      i.aiStatus == Pending && InsightConsistent(i) && i.createdAt == i.updatedAt == now
      && InsightKey(i) == RowKey(id, userId) && i.insightType == insightType
      && i.startDate == startDate && i.endDate == endDate
  {
  }

  /** An edit changes exactly the fields it sets and the update time: the AI
      columns, the date and the creation time stay, and so does consistency. */
  lemma PatchedTouchesOnlyGivenFields(e: Entry, patch: EntryPatch, now: string)
    ensures var p := Patched(e, patch, now);
      (p.content != e.content ==> patch.content == SetTo(p.content))
      && (patch.content.SetTo? ==> p.content == patch.content.value)
      && (p.mood != e.mood ==> patch.mood == SetTo(p.mood))
      && (patch.mood.SetTo? ==> p.mood == patch.mood.value)
      && p.updatedAt == now
      && p == e.(content := p.content, mood := p.mood, updatedAt := now)
      && (EntryConsistent(e) ==> EntryConsistent(p))
  {
  }

  /** An AI update replaces every AI column and the status regardless of what
      they held: the prior AI state of the row does not show in the result. */
  lemma WithEntryAIForgetsPriorState(e: Entry, d: EntryAIData, now: string,
      status: AIStatus, summary: Option<JsValue>, sentiment: Option<Sentiment>,
      themes: Option<JsValue>, error: Option<string>, updatedAt: string)
    ensures WithEntryAI(e, d, now)
      == WithEntryAI(e.(aiStatus := status, aiSummary := summary, aiSentiment := sentiment,
                        aiThemes := themes, aiError := error, updatedAt := updatedAt), d, now)
  {
  }

  /** What each column of an AI update ends up holding: an omitted or `null`
      property clears its column, a nullish summary or a falsy themes value
      too; the entry's own fields stay. */
  lemma WithEntryAIColumns(e: Entry, d: EntryAIData, now: string)
    ensures var a := WithEntryAI(e, d, now);
      a.aiStatus == d.status
      && (a.aiSummary.None? <==> d.summary.Omitted? || d.summary.Null? || Nullish(d.summary.value))
      && (a.aiSentiment.None? <==> !d.sentiment.Given?)
      && (a.aiThemes.None? <==> d.themes.Omitted? || d.themes.Null? || !Truthy(d.themes.value))
      && (a.aiError.None? <==> !d.error.Given?)
      && (a.aiSummary.Some? ==> a.aiSummary.value == d.summary.value)
      && (a.aiSentiment.Some? ==> a.aiSentiment.value == d.sentiment.value)
      && (a.aiThemes.Some? ==> a.aiThemes.value == d.themes.value)
      && (a.aiError.Some? ==> a.aiError.value == d.error.value)
      && a.id == e.id && a.userId == e.userId && a.date == e.date && a.content == e.content
      && a.mood == e.mood && a.createdAt == e.createdAt && a.updatedAt == now
  {
  }

  lemma WithInsightAIColumns(i: Insight, d: InsightAIData, now: string)
    ensures var a := WithInsightAI(i, d, now);
      a.aiStatus == d.status
      && (a.content.None? <==> d.content.Omitted? || d.content.Null? || Nullish(d.content.value))
      && (a.themes.None? <==> d.themes.Omitted? || d.themes.Null? || !Truthy(d.themes.value))
      && (a.sentimentTrend.None? <==> !d.sentimentTrend.Given?)
      && (a.aiError.None? <==> !d.error.Given?)
      && (a.content.Some? ==> a.content.value == d.content.value)
      && (a.themes.Some? ==> a.themes.value == d.themes.value)
      && (a.sentimentTrend.Some? ==> a.sentimentTrend.value == d.sentimentTrend.value)
      && (a.aiError.Some? ==> a.aiError.value == d.error.value)
      && a.id == i.id && a.userId == i.userId && a.insightType == i.insightType
      && a.startDate == i.startDate && a.endDate == i.endDate
      && a.createdAt == i.createdAt && a.updatedAt == now
  {
  }

  // ---------------------------------------------------------------------------
  // Orderings and selections of entry lists

  /** The ORDER BY of a listing: `date DESC, created_at DESC`, or `date ASC`. */
  datatype Order = NewestFirst | DateAscending

  /** `a` may be listed before `b`. */
  predicate Before(o: Order, a: Entry, b: Entry) {
    match o
    case NewestFirst => StrLt(b.date, a.date) || (a.date == b.date && StrLe(b.createdAt, a.createdAt))
    case DateAscending => StrLe(a.date, b.date)
  }

  lemma BeforeTotal(o: Order, a: Entry, b: Entry)
    ensures Before(o, a, b) || Before(o, b, a)
  {
    StrLeTotalOrder(a.date, b.date, b.date);
    StrLeTotalOrder(a.createdAt, b.createdAt, b.createdAt);
  }

  lemma BeforeTransitive(o: Order, a: Entry, b: Entry, c: Entry)
    requires Before(o, a, b) && Before(o, b, c)
    ensures Before(o, a, c)
  {
    StrLeTotalOrder(c.date, b.date, a.date);
    StrLeTotalOrder(c.createdAt, b.createdAt, a.createdAt);
    StrLeTotalOrder(a.date, b.date, c.date);
    StrLtAsymmetric(a.date, b.date);
    StrLtAsymmetric(b.date, c.date);
  }

  predicate SortedBy(o: Order, s: seq<Entry>) {
    forall i, j | 0 <= i < j < |s| :: Before(o, s[i], s[j])
  }

  /** The WHERE of a listing: one user's rows, or one user's rows dated
      within `[startDate, endDate]`. */
  datatype Scope = OfUser(userId: string) | InDateRange(userId: string, startDate: string, endDate: string)

  predicate InScope(f: Scope, e: Entry) {
    match f
    case OfUser(u) => e.userId == u
    case InDateRange(u, s, t) => e.userId == u && StrLe(s, e.date) && StrLe(e.date, t)
  }

  /** Every element of `r` is a stored row in scope. */
  ghost predicate FromStore(r: seq<Entry>, m: map<RowKey, Entry>, f: Scope) {
    forall i | 0 <= i < |r| :: EntryKey(r[i]) in m && m[EntryKey(r[i])] == r[i] && InScope(f, r[i])
  }

  /** No row appears twice in `r`. */
  predicate DistinctRows(r: seq<Entry>) {
    forall i, j | 0 <= i < j < |r| :: EntryKey(r[i]) != EntryKey(r[j])
  }

  /** `r` lists the rows of `m` in scope, each once. */
  ghost predicate Lists(r: seq<Entry>, m: map<RowKey, Entry>, f: Scope) {
    FromStore(r, m, f) && DistinctRows(r) && (forall k | k in m && InScope(f, m[k]) :: m[k] in r)
  }

  /** Where `x` goes in the sorted `s`: after every element that may precede it. */
  function InsertPos(o: Order, s: seq<Entry>, x: Entry): (p: nat)
    ensures p <= |s|
    ensures forall i | 0 <= i < p :: Before(o, s[i], x)
    ensures p < |s| ==> !Before(o, s[p], x)
  {
    if |s| == 0 || !Before(o, s[0], x) then 0 else 1 + InsertPos(o, s[1..], x)
  }

  lemma InsertKeepsSorted(o: Order, s: seq<Entry>, x: Entry)
    requires SortedBy(o, s)
    ensures var p := InsertPos(o, s, x); SortedBy(o, s[..p] + [x] + s[p..])
  {
    var p := InsertPos(o, s, x);
    var t := s[..p] + [x] + s[p..];
    if p < |s| { BeforeTotal(o, s[p], x); }
    forall i, j | 0 <= i < j < |t|
      ensures Before(o, t[i], t[j])
    {
      if j < p {
        assert t[i] == s[i] && t[j] == s[j];
      } else if j == p {
        assert t[i] == s[i] && t[j] == x;
      } else if i == p {
        assert t[j] == s[j - 1];
        if j - 1 > p { BeforeTransitive(o, x, s[p], s[j - 1]); }
      } else if i < p {
        assert t[i] == s[i] && t[j] == s[j - 1];
      } else {
        assert t[i] == s[i - 1] && t[j] == s[j - 1];
      }
    }
  }

  /** `s` with `x` inserted where it sorts. */
  function Insert(o: Order, s: seq<Entry>, x: Entry): (t: seq<Entry>)
  {
    var p := InsertPos(o, s, x);
    s[..p] + [x] + s[p..]
  }

  /** Inserting adds exactly `x` to the elements. */
  lemma InsertMembers(o: Order, s: seq<Entry>, x: Entry)
    ensures var t := Insert(o, s, x);
      x in t && (forall y | y in s :: y in t) && (forall y | y in t :: y == x || y in s)
  {
    var p := InsertPos(o, s, x);
    var t := s[..p] + [x] + s[p..];
    assert t[p] == x;
    forall y | y in s
      ensures y in t
    {
      var i :| 0 <= i < |s| && s[i] == y;
      if i < p { assert t[i] == y; } else { assert t[i + 1] == y; }
    }
    forall i | 0 <= i < |t|
      ensures t[i] == x || t[i] in s
    {
      if i < p { assert t[i] == s[i]; } else if i > p { assert t[i] == s[i - 1]; }
    }
  }

  /** Inserting a row not yet listed keeps the list free of repeats. */
  lemma InsertDistinct(o: Order, s: seq<Entry>, x: Entry)
    requires DistinctRows(s)
    requires forall y | y in s :: EntryKey(y) != EntryKey(x)
    ensures DistinctRows(Insert(o, s, x))
  {
    var p := InsertPos(o, s, x);
    var t := s[..p] + [x] + s[p..];
    forall i, j | 0 <= i < j < |t|
      ensures EntryKey(t[i]) != EntryKey(t[j])
    {
      if j < p {
        assert t[i] == s[i] && t[j] == s[j];
      } else if j == p {
        assert t[i] == s[i] && t[j] == x;
      } else if i < p {
        assert t[i] == s[i] && t[j] == s[j - 1];
      } else if i == p {
        assert t[i] == x && t[j] == s[j - 1];
      } else {
        assert t[i] == s[i - 1] && t[j] == s[j - 1];
      }
    }
  }

  /** Having visited the keys `done` of `m`, `r` holds the rows among them in
      scope, sorted and each once. */
  ghost predicate Collected(m: map<RowKey, Entry>, f: Scope, o: Order, r: seq<Entry>, done: set<RowKey>) {
    SortedBy(o, r) && DistinctRows(r)
    && (forall x | x in r :: EntryKey(x) in done && EntryKey(x) in m && m[EntryKey(x)] == x && InScope(f, x))
    && (forall k | k in done && k in m && InScope(f, m[k]) :: m[k] in r)
  }

  /** Having visited every key, `r` is the listing. */
  lemma CollectedAll(m: map<RowKey, Entry>, f: Scope, o: Order, r: seq<Entry>)
    requires Collected(m, f, o, r, m.Keys)
    ensures Lists(r, m, f) && SortedBy(o, r)
  {
    assert forall i | 0 <= i < |r| :: r[i] in r;
  }

  /** Visiting one more key keeps `Collected`. */
  lemma CollectStep(m: map<RowKey, Entry>, f: Scope, o: Order, r: seq<Entry>, done: set<RowKey>, k: RowKey)
    requires k in m && k !in done && EntryKey(m[k]) == k
    requires Collected(m, f, o, r, done)
    ensures Collected(m, f, o, if InScope(f, m[k]) then Insert(o, r, m[k]) else r, done + {k})
  {
    var e := m[k];
    if InScope(f, e) {
      InsertKeepsSorted(o, r, e);
      InsertDistinct(o, r, e);
      InsertMembers(o, r, e);
    }
  }

  // ---------------------------------------------------------------------------
  // The database

  /** A statement the query layer issued, in the order issued. */
  datatype Statement =
    | InsertEntryRow(key: RowKey)
    | UpdateEntryRow(key: RowKey, patch: EntryPatch)
    | DeleteEntryRow(key: RowKey)
    | UpdateEntryAIRow(key: RowKey, entryData: EntryAIData)
    | InsertInsightRow(key: RowKey)
    | UpdateInsightAIRow(key: RowKey, insightData: InsightAIData)

  class Database {
    var entries: map<RowKey, Entry>
    var insights: map<RowKey, Insight>
    /** Every writing statement issued, matching a row or not. */
    ghost var log: seq<Statement>

    /** Each row is stored under its own id and user. */
    ghost predicate Valid()
      reads this
    {
      (forall k | k in entries :: EntryKey(entries[k]) == k)
      && (forall k | k in insights :: InsightKey(insights[k]) == k)
    }

    constructor ()
      ensures Valid()
      ensures entries == map[] && insights == map[] && log == []
    {
      entries := map[];
      insights := map[];
      log := [];
    }

    /** `getEntryById`: the row with this id and user, if any. */
    function GetEntryById(id: string, userId: string): (r: Option<Entry>)
      reads this
      requires Valid()
      ensures r.Some? <==> RowKey(id, userId) in entries
      ensures r.Some? ==> r.value.id == id && r.value.userId == userId
      ensures r.Some? ==> r.value == entries[RowKey(id, userId)]
    {
      var k := RowKey(id, userId);
      if k in entries then Some(entries[k]) else None
    }

    /** `getInsightById`. */
    function GetInsightById(id: string, userId: string): (r: Option<Insight>)
      reads this
      requires Valid()
      ensures r.Some? <==> RowKey(id, userId) in insights
      ensures r.Some? ==> r.value.id == id && r.value.userId == userId
      ensures r.Some? ==> r.value == insights[RowKey(id, userId)]
    {
      var k := RowKey(id, userId);
      if k in insights then Some(insights[k]) else None
    }

    /** `createEntry`: inserts a pending entry and returns it as read back. */
    method CreateEntry(id: string, content: string, date: string, mood: Option<Mood>, userId: string, now: string)
      returns (e: Entry)
      requires Valid()
      requires RowKey(id, userId) !in entries
      modifies this
      ensures Valid()
      ensures e == NewEntry(id, content, date, mood, userId, now)
      ensures entries == old(entries)[RowKey(id, userId) := e]
      ensures insights == old(insights)
      ensures log == old(log) + [InsertEntryRow(RowKey(id, userId))]
    {
      var key := RowKey(id, userId);
      entries := entries[key := NewEntry(id, content, date, mood, userId, now)];
      log := log + [InsertEntryRow(key)];
      var found := GetEntryById(id, userId);
      e := found.value;
    }

    /** `updateEntry`: writes the fields the patch sets and the update time;
        with nothing to set it issues no statement. Returns the row as read
        back. */
    method UpdateEntry(id: string, patch: EntryPatch, userId: string, now: string) returns (r: Option<Entry>)
      requires Valid()
      modifies this
      ensures Valid()
      ensures insights == old(insights)
      ensures patch == EntryPatch(Keep, Keep) ==> entries == old(entries) && log == old(log)
      ensures patch != EntryPatch(Keep, Keep) ==>
        entries == PatchAt(old(entries), RowKey(id, userId), patch, now)
        && log == old(log) + [UpdateEntryRow(RowKey(id, userId), patch)]
      ensures r == GetEntryById(id, userId)
    {
      var fields: seq<string> := [];
      if patch.content.SetTo? {
        fields := fields + ["content = ?"];
      }
      if patch.mood.SetTo? {
        fields := fields + ["mood = ?"];
      }
      if |fields| == 0 {
        r := GetEntryById(id, userId);
        return;
      }
      var key := RowKey(id, userId);
      entries := PatchAt(entries, key, patch, now);
      log := log + [UpdateEntryRow(key, patch)];
      r := GetEntryById(id, userId);
    }

    /** `deleteEntry`: true exactly when a row was removed. */
    method DeleteEntry(id: string, userId: string) returns (deleted: bool)
      requires Valid()
      modifies this
      ensures Valid()
      ensures deleted <==> RowKey(id, userId) in old(entries)
      ensures entries == old(entries) - {RowKey(id, userId)}
      ensures insights == old(insights)
      ensures log == old(log) + [DeleteEntryRow(RowKey(id, userId))]
    {
      var key := RowKey(id, userId);
      var changes := if key in entries then 1 else 0;
      entries := entries - {key};
      log := log + [DeleteEntryRow(key)];
      deleted := changes > 0;
    }

    /** `updateEntryAI`: overwrites the status and every AI column. */
    method UpdateEntryAI(id: string, d: EntryAIData, userId: string, now: string) returns (r: Option<Entry>)
      requires Valid()
      modifies this
      ensures Valid()
      ensures entries == EntryAIAt(old(entries), RowKey(id, userId), d, now)
      ensures insights == old(insights)
      ensures log == old(log) + [UpdateEntryAIRow(RowKey(id, userId), d)]
      ensures r == GetEntryById(id, userId)
    {
      var key := RowKey(id, userId);
      entries := EntryAIAt(entries, key, d, now);
      log := log + [UpdateEntryAIRow(key, d)];
      r := GetEntryById(id, userId);
    }

    /** `createInsight`: inserts a pending insight and returns it. */
    method CreateInsight(id: string, insightType: InsightType, startDate: string, endDate: string, userId: string, now: string)
      returns (i: Insight)
      requires Valid()
      requires RowKey(id, userId) !in insights
      modifies this
      ensures Valid()
      ensures i == NewInsight(id, insightType, startDate, endDate, userId, now)
      ensures insights == old(insights)[RowKey(id, userId) := i]
      ensures entries == old(entries)
      ensures log == old(log) + [InsertInsightRow(RowKey(id, userId))]
    {
      var key := RowKey(id, userId);
      insights := insights[key := NewInsight(id, insightType, startDate, endDate, userId, now)];
      log := log + [InsertInsightRow(key)];
      var found := GetInsightById(id, userId);
      i := found.value;
    }

    /** `updateInsightAI`: overwrites the status and every AI column. */
    method UpdateInsightAI(id: string, d: InsightAIData, userId: string, now: string) returns (r: Option<Insight>)
      requires Valid()
      modifies this
      ensures Valid()
      ensures insights == InsightAIAt(old(insights), RowKey(id, userId), d, now)
      ensures entries == old(entries)
      ensures log == old(log) + [UpdateInsightAIRow(RowKey(id, userId), d)]
      ensures r == GetInsightById(id, userId)
    {
      var key := RowKey(id, userId);
      insights := InsightAIAt(insights, key, d, now);
      log := log + [UpdateInsightAIRow(key, d)];
      r := GetInsightById(id, userId);
    }

    /** The rows in scope, in the given order: what SELECT ... WHERE ...
        ORDER BY returns. */
    method SelectEntries(f: Scope, o: Order) returns (r: seq<Entry>)
      requires Valid()
      ensures Lists(r, entries, f)
      ensures SortedBy(o, r)
    {
      var m := entries;
      var rest := m.Keys;
      r := [];
      while rest != {}
        invariant rest <= m.Keys
        invariant Collected(m, f, o, r, m.Keys - rest)
        decreases |rest|
      {
        var k :| k in rest;
        CollectStep(m, f, o, r, m.Keys - rest, k);
        assert m.Keys - rest + {k} == m.Keys - (rest - {k});
        if InScope(f, m[k]) {
          r := Insert(o, r, m[k]);
        }
        rest := rest - {k};
      }
      CollectedAll(m, f, o, r);
    }

    /** `getAllEntries`: the user's entries, newest date first, later
        creation first within a date. */
    method GetAllEntries(userId: string) returns (r: seq<Entry>)
      requires Valid()
      ensures Lists(r, entries, OfUser(userId))
      ensures SortedBy(NewestFirst, r)
    {
      r := SelectEntries(OfUser(userId), NewestFirst);
    }

    /** `getRecentEntries`: the first `limit` rows of `getAllEntries`' list:
        fewer only when the user has fewer, and none left out is newer than
        one returned. */
    method GetRecentEntries(limit: nat, userId: string) returns (r: seq<Entry>)
      requires Valid()
      ensures |r| <= limit
      ensures FromStore(r, entries, OfUser(userId)) && DistinctRows(r)
      ensures SortedBy(NewestFirst, r)
      ensures |r| < limit ==> forall k | k in entries && InScope(OfUser(userId), entries[k]) :: entries[k] in r
      ensures forall k | k in entries && InScope(OfUser(userId), entries[k]) && entries[k] !in r ::
        forall i | 0 <= i < |r| :: Before(NewestFirst, r[i], entries[k])
    {
      var all := SelectEntries(OfUser(userId), NewestFirst);
      var n := if limit < |all| then limit else |all|;
      r := all[..n];
      forall k | k in entries && InScope(OfUser(userId), entries[k]) && entries[k] !in r
        ensures forall i | 0 <= i < |r| :: Before(NewestFirst, r[i], entries[k])
      {
        assert forall x | 0 <= x < n :: all[x] == r[x];
        var j :| 0 <= j < |all| && all[j] == entries[k];
        assert n <= j;
        forall i | 0 <= i < |r|
          ensures Before(NewestFirst, r[i], entries[k])
        {
          assert r[i] == all[i];
        }
      }
    }

    /** `getEntriesByDateRange`: the user's entries dated within
        `[startDate, endDate]`, earliest date first. */
    method GetEntriesByDateRange(startDate: string, endDate: string, userId: string) returns (r: seq<Entry>)
      requires Valid()
      ensures Lists(r, entries, InDateRange(userId, startDate, endDate))
      ensures SortedBy(DateAscending, r)
    {
      r := SelectEntries(InDateRange(userId, startDate, endDate), DateAscending);
    }
  }
}
