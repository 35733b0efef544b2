/**
 * The worker-message endpoint. POST takes a message a foreign worker
 * typed, translates it to Korean with the generative model (falling back
 * to the original text) and stores it; GET lists stored messages for the
 * manager, newest first, at most fifty, optionally only the unread ones,
 * together with the number of unread messages. The database is a sequence
 * of records; the model's reply, database failure, the id and the clock
 * reading the database assigns are inputs.
 */
module WorkerMessageRoute {
  import opened Wrappers
  import opened Strings
  import opened Seqs
  import opened Remote

  datatype WorkerMessage = WorkerMessage(
    id: nat,
    workerName: string,
    workerCountry: string,
    workerLanguage: string,
    originalText: string,
    translatedText: string,
    isUrgent: bool,
    isRead: bool,
    createdAt: nat)

  // ---------------------------------------------------------------------
  // Translation with fallback

  /** The request handed to the model: the text and the language it is in. */
  datatype TranslationCall = TranslationCall(text: string, sourceLanguage: string)

  /**
   * The Korean text stored for a message: the model's output without
   * surrounding whitespace, or the original when the output is blank or the
   * call fails.
   */
  function TranslateToKorean(text: string, reply: ModelReply): (r: string)
    ensures reply.Raised? ==> r == text
    ensures reply.Generated? && !IsBlank(reply.text) ==> r == Trim(reply.text)
    ensures reply.Generated? && IsBlank(reply.text) ==> r == text
    // the stored translation is never empty for a non-empty message
    ensures text != [] ==> r != []
  {
    match reply
    case Raised => text
    case Generated(out) => if Trim(out) != [] then Trim(out) else text
  }

  // ---------------------------------------------------------------------
  // POST

  /** The JSON body; `None` for an absent field. */
  datatype PostBody = PostBody(
    workerName: Option<string>,
    workerCountry: Option<string>,
    workerLanguage: Option<string>,
    message: Option<string>,
    isUrgent: Option<bool>)

  datatype PostOutcome = PostOutcome(
    status: nat,
    success: bool,
    error: Option<string>,
    stored: Option<WorkerMessage>,
    db: seq<WorkerMessage>,
    asked: Option<TranslationCall>)

  /** The record the handler stores for a valid body. */
  function NewRecord(b: PostBody, translated: string, id: nat, now: nat): WorkerMessage
    requires b.workerName.Some? && b.message.Some?
  {
    WorkerMessage(id, b.workerName.value, OrElse(b.workerCountry, "Unknown"),
      OrElse(b.workerLanguage, "Unknown"), b.message.value, translated,
      b.isUrgent.GetOr(false), false, now)
  }

  /**
   * Handling a POST. `body` is `None` when the request is not valid JSON;
   * `dbFails` says whether the insert throws; `id` and `now` are what the
   * database assigns to a new row.
   */
  function Post(body: Option<PostBody>, reply: ModelReply, dbFails: bool,
                db: seq<WorkerMessage>, id: nat, now: nat): (out: PostOutcome)
    // an unreadable body or a failing insert: 500 and nothing stored
    ensures out.status == 500 <==> body.None? || (Truthy(body.value.workerName) && Truthy(body.value.message) && dbFails)
    // a missing name or message: 400, nothing stored and the model not consulted
    ensures out.status == 400 <==> body.Some? && !(Truthy(body.value.workerName) && Truthy(body.value.message))
    ensures out.status == 400 ==> out.asked.None? && out.error == Some("Name and message are required")
    ensures out.success <==> out.status == 200
    ensures !out.success ==> out.db == db && out.stored.None?
    // the model is asked to translate the message from the worker's language, or from 'Unknown'
    ensures out.asked.Some? <==> body.Some? && Truthy(body.value.workerName) && Truthy(body.value.message)
    ensures out.asked.Some? ==> out.asked.value == TranslationCall(body.value.message.value,
                                                                   OrElse(body.value.workerLanguage, "Unknown"))
    // a success appends exactly the new record, with the defaults applied
    ensures out.success ==> out.stored.Some?
    ensures out.success && out.stored.Some? ==>
      var m := out.stored.value;
      && out.db == db + [m]
      && m.workerName == body.value.workerName.value
      && m.originalText == body.value.message.value
      && m.workerCountry == OrElse(body.value.workerCountry, "Unknown")
      && m.workerLanguage == OrElse(body.value.workerLanguage, "Unknown")
      && m.isUrgent == (body.value.isUrgent == Some(true))
      && !m.isRead && m.id == id && m.createdAt == now
      && m.translatedText == TranslateToKorean(m.originalText, reply)
      && m.translatedText != []
  {
    if body.None? then PostOutcome(500, false, Some("Failed to send message"), None, db, None)
    else
      var b := body.value;
      if !Truthy(b.workerName) || !Truthy(b.message) then
        PostOutcome(400, false, Some("Name and message are required"), None, db, None)
      else
        var call := TranslationCall(b.message.value, OrElse(b.workerLanguage, "Unknown"));
        var translated := TranslateToKorean(b.message.value, reply);
        if dbFails then PostOutcome(500, false, Some("Failed to send message"), None, db, Some(call))
        else
          var m := NewRecord(b, translated, id, now);
          PostOutcome(200, true, None, Some(m), db + [m], Some(call))
  }

  // ---------------------------------------------------------------------
  // GET

  /** Newest first: creation times never increase along the sequence. */
  predicate NewestFirst(s: seq<WorkerMessage>) {
    forall i, j :: 0 <= i < j < |s| ==> s[i].createdAt >= s[j].createdAt
  }

  /** Inserting one message into a newest-first list. */
  function Insert(x: WorkerMessage, s: seq<WorkerMessage>): (r: seq<WorkerMessage>)
    requires NewestFirst(s)
    ensures NewestFirst(r)
    ensures multiset(r) == multiset(s) + multiset{x}
    decreases |s|
  {
    if s == [] || x.createdAt >= s[0].createdAt then
      ConsNewest(x, s);
      [x] + s
    else
      var rest := Insert(x, s[1..]);
      assert s == [s[0]] + s[1..];
      HeadNewest(s[0], s[1..] + [x], rest);
      ConsNewest(s[0], rest);
      [s[0]] + rest
  }

  /** A message no older than the head of a newest-first list can go in front of it. */
  lemma ConsNewest(h: WorkerMessage, s: seq<WorkerMessage>)
    requires NewestFirst(s)
    requires s == [] || h.createdAt >= s[0].createdAt
    ensures NewestFirst([h] + s)
  {
  }

  /** A message no older than any element of `s` is no older than any rearrangement of `s`. */
  lemma HeadNewest(h: WorkerMessage, s: seq<WorkerMessage>, r: seq<WorkerMessage>)
    requires forall k :: 0 <= k < |s| ==> h.createdAt >= s[k].createdAt
    requires multiset(r) == multiset(s)
    ensures forall k :: 0 <= k < |r| ==> h.createdAt >= r[k].createdAt
  {
    forall k | 0 <= k < |r|
      ensures h.createdAt >= r[k].createdAt
    {
      assert r[k] in multiset(s);
    }
  }

  /** The order the query asks for: newest first (ties in insertion order). */
  function SortNewestFirst(s: seq<WorkerMessage>): (r: seq<WorkerMessage>)
    ensures NewestFirst(r)
    ensures multiset(r) == multiset(s)
    decreases |s|
  {
    if s == [] then []
    else
      assert s == [s[0]] + s[1..];
      Insert(s[0], SortNewestFirst(s[1..]))
  }

  /** How many messages are unread. */
  function UnreadCount(db: seq<WorkerMessage>): (n: nat)
    ensures n <= |db|
    // zero exactly when every message has been read
    ensures n == 0 <==> forall i :: 0 <= i < |db| ==> db[i].isRead
  {
    var unread := Filter(db, (m: WorkerMessage) => !m.isRead);
    if forall i :: 0 <= i < |db| ==> db[i].isRead then
      FilterDropsAll(db, (m: WorkerMessage) => !m.isRead);
      |unread|
    else
      var k :| 0 <= k < |db| && !db[k].isRead;
      assert db[k] in multiset(db);
      assert multiset(unread)[db[k]] > 0;
      |unread|
  }

  /** Storing one more message raises the unread count by one exactly when it is unread. */
  lemma UnreadCountAppend(db: seq<WorkerMessage>, m: WorkerMessage)
    ensures UnreadCount(db + [m]) == UnreadCount(db) + (if m.isRead then 0 else 1)
  {
    FilterAppend(db, [m], (x: WorkerMessage) => !x.isRead);
  }

  datatype Listing = Listing(messages: seq<WorkerMessage>, unreadCount: nat)

  /** The page size of the listing. */
  const PageSize := 50

  /** The rows the query considers: the unread ones when `unread` is exactly "true", else all. */
  function Candidates(db: seq<WorkerMessage>, unreadParam: Option<string>): (c: seq<WorkerMessage>)
    ensures multiset(c) <= multiset(db)
    ensures unreadParam == Some("true") ==> forall i :: 0 <= i < |c| ==> !c[i].isRead
    // with the filter on, every unread row is a candidate, as often as it is stored
    ensures unreadParam == Some("true") ==>
      forall m {:trigger multiset(c)[m]} :: multiset(c)[m] == if m.isRead then 0 else multiset(db)[m]
    ensures unreadParam != Some("true") ==> c == db
  {
    if unreadParam == Some("true") then Filter(db, (m: WorkerMessage) => !m.isRead) else db
  }

  /** The first `PageSize` rows, or all of them when there are fewer. */
  function Page(sorted: seq<WorkerMessage>): (p: seq<WorkerMessage>)
    ensures |p| == if |sorted| <= PageSize then |sorted| else PageSize
    ensures p == sorted[..|p|]
  {
    if |sorted| <= PageSize then sorted else sorted[..PageSize]
  }

  /** Handling a GET; `unreadParam` is the `unread` query parameter, if given. */
  function Get(db: seq<WorkerMessage>, unreadParam: Option<string>): (out: Listing)
    ensures |out.messages| <= PageSize
    ensures NewestFirst(out.messages)
    // only the exact string "true" restricts the listing to unread messages
    ensures unreadParam == Some("true") ==> forall i :: 0 <= i < |out.messages| ==> !out.messages[i].isRead
    ensures multiset(out.messages) <= multiset(db)
    // the unread count covers the whole table, whatever the filter and the page size
    ensures out.unreadCount == UnreadCount(db)
    ensures unreadParam == Some("true") ==> |out.messages| <= out.unreadCount
  {
    var candidates := Candidates(db, unreadParam);
    var sorted := SortNewestFirst(candidates);
    var page := Page(sorted);
    PageDrawnFrom(candidates, sorted);
    Listing(page, UnreadCount(db))
  }

  /** The page holds rows of the candidates, at most as many as there are, and no read row when none is a candidate. */
  lemma PageDrawnFrom(c: seq<WorkerMessage>, sorted: seq<WorkerMessage>)
    requires multiset(sorted) == multiset(c)
    ensures multiset(Page(sorted)) <= multiset(c)
    ensures |Page(sorted)| <= |c|
    ensures (forall i :: 0 <= i < |c| ==> !c[i].isRead) ==> forall i :: 0 <= i < |Page(sorted)| ==> !Page(sorted)[i].isRead
  {
    var page := Page(sorted);
    PrefixSubMultiset(sorted, |page|);
    assert |multiset(page)| <= |multiset(c)|;
    forall i | 0 <= i < |page|
      ensures page[i] in c
    {
      assert page[i] in multiset(sorted);
    }
  }

  lemma PrefixSubMultiset<T>(s: seq<T>, k: nat)
    requires k <= |s|
    ensures multiset(s[..k]) <= multiset(s)
  {
    assert s == s[..k] + s[k..];
  }

  /**
   * A stored message reaches the manager: the unread count grows by one and
   * the new record is among the rows the unread-only listing draws from.
   */
  lemma PostRaisesUnread(body: Option<PostBody>, reply: ModelReply, dbFails: bool,
                         db: seq<WorkerMessage>, id: nat, now: nat)
    requires Post(body, reply, dbFails, db, id, now).success
    ensures var out := Post(body, reply, dbFails, db, id, now);
            && UnreadCount(out.db) == UnreadCount(db) + 1
            && out.stored.value in Candidates(out.db, Some("true"))
  {
    var out := Post(body, reply, dbFails, db, id, now);
    var m := out.stored.value;
    UnreadCountAppend(db, m);
    assert m in multiset(out.db);
    assert multiset(Candidates(out.db, Some("true")))[m] > 0;
  }

  /**
   * The listing is the top of the table: a candidate left off a full page
   * is no newer than any message on it.
   */
  lemma PageIsNewest(db: seq<WorkerMessage>, unreadParam: Option<string>)
    ensures var candidates := if unreadParam == Some("true") then Filter(db, (m: WorkerMessage) => !m.isRead) else db;
            var sorted := SortNewestFirst(candidates);
            var page := Get(db, unreadParam).messages;
            && page == sorted[..|page|]
            && |page| == (if |candidates| <= PageSize then |candidates| else PageSize)
            && forall i, k :: 0 <= i < |page| <= k < |sorted| ==> sorted[k].createdAt <= page[i].createdAt
  {
    var sorted := SortNewestFirst(Candidates(db, unreadParam));
    assert |sorted| == |Candidates(db, unreadParam)| by {
      assert |multiset(sorted)| == |multiset(Candidates(db, unreadParam))|;
    }
    SortedPrefixIsTop(sorted, |Page(sorted)|);
  }

  /** In a newest-first sequence every element past a prefix is no newer than any element of it. */
  lemma SortedPrefixIsTop(sorted: seq<WorkerMessage>, n: nat)
    requires NewestFirst(sorted) && n <= |sorted|
    ensures forall i, k :: 0 <= i < n <= k < |sorted| ==> sorted[k].createdAt <= sorted[..n][i].createdAt
  {
  }
}
