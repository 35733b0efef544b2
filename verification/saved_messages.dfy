/**
 * The control centre's saved broadcast messages: the four preset messages,
 * saving a new message with a duplicate check on its standard text,
 * deleting by id, bumping a message's usage counter when it is broadcast,
 * the category-plus-search filter and the counters in the status bar.
 * Browser storage is the list passed in and returned; clock readings are
 * parameters.
 */
module SavedMessages {
  import opened Wrappers
  import opened Strings
  import opened Seqs

  datatype Category = Safety | Work | Emergency | General

  /** The category tabs: every message, or one category. */
  datatype CategoryTab = AllCategories | Only(category: Category)

  datatype SavedMessage = SavedMessage(
    id: string,
    standardText: string,
    originalText: string,
    translations: map<string, string>,
    createdAt: nat,
    usageCount: nat,
    category: Category)

  /** No two messages share a standard text. */
  predicate DistinctTexts(ms: seq<SavedMessage>) {
    forall i, j :: 0 <= i < j < |ms| ==> ms[i].standardText != ms[j].standardText
  }

  /** No two messages share an id. */
  predicate DistinctIds(ms: seq<SavedMessage>) {
    forall i, j :: 0 <= i < j < |ms| ==> ms[i].id != ms[j].id
  }

  /** The presets shown when storage holds nothing; `now` is the page's clock reading. */
  function DefaultMessages(now: nat): (r: seq<SavedMessage>)
    ensures |r| == 4
    ensures forall i :: 0 <= i < |r| ==> r[i].usageCount == 0 && r[i].translations == map[]
  {
    [ SavedMessage("preset-1", "안전모 착용하고 작업 시작하세요", "안전모 착용하고 작업 시작하세요", map[], now, 0, Safety),
      SavedMessage("preset-2", "비계 해체작업 전 안전 확인하세요", "아시바 해체작업 전 안전 확인하세요", map[], now, 0, Safety),
      SavedMessage("preset-3", "콘크리트 타설 작업 준비하세요", "공구리 타설 작업 준비하세요", map[], now, 0, Work),
      SavedMessage("preset-4", "작업 중지! 긴급 대피하세요", "작업 중지! 긴급 대피하세요", map[], now, 0, Emergency) ]
  }

  /** The presets have different ids and different standard texts. */
  lemma DefaultsDistinct(now: nat)
    ensures DistinctIds(DefaultMessages(now))
    ensures DistinctTexts(DefaultMessages(now))
  {
    var r := DefaultMessages(now);
    assert r[0].id[7] == '1' && r[1].id[7] == '2' && r[2].id[7] == '3' && r[3].id[7] == '4';
    assert r[0].standardText[0] == '안' && r[1].standardText[0] == '비';
    assert r[2].standardText[0] == '콘' && r[3].standardText[0] == '작';
  }

  // ---------------------------------------------------------------------
  // Saving

  /** What a caller hands to the save helper; `None` marks an omitted field. */
  datatype SaveRequest = SaveRequest(
    standardText: string,
    originalText: string,
    translations: Option<map<string, string>>,
    category: Option<Category>)

  datatype SaveOutcome = SaveOutcome(saved: bool, messages: seq<SavedMessage>)

  /** Some stored message already carries this standard text. */
  predicate HasText(ms: seq<SavedMessage>, text: string) {
    exists i | 0 <= i < |ms| :: ms[i].standardText == text
  }

  /** The id given to a message saved at clock reading `now`: `msg-` and the decimal time. */
  function MessageId(now: nat): (id: string)
    ensures StartsWith(id, "msg-") && AllDigits(id[4..])
    ensures DigitsValue(id[4..]) == now
  {
    var id := "msg-" + NatToString(now);
    assert id[4..] == NatToString(now);
    NatToStringRoundTrip(now);
    id
  }

  /**
   * Saving a message into the stored list (an absent list reads as empty):
   * refused when the standard text is already saved, otherwise the new
   * message goes to the front.
   */
  function SaveMessage(stored: seq<SavedMessage>, req: SaveRequest, now: nat): (out: SaveOutcome)
    ensures HasText(stored, req.standardText) ==> !out.saved && out.messages == stored
    ensures !HasText(stored, req.standardText) ==>
      && out.saved
      && |out.messages| == |stored| + 1
      && out.messages[1..] == stored
    ensures out.saved ==>
      var m := out.messages[0];
      && m.id == MessageId(now)
      && m.standardText == req.standardText && m.originalText == req.originalText
      && m.translations == req.translations.GetOr(map[])
      && m.createdAt == now && m.usageCount == 0
      && m.category == req.category.GetOr(General)
  {
    if HasText(stored, req.standardText) then SaveOutcome(false, stored)
    else
      var m := SavedMessage(MessageId(now), req.standardText, req.originalText,
                            req.translations.GetOr(map[]), now, 0, req.category.GetOr(General));
      SaveOutcome(true, [m] + stored)
  }

  /** The duplicate check keeps standard texts unique across saves. */
  lemma SaveKeepsTextsDistinct(stored: seq<SavedMessage>, req: SaveRequest, now: nat)
    requires DistinctTexts(stored)
    ensures DistinctTexts(SaveMessage(stored, req, now).messages)
  {
    var r := SaveMessage(stored, req, now).messages;
    if !HasText(stored, req.standardText) {
      forall i, j | 0 <= i < j < |r|
        ensures r[i].standardText != r[j].standardText
      {
        assert r[j] == stored[j - 1];
        if i > 0 {
          assert r[i] == stored[i - 1];
        }
      }
    }
  }

  /** Saving the same text twice: the second save is refused. */
  lemma SecondSaveRefused(stored: seq<SavedMessage>, req: SaveRequest, now: nat, later: nat)
    ensures !SaveMessage(SaveMessage(stored, req, now).messages, req, later).saved
  {
    var r := SaveMessage(stored, req, now).messages;
    if SaveMessage(stored, req, now).saved {
      assert r[0].standardText == req.standardText;
    }
  }

  // ---------------------------------------------------------------------
  // Deleting and broadcasting

  /** Deleting every message with the given id. */
  function DeleteMessage(ms: seq<SavedMessage>, id: string): (r: seq<SavedMessage>)
    ensures forall i :: 0 <= i < |r| ==> r[i].id != id
    ensures IsSubsequence(r, ms)
    // every message with another id keeps all its copies
    ensures forall m {:trigger multiset(r)[m]} :: multiset(r)[m] == if m.id != id then multiset(ms)[m] else 0
    ensures (forall i :: 0 <= i < |ms| ==> ms[i].id != id) ==> r == ms
  {
    var keep := (m: SavedMessage) => m.id != id;
    if forall i :: 0 <= i < |ms| ==> ms[i].id != id then
      FilterKeepsAll(ms, keep);
      Filter(ms, keep)
    else Filter(ms, keep)
  }

  /** Delete keeps exactly the messages with a different id. */
  lemma DeleteKeepsOthers(ms: seq<SavedMessage>, id: string, m: SavedMessage)
    ensures m in DeleteMessage(ms, id) <==> m in ms && m.id != id
  {
    FilterMembership(ms, (x: SavedMessage) => x.id != id, m);
  }

  datatype BroadcastOutcome = BroadcastOutcome(emitted: Option<string>, messages: seq<SavedMessage>)

  /**
   * Broadcasting a message: its original text goes to the listener when
   * there is one, and every stored message with the same id counts one
   * more use.
   */
  function Broadcast(ms: seq<SavedMessage>, msg: SavedMessage, hasListener: bool): (out: BroadcastOutcome)
    ensures out.emitted == (if hasListener then Some(msg.originalText) else None)
    ensures |out.messages| == |ms|
    ensures forall i :: 0 <= i < |ms| ==>
      && out.messages[i].usageCount == ms[i].usageCount + (if ms[i].id == msg.id then 1 else 0)
      && out.messages[i] == ms[i].(usageCount := out.messages[i].usageCount)
  {
    var bumped := seq(|ms|, i requires 0 <= i < |ms| =>
      if ms[i].id == msg.id then ms[i].(usageCount := ms[i].usageCount + 1) else ms[i]);
    BroadcastOutcome(if hasListener then Some(msg.originalText) else None, bumped)
  }

  /** The sum of the usage counters. */
  function TotalUsage(ms: seq<SavedMessage>): nat
  {
    if ms == [] then 0 else TotalUsage(ms[..|ms| - 1]) + ms[|ms| - 1].usageCount
  }

  /** How many stored messages carry the id. */
  function CountId(ms: seq<SavedMessage>, id: string): (n: nat)
    ensures n <= |ms|
  {
    if ms == [] then 0 else CountId(ms[..|ms| - 1], id) + (if ms[|ms| - 1].id == id then 1 else 0)
  }

  /** A broadcast adds to the total usage exactly the number of messages carrying its id. */
  lemma {:induction false} BroadcastUsage(ms: seq<SavedMessage>, msg: SavedMessage, hasListener: bool)
    ensures TotalUsage(Broadcast(ms, msg, hasListener).messages) == TotalUsage(ms) + CountId(ms, msg.id)
    decreases |ms|
  {
    if ms != [] {
      var init := ms[..|ms| - 1];
      var r := Broadcast(ms, msg, hasListener).messages;
      var ri := Broadcast(init, msg, hasListener).messages;
      assert r[..|r| - 1] == ri;
      BroadcastUsage(init, msg, hasListener);
    }
  }

  /** With unique ids a broadcast adds exactly one use, or none when the message is gone. */
  lemma BroadcastCountsOnce(ms: seq<SavedMessage>, msg: SavedMessage, hasListener: bool)
    requires DistinctIds(ms)
    ensures TotalUsage(Broadcast(ms, msg, hasListener).messages) <= TotalUsage(ms) + 1
  {
    BroadcastUsage(ms, msg, hasListener);
    CountIdUnique(ms, msg.id);
  }

  lemma {:induction false} CountIdUnique(ms: seq<SavedMessage>, id: string)
    requires DistinctIds(ms)
    ensures CountId(ms, id) <= 1
    decreases |ms|
  {
    if ms != [] {
      var init := ms[..|ms| - 1];
      CountIdUnique(init, id);
      if ms[|ms| - 1].id == id && CountId(init, id) == 1 {
        // a second carrier of the id in the prefix would clash with the last message
        CountIdWitness(init, id);
      }
    }
  }

  lemma {:induction false} CountIdWitness(ms: seq<SavedMessage>, id: string)
    requires CountId(ms, id) > 0
    ensures exists k :: 0 <= k < |ms| && ms[k].id == id
    decreases |ms|
  {
    var init := ms[..|ms| - 1];
    if ms[|ms| - 1].id != id {
      CountIdWitness(init, id);
      var k :| 0 <= k < |init| && init[k].id == id;
      assert ms[k] == init[k];
    }
  }

  // ---------------------------------------------------------------------
  // Filtering and counters

  /** The tab and the search box both accept the message; the search ignores ASCII case. */
  predicate Shown(m: SavedMessage, tab: CategoryTab, query: string) {
    && (tab.AllCategories? || m.category == tab.category)
    && (Contains(Lower(m.standardText), Lower(query)) || Contains(Lower(m.originalText), Lower(query)))
  }

  /** The messages listed for a tab and a query. */
  function FilterMessages(ms: seq<SavedMessage>, tab: CategoryTab, query: string): (r: seq<SavedMessage>)
    ensures forall i :: 0 <= i < |r| ==> Shown(r[i], tab, query)
    ensures IsSubsequence(r, ms)
    // a shown message is listed as often as it is stored, a hidden one never
    ensures forall m {:trigger multiset(r)[m]} :: multiset(r)[m] == if Shown(m, tab, query) then multiset(ms)[m] else 0
    // the "all" tab with an empty search lists everything
    ensures tab == AllCategories && query == [] ==> r == ms
  {
    var p := (m: SavedMessage) => Shown(m, tab, query);
    if tab == AllCategories && query == [] then
      forall i | 0 <= i < |ms|
        ensures Shown(ms[i], tab, query)
      {
        ContainsEmpty(Lower(ms[i].standardText));
      }
      FilterKeepsAll(ms, p);
      Filter(ms, p)
    else Filter(ms, p)
  }

  /** A message is listed exactly when it is stored and shown by the tab and the search. */
  lemma FilterMessagesMembership(ms: seq<SavedMessage>, tab: CategoryTab, query: string, m: SavedMessage)
    ensures m in FilterMessages(ms, tab, query) <==> m in ms && Shown(m, tab, query)
  {
    FilterMembership(ms, (x: SavedMessage) => Shown(x, tab, query), m);
  }

  /** The status-bar counter for one category. */
  function CountCategory(ms: seq<SavedMessage>, c: Category): (n: nat)
    ensures n <= |ms|
    // zero exactly when no message is in the category
    ensures n == 0 <==> forall i :: 0 <= i < |ms| ==> ms[i].category != c
  {
    var inCategory := Filter(ms, (m: SavedMessage) => m.category == c);
    if forall i :: 0 <= i < |ms| ==> ms[i].category != c then
      FilterDropsAll(ms, (m: SavedMessage) => m.category == c);
      |inCategory|
    else
      var k :| 0 <= k < |ms| && ms[k].category == c;
      assert ms[k] in multiset(ms);
      assert multiset(inCategory)[ms[k]] > 0;
      |inCategory|
  }

  /** Storing one more message raises its own category's counter by one and no other. */
  lemma CountCategoryAppend(ms: seq<SavedMessage>, m: SavedMessage, c: Category)
    ensures CountCategory(ms + [m], c) == CountCategory(ms, c) + (if m.category == c then 1 else 0)
  {
    FilterAppend(ms, [m], (x: SavedMessage) => x.category == c);
  }

  /** Filters with disjoint tests pick at most as many elements as there are. */
  lemma {:induction false} DisjointFilters<T(!new)>(s: seq<T>, p: T -> bool, q: T -> bool)
    requires forall i :: 0 <= i < |s| ==> !(p(s[i]) && q(s[i]))
    ensures |Filter(s, p)| + |Filter(s, q)| <= |s|
    decreases |s|
  {
    if s != [] {
      DisjointFilters(s[1..], p, q);
    }
  }

  /** The safety and emergency counters together never exceed the total. */
  lemma CountersWithinTotal(ms: seq<SavedMessage>)
    ensures CountCategory(ms, Safety) + CountCategory(ms, Emergency) <= |ms|
  {
    DisjointFilters(ms, (m: SavedMessage) => m.category == Safety, (m: SavedMessage) => m.category == Emergency);
  }
}
