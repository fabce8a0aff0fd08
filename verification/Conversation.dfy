/** Collecting a complete conversation page by page, and cutting it into chunks. */
module Conversation {
  import opened Options

  datatype Message = Message(id: string, createdAt: int, author: string, content: string)

  const PAGE_LIMIT: nat := 100

  // ---- Message ids ----

  predicate Digit(c: char) {
    '0' <= c <= '9'
  }

  predicate DigitId(id: string) {
    1 <= |id| <= 32 && forall i | 0 <= i < |id| :: Digit(id[i])
  }

  function Power(n: nat): nat {
    if n == 0 then 1 else 10 * Power(n - 1)
  }

  function DigitValue(c: char): nat {
    if Digit(c) then c as int - '0' as int else 0
  }

  /** The number an id stands for, which is how the platform orders messages. */
  function Value(id: string): nat {
    if id == [] then 0 else DigitValue(id[0]) * Power(|id| - 1) + Value(id[1..])
  }

  /** Character order, which is how ids are compared when two messages have the same instant. */
  predicate TextBefore(a: string, b: string) {
    if a == [] || b == [] then a == [] && b != []
    else if a[0] == b[0] then TextBefore(a[1..], b[1..])
    else a[0] < b[0]
  }

  /** One more digit is one more decimal place. */
  lemma {:induction false} ValueIsDecimal(id: string, last: char)
    requires (forall i | 0 <= i < |id| :: Digit(id[i])) && Digit(last)
    ensures Value([]) == 0
    ensures Value(id + [last]) == 10 * Value(id) + (last as int - '0' as int)
    decreases |id|
  {
    if id != [] {
      ValueIsDecimal(id[1..], last);
      assert (id + [last])[1..] == id[1..] + [last];
      OnePlaceUp(DigitValue(id[0]), Power(|id| - 1));
    } else {
      assert id + [last] == [last] && [last][1..] == [];
    }
  }

  lemma OnePlaceUp(x: int, p: int)
    ensures x * (10 * p) == 10 * (x * p)
  {
  }

  /** The first k characters agree, and then the one text ends or has the smaller character. */
  predicate PartAt(a: string, b: string, k: nat) {
    && k <= |a| && k < |b| && a[..k] == b[..k]
    && (k == |a| || a[k] < b[k])
  }

  lemma {:induction false} TextBeforeMeans(a: string, b: string)
    ensures TextBefore(a, b) <==> exists k: nat :: PartAt(a, b, k)
    decreases |a|
  {
    if a == [] || b == [] || a[0] != b[0] {
      assert b != [] && a == [] ==> PartAt(a, b, 0);
      assert b != [] && a != [] && a[0] < b[0] ==> PartAt(a, b, 0);
      if k: nat :| PartAt(a, b, k) {
        assert k > 0 ==> a[..k][0] == b[..k][0];
      }
    } else {
      TextBeforeMeans(a[1..], b[1..]);
      if k: nat :| PartAt(a[1..], b[1..], k) {
        assert a[..k + 1] == [a[0]] + a[1..][..k] && b[..k + 1] == [b[0]] + b[1..][..k];
        assert PartAt(a, b, k + 1);
      }
      if k: nat :| PartAt(a, b, k) {
        assert a[1..][..k - 1] == a[..k][1..] && b[1..][..k - 1] == b[..k][1..];
        assert PartAt(a[1..], b[1..], k - 1);
      }
    }
  }

  lemma {:induction false} HigherDigitWins(x: int, y: int, p: int, u: int, v: int)
    requires x < y && 0 <= u < p && 0 <= v
    ensures x * p + u < y * p + v
    decreases y - x
  {
    assert y * p == (y - 1) * p + p;
    if x < y - 1 {
      HigherDigitWins(x, y - 1, p, u, 0);
    }
  }

  lemma {:induction false} ValueIsBounded(id: string)
    ensures Value(id) < Power(|id|)
    decreases |id|
  {
    if id != [] {
      ValueIsBounded(id[1..]);
      HigherDigitWins(DigitValue(id[0]), 10, Power(|id| - 1), Value(id[1..]), 0);
    }
  }

  /** Digit strings of one length compare as text the way their numbers compare. */
  lemma {:induction false} TextOrderIsNumeric(a: string, b: string)
    requires |a| == |b| && (forall i | 0 <= i < |a| :: Digit(a[i])) && (forall i | 0 <= i < |b| :: Digit(b[i]))
    ensures TextBefore(a, b) <==> Value(a) < Value(b)
    decreases |a|
  {
    if a != [] {
      TextOrderIsNumeric(a[1..], b[1..]);
      ValueIsBounded(a[1..]);
      ValueIsBounded(b[1..]);
      var p := Power(|a| - 1);
      var x, y := DigitValue(a[0]), DigitValue(b[0]);
      if x < y {
        HigherDigitWins(x, y, p, Value(a[1..]), Value(b[1..]));
      } else if y < x {
        HigherDigitWins(y, x, p, Value(b[1..]), Value(a[1..]));
      }
    }
  }

  // ---- The channel ----

  /** Oldest first by (instant, id text). */
  predicate Older(a: Message, b: Message) {
    a.createdAt < b.createdAt || (a.createdAt == b.createdAt && TextBefore(a.id, b.id))
  }

  /** A channel, oldest message first: well-formed ids that grow with time, and that compare as text the
      way they do as numbers where the instants are the same. */
  ghost predicate Channel(messages: seq<Message>) {
    && (forall i | 0 <= i < |messages| :: DigitId(messages[i].id) && DigitId(messages[i].author))
    && (forall i, j | 0 <= i < j < |messages| ::
          && Value(messages[i].id) < Value(messages[j].id) && messages[i].createdAt <= messages[j].createdAt
          && (messages[i].createdAt == messages[j].createdAt ==> TextBefore(messages[i].id, messages[j].id)))
  }

  /** Ids of one length compare that way of themselves. */
  lemma OneLengthSuffices(messages: seq<Message>)
    requires forall i | 0 <= i < |messages| :: DigitId(messages[i].id) && DigitId(messages[i].author)
    requires forall i, j | 0 <= i < j < |messages| ::
               && Value(messages[i].id) < Value(messages[j].id) && messages[i].createdAt <= messages[j].createdAt
               && (messages[i].createdAt == messages[j].createdAt ==> |messages[i].id| == |messages[j].id|)
    ensures Channel(messages)
  {
    forall i, j | 0 <= i < j < |messages| && messages[i].createdAt == messages[j].createdAt
      ensures TextBefore(messages[i].id, messages[j].id)
    {
      TextOrderIsNumeric(messages[i].id, messages[j].id);
    }
  }

  ghost predicate StrictlyOlder(messages: seq<Message>) {
    forall i, j | 0 <= i < j < |messages| :: Older(messages[i], messages[j])
  }

  lemma ChannelIsOrdered(messages: seq<Message>)
    requires Channel(messages)
    ensures StrictlyOlder(messages)
  {
    forall i, j | 0 <= i < j < |messages| ensures Older(messages[i], messages[j]) {
      assert messages[i].createdAt <= messages[j].createdAt;
    }
  }

  /** How many messages, from the oldest, lie before the cursor. */
  function Before(messages: seq<Message>, cursor: Option<string>): (n: nat)
    ensures n <= |messages|
  {
    if messages == [] || cursor.None? || Value(messages[|messages| - 1].id) < Value(cursor.value) then |messages|
    else Before(messages[..|messages| - 1], cursor)
  }

  lemma {:induction false} BeforeFindsCursor(messages: seq<Message>, j: nat)
    requires Channel(messages) && j < |messages|
    ensures Before(messages, Some(messages[j].id)) == j
    decreases |messages|
  {
    if j < |messages| - 1 {
      BeforeFindsCursor(messages[..|messages| - 1], j);
    } else if j > 0 {
      var front := messages[..|messages| - 1];
      assert front[j - 1] == messages[j - 1] && Value(messages[j - 1].id) < Value(messages[j].id);
    }
  }

  /** Where a page that ends at `high` starts. */
  function PageStart(high: nat): nat {
    if high <= PAGE_LIMIT then 0 else high - PAGE_LIMIT
  }

  /** The messages before the cursor are those with smaller ids, and all of them without a cursor. */
  lemma {:induction false} BeforeMeans(messages: seq<Message>, cursor: Option<string>, i: nat)
    requires Channel(messages) && i < |messages|
    ensures i < Before(messages, cursor) <==> cursor.None? || Value(messages[i].id) < Value(cursor.value)
    decreases |messages|
  {
    var front, last := messages[..|messages| - 1], messages[|messages| - 1];
    if cursor.Some? && i < |front| && Value(last.id) >= Value(cursor.value) {
      BeforeMeans(front, cursor, i);
      assert front[i] == messages[i];
    }
  }

  /** The newest messages before the cursor, as many as fit a page. */
  function Newest(messages: seq<Message>, cursor: Option<string>): seq<Message> {
    var n := Before(messages, cursor);
    messages[PageStart(n)..n]
  }

  // ---- Sorting ----

  /** `newestFirst` is the order of a page, the other that of the result. */
  predicate Precedes(newestFirst: bool, a: Message, b: Message) {
    if newestFirst then Older(b, a) else Older(a, b)
  }

  function Insert(newestFirst: bool, m: Message, sorted: seq<Message>): seq<Message> {
    if sorted == [] || !Precedes(newestFirst, sorted[0], m) then [m] + sorted
    else [sorted[0]] + Insert(newestFirst, m, sorted[1..])
  }

  function Sort(newestFirst: bool, messages: seq<Message>): seq<Message> {
    if messages == [] then []
    else Insert(newestFirst, messages[|messages| - 1], Sort(newestFirst, messages[..|messages| - 1]))
  }

  ghost predicate InOrder(newestFirst: bool, messages: seq<Message>) {
    forall i, j | 0 <= i < j < |messages| :: Precedes(newestFirst, messages[i], messages[j])
  }

  lemma {:induction false} TextOrderIsStrict(a: string, b: string, c: string)
    ensures !(TextBefore(a, b) && TextBefore(b, a))
    ensures TextBefore(a, b) && TextBefore(b, c) ==> TextBefore(a, c)
    decreases |a|
  {
    if a != [] && b != [] && c != [] {
      TextOrderIsStrict(a[1..], b[1..], c[1..]);
    } else if a != [] && b != [] {
      TextOrderIsStrict(a[1..], b[1..], c);
    }
  }

  lemma PrecedesIsStrict(newestFirst: bool, a: Message, b: Message, c: Message)
    ensures !(Precedes(newestFirst, a, b) && Precedes(newestFirst, b, a))
    ensures Precedes(newestFirst, a, b) && Precedes(newestFirst, b, c) ==> Precedes(newestFirst, a, c)
  {
    TextOrderIsStrict(a.id, b.id, c.id);
    TextOrderIsStrict(c.id, b.id, a.id);
  }

  ghost predicate Comparable(newestFirst: bool, m: Message, others: seq<Message>) {
    forall o | o in others :: Precedes(newestFirst, o, m) || Precedes(newestFirst, m, o)
  }

  lemma {:induction false} InsertKeepsAll(newestFirst: bool, m: Message, sorted: seq<Message>)
    ensures multiset(Insert(newestFirst, m, sorted)) == multiset(sorted) + multiset{m}
    decreases |sorted|
  {
    if sorted != [] && Precedes(newestFirst, sorted[0], m) {
      InsertKeepsAll(newestFirst, m, sorted[1..]);
      assert sorted == [sorted[0]] + sorted[1..];
    }
  }

  lemma OrderedBehind(newestFirst: bool, first: Message, rest: seq<Message>)
    requires InOrder(newestFirst, rest) && forall o | o in rest :: Precedes(newestFirst, first, o)
    ensures InOrder(newestFirst, [first] + rest)
  {
  }

  lemma {:induction false} InsertKeepsOrder(newestFirst: bool, m: Message, sorted: seq<Message>)
    requires InOrder(newestFirst, sorted) && Comparable(newestFirst, m, sorted)
    ensures InOrder(newestFirst, Insert(newestFirst, m, sorted))
    ensures multiset(Insert(newestFirst, m, sorted)) == multiset(sorted) + multiset{m}
    decreases |sorted|
  {
    InsertKeepsAll(newestFirst, m, sorted);
    if sorted == [] {
    } else if !Precedes(newestFirst, sorted[0], m) {
      forall o | o in sorted ensures Precedes(newestFirst, m, o) {
        PrecedesIsStrict(newestFirst, m, sorted[0], o);
      }
      OrderedBehind(newestFirst, m, sorted);
    } else {
      var rest := sorted[1..];
      InsertKeepsOrder(newestFirst, m, rest);
      var placed := Insert(newestFirst, m, rest);
      forall o | o in placed ensures Precedes(newestFirst, sorted[0], o) {
        assert o in multiset(placed);
        assert o == m || o in rest;
      }
      OrderedBehind(newestFirst, sorted[0], placed);
    }
  }

  ghost predicate Distinct(newestFirst: bool, messages: seq<Message>) {
    forall i, j | 0 <= i < j < |messages| ::
      Precedes(newestFirst, messages[i], messages[j]) || Precedes(newestFirst, messages[j], messages[i])
  }

  lemma {:induction false} SortOrders(newestFirst: bool, messages: seq<Message>)
    requires Distinct(newestFirst, messages)
    ensures InOrder(newestFirst, Sort(newestFirst, messages))
    ensures multiset(Sort(newestFirst, messages)) == multiset(messages)
    decreases |messages|
  {
    if messages != [] {
      var front, last := messages[..|messages| - 1], messages[|messages| - 1];
      SortOrders(newestFirst, front);
      assert messages == front + [last];
      forall o | o in Sort(newestFirst, front)
        ensures Precedes(newestFirst, o, last) || Precedes(newestFirst, last, o)
      {
        assert o in multiset(Sort(newestFirst, front));
        assert o in front;
      }
      InsertKeepsOrder(newestFirst, last, Sort(newestFirst, front));
    }
  }

  lemma FirstIsUnique(newestFirst: bool, a: seq<Message>, b: seq<Message>)
    requires InOrder(newestFirst, a) && InOrder(newestFirst, b) && multiset(a) == multiset(b) && a != [] && b != []
    ensures a[0] == b[0]
  {
    assert a[0] in multiset(b);
    var i :| 0 <= i < |b| && b[i] == a[0];
    assert b[0] in multiset(a);
    var j :| 0 <= j < |a| && a[j] == b[0];
    PrecedesIsStrict(newestFirst, a[0], b[0], a[0]);
  }

  lemma {:induction false} OrderIsUnique(newestFirst: bool, a: seq<Message>, b: seq<Message>)
    requires InOrder(newestFirst, a) && InOrder(newestFirst, b) && multiset(a) == multiset(b)
    ensures a == b
    decreases |a|
  {
    assert |a| == |multiset(a)| == |multiset(b)| == |b|;
    if a != [] {
      FirstIsUnique(newestFirst, a, b);
      assert a == [a[0]] + a[1..] && b == [b[0]] + b[1..];
      assert multiset(a[1..]) == multiset(a) - multiset{a[0]} == multiset(b) - multiset{b[0]} == multiset(b[1..]);
      OrderIsUnique(newestFirst, a[1..], b[1..]);
    }
  }

  /** Sorting any arrangement of a strictly ordered sequence gives that sequence. */
  lemma SortRestores(newestFirst: bool, messages: seq<Message>, ordered: seq<Message>)
    requires multiset(messages) == multiset(ordered) && InOrder(newestFirst, ordered)
    ensures Sort(newestFirst, messages) == ordered
  {
    ArrangementIsDistinct(newestFirst, messages, ordered);
    SortOrders(newestFirst, messages);
    OrderIsUnique(newestFirst, Sort(newestFirst, messages), ordered);
  }

  lemma {:induction false} CountOnce(newestFirst: bool, ordered: seq<Message>, m: Message)
    requires InOrder(newestFirst, ordered)
    ensures multiset(ordered)[m] <= 1
    decreases |ordered|
  {
    if ordered != [] {
      CountOnce(newestFirst, ordered[1..], m);
      assert ordered == [ordered[0]] + ordered[1..];
      if ordered[0] == m && m in ordered[1..] {
        var j :| 0 <= j < |ordered[1..]| && ordered[1..][j] == m;
        assert ordered[j + 1] == m && Precedes(newestFirst, ordered[0], ordered[j + 1]);
        PrecedesIsStrict(newestFirst, m, m, m);
      }
    }
  }

  lemma CountTwice(messages: seq<Message>, i: nat, j: nat)
    requires i < j < |messages| && messages[i] == messages[j]
    ensures multiset(messages)[messages[i]] >= 2
  {
    assert messages == messages[..j] + messages[j..];
    assert messages[i] in messages[..j] && messages[j] in messages[j..];
    assert messages[..j][i] == messages[i] && messages[j..][0] == messages[j];
  }

  lemma ArrangementIsDistinct(newestFirst: bool, messages: seq<Message>, ordered: seq<Message>)
    requires multiset(messages) == multiset(ordered) && InOrder(newestFirst, ordered)
    ensures Distinct(newestFirst, messages)
  {
    forall i, j | 0 <= i < j < |messages|
      ensures Precedes(newestFirst, messages[i], messages[j]) || Precedes(newestFirst, messages[j], messages[i])
    {
      assert messages[i] in multiset(ordered) && messages[j] in multiset(ordered);
      var p :| 0 <= p < |ordered| && ordered[p] == messages[i];
      var q :| 0 <= q < |ordered| && ordered[q] == messages[j];
      if p == q {
        CountOnce(newestFirst, ordered, messages[i]);
        CountTwice(messages, i, j);
      }
    }
  }

  function Reverse(messages: seq<Message>): (r: seq<Message>)
    ensures |r| == |messages| && forall i | 0 <= i < |r| :: r[i] == messages[|messages| - 1 - i]
  {
    if messages == [] then [] else [messages[|messages| - 1]] + Reverse(messages[..|messages| - 1])
  }

  lemma {:induction false} ReverseKeepsAll(messages: seq<Message>)
    ensures multiset(Reverse(messages)) == multiset(messages)
    decreases |messages|
  {
    if messages != [] {
      ReverseKeepsAll(messages[..|messages| - 1]);
      assert messages == messages[..|messages| - 1] + [messages[|messages| - 1]];
    }
  }

  // ---- Reading a page ----

  datatype Page = Page(messages: seq<Message>, before: Option<string>, complete: bool)

  datatype Trouble = Aborted | ChannelUnavailable | ProviderFailure

  datatype PageRead = Read(page: Page) | Oversized | Invalid

  /** No more than a page of messages with numeric ids and authors, no id twice. */
  ghost predicate ValidPage(values: seq<Message>) {
    && |values| <= 100
    && (forall i | 0 <= i < |values| :: Numeric(values[i].id) && Numeric(values[i].author))
    && DistinctIds(values)
  }

  /** One to 32 decimal digits. */
  ghost predicate Numeric(id: string) {
    1 <= |id| <= 32 && forall i | 0 <= i < |id| :: '0' <= id[i] <= '9'
  }

  ghost predicate DistinctIds(messages: seq<Message>) {
    forall i, j | 0 <= i < j < |messages| :: messages[i].id != messages[j].id
  }

  method ValidatePage(values: seq<Message>) returns (refusal: Option<PageRead>)
    ensures refusal == Some(Oversized) <==> |values| > 100
    ensures refusal.Some? ==> !refusal.value.Read?
    ensures refusal.None? <==> ValidPage(values)
  {
    if |values| > PAGE_LIMIT { return Some(Oversized); }
    var ids: set<string> := {};
    for i := 0 to |values|
      invariant forall k | 0 <= k < i :: DigitId(values[k].id) && DigitId(values[k].author)
      invariant forall k | 0 <= k < i :: values[k].id in ids
      invariant forall id | id in ids :: exists k :: 0 <= k < i && values[k].id == id
      invariant forall k, l | 0 <= k < l < i :: values[k].id != values[l].id
    {
      if !DigitId(values[i].id) || !DigitId(values[i].author) || values[i].id in ids {
        return Some(Invalid);
      }
      ids := ids + {values[i].id};
    }
    refusal := None;
  }

  /** The page for a fetch reply, whatever order it came in. */
  method ReadPage(fetched: seq<Message>) returns (read: PageRead)
    ensures read.Read? <==> ValidPage(fetched)
    ensures read.Read? ==> read.page.messages == Sort(true, fetched) && (read.page.complete <==> |fetched| < 100)
    ensures read.Read? ==> |read.page.messages| == |fetched|
    ensures read.Read? ==> read.page.before == if |fetched| == 100
                                              then Some(read.page.messages[|fetched| - 1].id) else None
  {
    var refusal := ValidatePage(fetched);
    if refusal.Some? { return refusal.value; }
    var messages := Sort(true, fetched);
    SortKeepsLength(true, fetched);
    var oldest := if messages == [] then None else Some(messages[|messages| - 1]);
    read := Read(Page(messages, if |messages| == PAGE_LIMIT && oldest.Some? then Some(oldest.value.id) else None,
                      |messages| < PAGE_LIMIT));
  }

  lemma {:induction false} InsertKeepsLength(newestFirst: bool, m: Message, sorted: seq<Message>)
    ensures |Insert(newestFirst, m, sorted)| == |sorted| + 1
    decreases |sorted|
  {
    if sorted != [] && Precedes(newestFirst, sorted[0], m) {
      InsertKeepsLength(newestFirst, m, sorted[1..]);
    }
  }

  lemma {:induction false} SortKeepsLength(newestFirst: bool, messages: seq<Message>)
    ensures |Sort(newestFirst, messages)| == |messages|
    decreases |messages|
  {
    if messages != [] {
      var front := messages[..|messages| - 1];
      SortKeepsLength(newestFirst, front);
      InsertKeepsLength(newestFirst, messages[|messages| - 1], Sort(newestFirst, front));
    }
  }

  // ---- Collecting ----

  /** The messages with start <= createdAt < end, in channel order. */
  function InRange(messages: seq<Message>, start: int, end: int): seq<Message> {
    if messages == [] then []
    else
      var earlier, last := InRange(messages[..|messages| - 1], start, end), messages[|messages| - 1];
      if start <= last.createdAt < end then earlier + [last] else earlier
  }

  /** The ids grow, so no message comes twice, and the instants with them. */
  ghost predicate OldestFirst(messages: seq<Message>) {
    forall i, j | 0 <= i < j < |messages| ::
      Value(messages[i].id) < Value(messages[j].id) && messages[i].createdAt <= messages[j].createdAt
  }

  lemma {:induction false} InRangeHas(messages: seq<Message>, start: int, end: int, m: Message)
    ensures m in InRange(messages, start, end) <==> m in messages && start <= m.createdAt < end
    decreases |messages|
  {
    if messages != [] {
      var front, last := messages[..|messages| - 1], messages[|messages| - 1];
      assert messages == front + [last];
      InRangeHas(front, start, end, m);
    }
  }

  lemma OneYounger(messages: seq<Message>, last: Message)
    requires OldestFirst(messages)
    requires forall m | m in messages :: Value(m.id) < Value(last.id) && m.createdAt <= last.createdAt
    ensures OldestFirst(messages + [last])
  {
  }

  lemma {:induction false} InRangeIsOldestFirst(messages: seq<Message>, start: int, end: int)
    requires OldestFirst(messages)
    ensures OldestFirst(InRange(messages, start, end))
    decreases |messages|
  {
    if messages != [] {
      var front, last := messages[..|messages| - 1], messages[|messages| - 1];
      InRangeIsOldestFirst(front, start, end);
      forall m | m in InRange(front, start, end) ensures Value(m.id) < Value(last.id) && m.createdAt <= last.createdAt {
        InRangeHas(front, start, end, m);
        var i :| 0 <= i < |front| && front[i] == m;
        assert messages[i] == m;
      }
      OneYounger(InRange(front, start, end), last);
    }
  }

  /** Every message of the channel in the range and no other, each once and oldest first. */
  ghost predicate IsRange(result: seq<Message>, channel: seq<Message>, start: int, end: int) {
    OldestFirst(result) && forall m :: m in result <==> m in channel && start <= m.createdAt < end
  }

  const DAY: int := 24 * 60 * 60 * 1000

  predicate ValidRange(start: int, end: int) {
    0 < end - start <= DAY
  }

  datatype Collected =
    | Complete(messages: seq<Message>)
    | InvalidRange
    | Incomplete
    | PageRefused
    | Stopped(trouble: Trouble)

  /** Setting the message's id in an insertion-ordered map. */
  function Put(collected: seq<Message>, m: Message): seq<Message> {
    if collected == [] then [m]
    else if collected[0].id == m.id then [m] + collected[1..]
    else [collected[0]] + Put(collected[1..], m)
  }

  function PutInRange(collected: seq<Message>, page: seq<Message>, start: int, end: int): seq<Message> {
    if page == [] then collected
    else
      var earlier, last := PutInRange(collected, page[..|page| - 1], start, end), page[|page| - 1];
      if start <= last.createdAt < end then Put(earlier, last) else earlier
  }

  lemma {:induction false} PutAppends(collected: seq<Message>, m: Message)
    requires forall i | 0 <= i < |collected| :: collected[i].id != m.id
    ensures Put(collected, m) == collected + [m]
    decreases |collected|
  {
    if collected != [] {
      PutAppends(collected[1..], m);
      assert collected == [collected[0]] + collected[1..];
    }
  }

  lemma {:induction false} InRangeSplits(a: seq<Message>, b: seq<Message>, start: int, end: int)
    ensures InRange(a + b, start, end) == InRange(a, start, end) + InRange(b, start, end)
    decreases |b|
  {
    if b == [] {
      assert a + b == a;
    } else {
      var front := b[..|b| - 1];
      assert (a + b)[..|a + b| - 1] == a + front;
      InRangeSplits(a, front, start, end);
    }
  }

  lemma {:induction false} InRangeKeeps(messages: seq<Message>, start: int, end: int, m: Message)
    ensures m in InRange(messages, start, end) <==> m in messages && start <= m.createdAt < end
    decreases |messages|
  {
    if messages != [] {
      InRangeKeeps(messages[..|messages| - 1], start, end, m);
      assert messages == messages[..|messages| - 1] + [messages[|messages| - 1]];
    }
  }

  lemma {:induction false} InRangeIsOrdered(messages: seq<Message>, start: int, end: int)
    requires InOrder(false, messages)
    ensures InOrder(false, InRange(messages, start, end))
    decreases |messages|
  {
    if messages != [] {
      var front, last := messages[..|messages| - 1], messages[|messages| - 1];
      InRangeIsOrdered(front, start, end);
      forall m | m in InRange(front, start, end) ensures Older(m, last) {
        InRangeKeeps(front, start, end, m);
      }
    }
  }

  lemma IdsAreDistinct(messages: seq<Message>)
    requires Channel(messages)
    ensures DistinctIds(messages)
  {
    forall i, j | 0 <= i < j < |messages| ensures messages[i].id != messages[j].id {
      assert Value(messages[i].id) < Value(messages[j].id);
    }
  }

  lemma OlderIsNew(channel: seq<Message>, at: nat, collected: seq<Message>, start: int, end: int)
    requires DistinctIds(channel) && at < |channel|
    requires multiset(collected) == multiset(InRange(channel[at + 1..], start, end))
    ensures forall i | 0 <= i < |collected| :: collected[i].id != channel[at].id
  {
    forall i | 0 <= i < |collected| ensures collected[i].id != channel[at].id {
      assert collected[i] in multiset(InRange(channel[at + 1..], start, end));
      InRangeKeeps(channel[at + 1..], start, end, collected[i]);
      var j :| 0 <= j < |channel[at + 1..]| && channel[at + 1..][j] == collected[i];
      assert channel[at + 1 + j] == collected[i];
    }
  }

  lemma OneMoreInRange(channel: seq<Message>, at: nat, start: int, end: int)
    requires at < |channel|
    ensures InRange(channel[at..], start, end)
         == if start <= channel[at].createdAt < end then [channel[at]] + InRange(channel[at + 1..], start, end)
            else InRange(channel[at + 1..], start, end)
  {
    assert channel[at..] == [channel[at]] + channel[at + 1..];
    InRangeSplits([channel[at]], channel[at + 1..], start, end);
    assert [channel[at]][..0] == [];
  }

  /** Taking up a page of the channel, newest first, adds its messages in range. */
  lemma {:induction false} PageIsTaken(channel: seq<Message>, high: nat, collected: seq<Message>, page: seq<Message>,
                                       start: int, end: int)
    requires DistinctIds(channel) && |page| <= high <= |channel|
    requires forall i | 0 <= i < |page| :: page[i] == channel[high - 1 - i]
    requires multiset(collected) == multiset(InRange(channel[high..], start, end))
    ensures multiset(PutInRange(collected, page, start, end)) == multiset(InRange(channel[high - |page|..], start, end))
    decreases |page|
  {
    if page != [] {
      var front, at := page[..|page| - 1], high - |page|;
      PageIsTaken(channel, high, collected, front, start, end);
      var earlier := PutInRange(collected, front, start, end);
      assert high - |front| == at + 1;
      OneMoreInRange(channel, at, start, end);
      OlderIsNew(channel, at, earlier, start, end);
      PutAppends(earlier, channel[at]);
    }
  }

  lemma {:induction false} NothingOlderInRange(channel: seq<Message>, low: nat, start: int, end: int)
    requires Channel(channel) && low < |channel| && channel[low].createdAt < start
    ensures InRange(channel[..low], start, end) == []
    decreases low
  {
    if low > 0 {
      assert channel[..low][..low - 1] == channel[..low - 1];
      assert channel[low - 1].createdAt <= channel[low].createdAt;
      NothingOlderInRange(channel, low - 1, start, end);
    }
  }

  lemma ReversedAt(channel: seq<Message>, low: nat, high: nat, i: nat)
    requires low <= high <= |channel| && i < high - low
    ensures Reverse(channel[low..high])[i] == channel[high - 1 - i]
  {
  }

  lemma PageIsReversed(channel: seq<Message>, low: nat, high: nat, page: seq<Message>)
    requires low <= high <= |channel| && page == Reverse(channel[low..high])
    ensures |page| == high - low && forall i | 0 <= i < |page| :: page[i] == channel[high - 1 - i]
  {
    forall i | 0 <= i < high - low ensures page[i] == channel[high - 1 - i] {
      ReversedAt(channel, low, high, i);
    }
  }

  lemma SliceIsTaken(channel: seq<Message>, low: nat, high: nat, collected: seq<Message>, page: seq<Message>,
                     start: int, end: int)
    requires DistinctIds(channel) && low <= high <= |channel| && page == Reverse(channel[low..high])
    requires multiset(collected) == multiset(InRange(channel[high..], start, end))
    ensures multiset(PutInRange(collected, page, start, end)) == multiset(InRange(channel[low..], start, end))
  {
    PageIsReversed(channel, low, high, page);
    PageIsTaken(channel, high, collected, page, start, end);
    assert high - |page| == low;
  }

  lemma ReadPageIsTaken(channel: seq<Message>, high: nat, collected: seq<Message>, page: seq<Message>, start: int,
                        end: int)
    requires Channel(channel) && high <= |channel| && page == Reverse(channel[PageStart(high)..high])
    requires multiset(collected) == multiset(InRange(channel[high..], start, end))
    ensures |page| == high - PageStart(high) && (page != [] ==> page[|page| - 1] == channel[PageStart(high)])
    ensures multiset(PutInRange(collected, page, start, end))
        == multiset(InRange(channel[PageStart(high)..], start, end))
  {
    IdsAreDistinct(channel);
    PageIsReversed(channel, PageStart(high), high, page);
    SliceIsTaken(channel, PageStart(high), high, collected, page, start, end);
  }

  lemma RestIsOlder(channel: seq<Message>, low: nat, start: int, end: int)
    requires Channel(channel) && low < |channel| && channel[low].createdAt < start
    ensures InRange(channel, start, end) == InRange(channel[low..], start, end)
  {
    NothingOlderInRange(channel, low, start, end);
    InRangeSplits(channel[..low], channel[low..], start, end);
    assert channel == channel[..low] + channel[low..];
  }

  /** The reply to the k-th fetch is some arrangement of the newest messages before the cursor. */
  ghost predicate Arranges(arrange: (nat, seq<Message>) -> seq<Message>) {
    forall k: nat, messages: seq<Message> :: multiset(arrange(k, messages)) == multiset(messages)
  }

  lemma PageIsSorted(channel: seq<Message>, low: nat, high: nat, fetched: seq<Message>)
    requires Channel(channel) && low <= high <= |channel| && multiset(fetched) == multiset(channel[low..high])
    ensures Sort(true, fetched) == Reverse(channel[low..high]) && |fetched| == high - low
    ensures Distinct(true, fetched)
  {
    var slice := channel[low..high];
    ChannelIsOrdered(channel);
    ReverseKeepsAll(slice);
    var page := Reverse(slice);
    assert InOrder(true, page);
    SortRestores(true, fetched, page);
    SortKeepsLength(true, fetched);
    ArrangementIsDistinct(true, fetched, page);
  }

  lemma PageIsValid(channel: seq<Message>, low: nat, high: nat, fetched: seq<Message>)
    requires Channel(channel) && low <= high <= |channel| && multiset(fetched) == multiset(channel[low..high])
    requires Distinct(true, fetched) && |fetched| <= PAGE_LIMIT
    ensures ValidPage(fetched)
  {
    var slice := channel[low..high];
    forall i | 0 <= i < |fetched| ensures DigitId(fetched[i].id) && DigitId(fetched[i].author) {
      var p := PlaceInChannel(channel, low, high, fetched, i);
    }
    forall i, j | 0 <= i < j < |fetched| ensures fetched[i].id != fetched[j].id {
      var p := PlaceInChannel(channel, low, high, fetched, i);
      var q := PlaceInChannel(channel, low, high, fetched, j);
      PrecedesIsStrict(true, fetched[i], fetched[i], fetched[i]);
      assert p != q;
    }
  }

  lemma PlaceInChannel(channel: seq<Message>, low: nat, high: nat, fetched: seq<Message>, i: nat) returns (p: nat)
    requires low <= high <= |channel| && multiset(fetched) == multiset(channel[low..high]) && i < |fetched|
    ensures low <= p < high && channel[p] == fetched[i]
  {
    var slice := channel[low..high];
    assert fetched[i] in multiset(slice);
    var at :| 0 <= at < |slice| && slice[at] == fetched[i];
    p := low + at;
  }

  lemma CollectedIsInRange(channel: seq<Message>, collected: seq<Message>, start: int, end: int)
    requires Channel(channel) && multiset(collected) == multiset(InRange(channel, start, end))
    ensures IsRange(Sort(false, collected), channel, start, end)
  {
    ChannelIsOrdered(channel);
    InRangeIsOrdered(channel, start, end);
    SortRestores(false, collected, InRange(channel, start, end));
    InRangeIsOldestFirst(channel, start, end);
    forall m ensures m in InRange(channel, start, end) <==> m in channel && start <= m.createdAt < end {
      InRangeHas(channel, start, end, m);
    }
  }

  lemma FetchGivesPage(channel: seq<Message>, low: nat, high: nat, fetched: seq<Message>)
    requires Channel(channel) && low <= high <= |channel| && high - low <= PAGE_LIMIT
    requires multiset(fetched) == multiset(channel[low..high])
    ensures ValidPage(fetched) && Sort(true, fetched) == Reverse(channel[low..high]) && |fetched| == high - low
  {
    PageIsSorted(channel, low, high, fetched);
    PageIsValid(channel, low, high, fetched);
  }

  lemma FetchGivesNewest(channel: seq<Message>, arrange: (nat, seq<Message>) -> seq<Message>, k: nat,
                         before: Option<string>)
    requires Channel(channel) && Arranges(arrange)
    ensures var high, fetched := Before(channel, before), arrange(k, Newest(channel, before));
            && ValidPage(fetched) && |fetched| == high - PageStart(high)
            && Sort(true, fetched) == Reverse(channel[PageStart(high)..high])
  {
    var high := Before(channel, before);
    FetchGivesPage(channel, PageStart(high), high, arrange(k, Newest(channel, before)));
  }

  /** A read of the channel gives its newest messages before the cursor, newest first. */
  method ReadChannel(channel: seq<Message>, arrange: (nat, seq<Message>) -> seq<Message>, k: nat,
                     before: Option<string>)
    returns (page: PageRead)
    requires Channel(channel) && Arranges(arrange)
    ensures var high := Before(channel, before);
            var low := if high < 100 then 0 else high - 100;
            page == Read(Page(Reverse(channel[low..high]), if high < 100 then None else Some(channel[low].id),
                              high < 100))
  {
    FetchGivesNewest(channel, arrange, k, before);
    page := ReadPage(arrange(k, Newest(channel, before)));
  }

  method CollectPage(collected: seq<Message>, page: seq<Message>, start: int, end: int) returns (grown: seq<Message>)
    ensures grown == PutInRange(collected, page, start, end)
  {
    grown := collected;
    for i := 0 to |page|
      invariant grown == PutInRange(collected, page[..i], start, end)
    {
      assert page[..i + 1][..i] == page[..i];
      if page[i].createdAt >= start && page[i].createdAt < end {
        grown := Put(grown, page[i]);
      }
    }
    assert page[..|page|] == page;
  }

  lemma PagesAreFew(pages: nat, high: nat, length: nat)
    requires pages * PAGE_LIMIT + high == length
    ensures pages <= length / 100
  {
  }

  /** After a page from `high` down to `low` all that is in range is collected, if the page reaches the
      first message or one before the range. */
  lemma NothingLeft(channel: seq<Message>, low: nat, collected: seq<Message>, start: int, end: int)
    requires Channel(channel) && low <= |channel|
    requires low == 0 || (low < |channel| && channel[low].createdAt < start)
    requires multiset(collected) == multiset(InRange(channel[low..], start, end))
    ensures IsRange(Sort(false, collected), channel, start, end)
  {
    if low == 0 {
      assert channel[low..] == channel;
    } else {
      RestIsOlder(channel, low, start, end);
    }
    CollectedIsInRange(channel, collected, start, end);
  }

  lemma CursorAdvances(channel: seq<Message>, low: nat, high: nat)
    requires Channel(channel) && low < high <= |channel|
    ensures Before(channel, Some(channel[low].id)) == low
    ensures high < |channel| ==> channel[low].id != channel[high].id
  {
    BeforeFindsCursor(channel, low);
    if high < |channel| {
      assert Value(channel[low].id) < Value(channel[high].id);
    }
  }

  /** One read, and what it leaves collected. */
  method ReadAndCollect(channel: seq<Message>, arrange: (nat, seq<Message>) -> seq<Message>, k: nat,
                        before: Option<string>, collected: seq<Message>, start: int, end: int)
    returns (read: PageRead, grown: seq<Message>)
    requires Channel(channel) && Arranges(arrange)
    requires multiset(collected) == multiset(InRange(channel[Before(channel, before)..], start, end))
    ensures var high := Before(channel, before);
            var low := PageStart(high);
            && read.Read? && (read.page.complete <==> high < PAGE_LIMIT)
            && |read.page.messages| == high - low
            && (low < high ==> read.page.messages[high - low - 1] == channel[low])
            && read.page.before == (if high < PAGE_LIMIT then None else Some(channel[low].id))
            && multiset(grown) == multiset(InRange(channel[low..], start, end))
  {
    grown := collected;
    read := ReadChannel(channel, arrange, k, before);
    if read.Read? {
      ReadPageIsTaken(channel, Before(channel, before), collected, read.page.messages, start, end);
      grown := CollectPage(collected, read.page.messages, start, end);
    }
  }

  /** Over a fixed channel, however each fetch arranges its reply: unless a read is stopped from
      outside, the result is exactly the messages in range, oldest first, after at most one read per
      full hundred and one more; the cursor always advances and no page is refused. */
  method CollectCompleteConversation(channel: seq<Message>, arrange: (nat, seq<Message>) -> seq<Message>,
                                     troubles: nat -> Option<Trouble>, start: int, end: int)
    returns (result: Collected, pages: nat)
    requires Channel(channel) && Arranges(arrange)
    ensures pages <= |channel| / 100 + 1
    ensures result.InvalidRange? <==> !(0 < end - start <= 86_400_000)
    ensures result.Complete? ==> IsRange(result.messages, channel, start, end)
    ensures result.Stopped? ==> pages <= |channel| / 100 && troubles(pages) == Some(result.trouble)
    ensures !result.Incomplete? && !result.PageRefused?
  {
    pages := 0;
    if !ValidRange(start, end) { return InvalidRange, pages; }
    var collected: seq<Message> := [];
    var before, previousCursor: Option<string> := None, None;
    ghost var high := |channel|;
    assert channel[high..] == [];
    while true
      invariant high <= |channel| && Before(channel, before) == high
      invariant pages * PAGE_LIMIT + high == |channel|
      invariant previousCursor == before
      invariant before.Some? ==> high < |channel| && before.value == channel[high].id
      invariant multiset(collected) == multiset(InRange(channel[high..], start, end))
      decreases high
    {
      PagesAreFew(pages, high, |channel|);
      if troubles(pages).Some? { return Stopped(troubles(pages).value), pages; }
      ghost var low := PageStart(high);
      var read: PageRead;
      read, collected := ReadAndCollect(channel, arrange, pages, before, collected, start, end);
      pages := pages + 1;
      if !read.Read? { return PageRefused, pages; }
      var page := read.page;
      if page.messages == [] {
        if !page.complete { return Incomplete, pages; }
        NothingLeft(channel, low, collected, start, end);
        break;
      }
      var oldest := page.messages[|page.messages| - 1];
      if oldest.createdAt < start {
        NothingLeft(channel, low, collected, start, end);
        break;
      }
      if page.complete {
        NothingLeft(channel, low, collected, start, end);
        break;
      }
      CursorAdvances(channel, low, high);
      before := page.before;
      if before.None? || before == previousCursor { return Incomplete, pages; }
      previousCursor := before;
      high := low;
    }
    result := Complete(Sort(false, collected));
  }

  // ---- The chunk manifest ----

  datatype Chunk = Chunk(firstOrdinal: int, lastOrdinal: int, count: int)

  /** Non-empty chunks, one after the other from 0 to the last of `total` ordinals. */
  ghost predicate Tiles(manifest: seq<Chunk>, total: int) {
    && (forall i | 0 <= i < |manifest| ::
          manifest[i].firstOrdinal <= manifest[i].lastOrdinal
          && manifest[i].count == manifest[i].lastOrdinal - manifest[i].firstOrdinal + 1)
    && (forall i | 0 < i < |manifest| :: manifest[i].firstOrdinal == manifest[i - 1].lastOrdinal + 1)
    && (if manifest == [] then total == 0
        else manifest[0].firstOrdinal == 0 && manifest[|manifest| - 1].lastOrdinal == total - 1)
  }

  /** The chunk starts at the ordinal and counts what it spans. */
  predicate StartsAt(chunk: Chunk, first: int) {
    && chunk.firstOrdinal == first && first <= chunk.lastOrdinal
    && chunk.count == chunk.lastOrdinal - chunk.firstOrdinal + 1
  }

  lemma TilesGrow(manifest: seq<Chunk>, next: int, chunk: Chunk)
    requires Tiles(manifest, next) && StartsAt(chunk, next)
    ensures Tiles(manifest + [chunk], chunk.lastOrdinal + 1)
  {
  }

  lemma TilesBreak(manifest: seq<Chunk>, i: nat, next: int, total: int)
    requires i < |manifest| && Tiles(manifest[..i], next) && !StartsAt(manifest[i], next)
    ensures !Tiles(manifest, total)
  {
    if i > 0 {
      assert manifest[..i][i - 1] == manifest[i - 1];
    }
  }

  /** A manifest is accepted exactly when it tiles the messages. */
  method ValidateManifest(messageCount: nat, manifest: seq<Chunk>) returns (valid: bool)
    ensures valid <==> Tiles(manifest, messageCount)
  {
    var next := 0;
    for i := 0 to |manifest|
      invariant Tiles(manifest[..i], next)
    {
      var chunk := manifest[i];
      if chunk.firstOrdinal != next || chunk.lastOrdinal < chunk.firstOrdinal
         || chunk.count != chunk.lastOrdinal - chunk.firstOrdinal + 1
      {
        TilesBreak(manifest, i, next, messageCount);
        return false;
      }
      TilesGrow(manifest[..i], next, chunk);
      next := chunk.lastOrdinal + 1;
      assert manifest[..i + 1] == manifest[..i] + [chunk];
    }
    assert manifest[..|manifest|] == manifest;
    valid := next == messageCount;
  }

  /** The chunk whose ordinals include the given one; there is exactly one. */
  lemma {:induction false} TilesCoverOnce(manifest: seq<Chunk>, total: int, ordinal: int) returns (at: nat)
    requires Tiles(manifest, total) && 0 <= ordinal < total
    ensures at < |manifest| && manifest[at].firstOrdinal <= ordinal <= manifest[at].lastOrdinal
    ensures forall i | 0 <= i < |manifest| && i != at ::
      !(manifest[i].firstOrdinal <= ordinal <= manifest[i].lastOrdinal)
    decreases |manifest|
  {
    var n := |manifest| - 1;
    var front, last := manifest[..n], manifest[n];
    TilesAscend(manifest, total);
    if ordinal >= last.firstOrdinal {
      at := n;
    } else {
      assert n > 0 && front[n - 1] == manifest[n - 1];
      at := TilesCoverOnce(front, last.firstOrdinal, ordinal);
    }
  }

  lemma {:induction false} TilesAscend(manifest: seq<Chunk>, total: int)
    requires Tiles(manifest, total)
    ensures forall i, j | 0 <= i < j < |manifest| :: manifest[i].lastOrdinal < manifest[j].firstOrdinal
    decreases |manifest|
  {
    if |manifest| > 1 {
      var n := |manifest| - 1;
      var front := manifest[..n];
      assert front[n - 1] == manifest[n - 1];
      TilesAscend(front, manifest[n].firstOrdinal);
      forall i | 0 <= i < n ensures manifest[i].lastOrdinal < manifest[n].firstOrdinal {
        assert front[i] == manifest[i];
      }
    }
  }

  /** The messages are tiled in ceil(count / size) chunks, all full but perhaps the last; a size that
      is not positive is refused. */
  method CreateManifest(messageCount: nat, chunkSize: int) returns (manifest: Option<seq<Chunk>>)
    ensures manifest.None? <==> chunkSize <= 0
    ensures manifest.Some? ==>
              && Tiles(manifest.value, messageCount)
              && |manifest.value| * chunkSize - chunkSize < messageCount <= |manifest.value| * chunkSize
              && forall i | 0 <= i < |manifest.value| ::
                   && manifest.value[i].count <= chunkSize
                   && (i < |manifest.value| - 1 ==> manifest.value[i].count == chunkSize)
  {
    if chunkSize <= 0 { return None; }
    var chunks: seq<Chunk> := [];
    var first := 0;
    while first < messageCount
      invariant 0 <= first && Tiles(chunks, if first <= messageCount then first else messageCount)
      invariant |chunks| * chunkSize == first && first < messageCount + chunkSize
      invariant forall i | 0 <= i < |chunks| ::
                  && chunks[i].count <= chunkSize
                  && (i < |chunks| - 1 || first <= messageCount ==> chunks[i].count == chunkSize)
      decreases messageCount - first
    {
      var last := (if first + chunkSize < messageCount then first + chunkSize else messageCount) - 1;
      TilesGrow(chunks, first, Chunk(first, last, last - first + 1));
      chunks := chunks + [Chunk(first, last, last - first + 1)];
      MultiplyMore(|chunks| - 1, chunkSize);
      first := first + chunkSize;
    }
    manifest := Some(chunks);
  }

  lemma MultiplyMore(n: nat, k: int)
    ensures (n + 1) * k == n * k + k
  {
  }
}
