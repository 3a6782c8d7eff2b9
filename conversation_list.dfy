/** The admin conversation list (`useConversationList`): a paged query of
    message rows, newest first, collapsed into one conversation per sender,
    kept live by realtime INSERT and UPDATE events. */
module ConversationList {
  import opened Types

  const ConversationsPerPage: nat := 10

  // ---------------------------------------------------------------------
  // Paging arithmetic

  /** The inclusive row range `.range(from, to)` asked for. */
  datatype RowRange = RowRange(from: int, to: int)

  function PageRange(page: int): (r: RowRange)
    ensures r.to - r.from + 1 == ConversationsPerPage
    ensures page == 1 ==> r.from == 0
  {
    RowRange((page - 1) * ConversationsPerPage, page * ConversationsPerPage - 1)
  }

  /** Consecutive pages are adjacent: no row is skipped between them. */
  lemma PagesAreAdjacent(page: int)
    ensures PageRange(page + 1).from == PageRange(page).to + 1
  {
  }

  /** Every row position lies on exactly one page, the page `n / 10 + 1`. */
  lemma RowOnExactlyOnePage(n: nat, page: int)
    ensures PageRange(page).from <= n <= PageRange(page).to <==> page == n / ConversationsPerPage + 1
  {
    var q := n / ConversationsPerPage;
    assert n == q * 10 + n % 10;
    if page <= q {
      assert page * 10 - 1 <= q * 10 - 1;
    } else if page >= q + 2 {
      assert (page - 1) * 10 >= (q + 1) * 10;
    }
  }

  /** `Math.ceil(n / d)` for a positive count. */
  function CeilDiv(n: nat, d: nat): (r: nat)
    requires d > 0
    ensures (r - 1) * d < n <= r * d || (n == 0 && r == 0)
  {
    (n + d - 1) / d
  }

  /** `if (count) setTotalPages(Math.ceil(count / 10))`. */
  function TotalPagesAfter(previous: int, count: Option<nat>): (r: int)
    ensures count.Some? && count.value > 0 ==>
      r > 0 && (r - 1) * ConversationsPerPage < count.value <= r * ConversationsPerPage
    ensures !(count.Some? && count.value > 0) ==> r == previous
  {
    if count.Some? && count.value != 0 then CeilDiv(count.value, ConversationsPerPage) else previous
  }

  /** `1000 * Math.min(10, Math.pow(2, k))` for `k` recorded connection errors. */
  function ReconnectDelay(k: nat): (ms: int)
    ensures 1000 <= ms <= 10000
  {
    1000 * Min(10, Pow2(k))
  }

  /** The delay doubles from 1000 ms and is capped at 10000 ms from the fourth error on. */
  lemma ReconnectDelayValues(k: nat)
    ensures k < 4 ==> ReconnectDelay(k) == 1000 * Pow2(k)
    ensures k >= 4 ==> ReconnectDelay(k) == 10000
  {
    if k >= 4 {
      Pow2AtLeastSixteen(k);
    }
  }

  function Pow2(k: nat): (p: nat)
    ensures p >= 1
  {
    if k == 0 then 1 else 2 * Pow2(k - 1)
  }

  lemma {:induction false} Pow2AtLeastSixteen(k: nat)
    requires k >= 4
    ensures Pow2(k) >= 16
  {
    if k > 4 {
      Pow2AtLeastSixteen(k - 1);
    }
  }

  /** The delay never decreases as errors accumulate. */
  lemma {:induction false} ReconnectDelayMonotone(j: nat, k: nat)
    requires j <= k
    ensures ReconnectDelay(j) <= ReconnectDelay(k)
  {
    if j < k {
      ReconnectDelayMonotone(j, k - 1);
      ReconnectDelayValues(k);
      ReconnectDelayValues(k - 1);
    }
  }

  // ---------------------------------------------------------------------
  // Recency order

  predicate NewestFirst(cs: seq<Conversation>) {
    forall i, j :: 0 <= i < j < |cs| ==> cs[i].lastMessageTimestamp >= cs[j].lastMessageTimestamp
  }

  /** No entry of `cs` is newer than `t`. */
  predicate NoneNewerThan(cs: seq<Conversation>, t: int) {
    forall x :: x in cs ==> x.lastMessageTimestamp <= t
  }

  lemma ConsNewestFirst(x: Conversation, cs: seq<Conversation>)
    requires NewestFirst(cs) && NoneNewerThan(cs, x.lastMessageTimestamp)
    ensures NewestFirst([x] + cs)
  {
    var r := [x] + cs;
    forall i, j | 0 <= i < j < |r| ensures r[i].lastMessageTimestamp >= r[j].lastMessageTimestamp {
      assert r[j] == cs[j - 1];
      if i == 0 {
        assert cs[j - 1] in cs;
      } else {
        assert r[i] == cs[i - 1];
      }
    }
  }

  lemma TailNewestFirst(cs: seq<Conversation>)
    requires NewestFirst(cs) && cs != []
    ensures NewestFirst(cs[1..]) && NoneNewerThan(cs[1..], cs[0].lastMessageTimestamp)
  {
    forall x | x in cs[1..] ensures x.lastMessageTimestamp <= cs[0].lastMessageTimestamp {
      var j :| 0 <= j < |cs[1..]| && cs[1..][j] == x;
      assert cs[j + 1] == x;
    }
  }

  lemma SnocNewestFirst(cs: seq<Conversation>, x: Conversation)
    requires NewestFirst(cs)
    requires forall y :: y in cs ==> y.lastMessageTimestamp >= x.lastMessageTimestamp
    ensures NewestFirst(cs + [x])
  {
    var r := cs + [x];
    forall i, j | 0 <= i < j < |r| ensures r[i].lastMessageTimestamp >= r[j].lastMessageTimestamp {
      assert r[i] == cs[i];
      if j == |cs| {
        assert cs[i] in cs;
      } else {
        assert r[j] == cs[j];
      }
    }
  }

  /** Inserts `c` ahead of the first entry that is not newer than it. */
  function InsertByRecency(c: Conversation, cs: seq<Conversation>): (r: seq<Conversation>)
    ensures multiset(r) == multiset(cs) + multiset{c}
    ensures |r| == |cs| + 1
    ensures forall x :: x in r <==> x == c || x in cs
  {
    if cs == [] then [c]
    else if cs[0].lastMessageTimestamp <= c.lastMessageTimestamp then [c] + cs
    else
      assert cs == [cs[0]] + cs[1..];
      [cs[0]] + InsertByRecency(c, cs[1..])
  }

  /** `list.sort((a, b) => b.ts - a.ts)`: the stable sort, newest first. */
  function SortByRecency(cs: seq<Conversation>): (r: seq<Conversation>)
    ensures multiset(r) == multiset(cs)
    ensures |r| == |cs|
    ensures forall x :: x in r <==> x in cs
  {
    if cs == [] then []
    else
      assert cs == [cs[0]] + cs[1..];
      InsertByRecency(cs[0], SortByRecency(cs[1..]))
  }

  lemma {:induction false} InsertKeepsOrder(c: Conversation, cs: seq<Conversation>)
    requires NewestFirst(cs)
    ensures NewestFirst(InsertByRecency(c, cs))
  {
    if cs == [] {
    } else if cs[0].lastMessageTimestamp <= c.lastMessageTimestamp {
      TailNewestFirst(cs);
      ConsNewestFirst(c, cs);
    } else {
      TailNewestFirst(cs);
      InsertKeepsOrder(c, cs[1..]);
      ConsNewestFirst(cs[0], InsertByRecency(c, cs[1..]));
    }
  }

  lemma {:induction false} SortIsNewestFirst(cs: seq<Conversation>)
    ensures NewestFirst(SortByRecency(cs))
  {
    if cs != [] {
      SortIsNewestFirst(cs[1..]);
      InsertKeepsOrder(cs[0], SortByRecency(cs[1..]));
    }
  }

  /** A list already newest first is left as it is. */
  lemma {:induction false} SortOfSortedIsIdentity(cs: seq<Conversation>)
    requires NewestFirst(cs)
    ensures SortByRecency(cs) == cs
  {
    if cs != [] {
      TailNewestFirst(cs);
      SortOfSortedIsIdentity(cs[1..]);
      assert cs == [cs[0]] + cs[1..];
    }
  }

  // ---------------------------------------------------------------------
  // One entry per sender

  function SenderIds(cs: seq<Conversation>): set<string> {
    set c | c in cs :: c.senderId
  }

  predicate UniqueSenders(cs: seq<Conversation>) {
    forall i, j :: 0 <= i < j < |cs| ==> cs[i].senderId != cs[j].senderId
  }

  lemma ConsUnique(x: Conversation, cs: seq<Conversation>)
    requires UniqueSenders(cs) && x.senderId !in SenderIds(cs)
    ensures UniqueSenders([x] + cs)
  {
    var r := [x] + cs;
    forall i, j | 0 <= i < j < |r| ensures r[i].senderId != r[j].senderId {
      assert r[j] == cs[j - 1];
      if i == 0 {
        assert cs[j - 1] in cs;
      } else {
        assert r[i] == cs[i - 1];
      }
    }
  }

  lemma TailUnique(cs: seq<Conversation>)
    requires UniqueSenders(cs) && cs != []
    ensures UniqueSenders(cs[1..]) && cs[0].senderId !in SenderIds(cs[1..])
  {
    forall x | x in cs[1..] ensures x.senderId != cs[0].senderId {
      var j :| 0 <= j < |cs[1..]| && cs[1..][j] == x;
      assert cs[j + 1] == x;
    }
  }

  lemma SnocUnique(cs: seq<Conversation>, x: Conversation)
    requires UniqueSenders(cs) && x.senderId !in SenderIds(cs)
    ensures UniqueSenders(cs + [x])
  {
    var r := cs + [x];
    forall i, j | 0 <= i < j < |r| ensures r[i].senderId != r[j].senderId {
      assert r[i] == cs[i];
      if j == |cs| {
        assert cs[i] in cs;
      } else {
        assert r[j] == cs[j];
      }
    }
  }

  lemma {:induction false} InsertKeepsSenders(c: Conversation, cs: seq<Conversation>)
    ensures SenderIds(InsertByRecency(c, cs)) == SenderIds(cs) + {c.senderId}
    ensures UniqueSenders(cs) && c.senderId !in SenderIds(cs) ==> UniqueSenders(InsertByRecency(c, cs))
  {
    if UniqueSenders(cs) && c.senderId !in SenderIds(cs) {
      if cs == [] {
      } else if cs[0].lastMessageTimestamp <= c.lastMessageTimestamp {
        ConsUnique(c, cs);
      } else {
        TailUnique(cs);
        assert cs[0] in cs;
        InsertKeepsSenders(c, cs[1..]);
        ConsUnique(cs[0], InsertByRecency(c, cs[1..]));
      }
    }
  }

  lemma {:induction false} SortKeepsSenders(cs: seq<Conversation>)
    ensures SenderIds(SortByRecency(cs)) == SenderIds(cs)
    ensures UniqueSenders(cs) ==> UniqueSenders(SortByRecency(cs))
  {
    if cs != [] {
      var tail := cs[1..];
      SortKeepsSenders(tail);
      InsertKeepsSenders(cs[0], SortByRecency(tail));
      if UniqueSenders(cs) {
        TailUnique(cs);
      }
    }
  }

  // ---------------------------------------------------------------------
  // Page aggregation

  /** A row of the page query: `sender_id, content, created_at` and the joined profile. */
  datatype PageRow = PageRow(senderId: string, content: string, createdAt: int, profile: Option<UserInfo>)

  function ProfileInfo(profile: Option<UserInfo>): UserInfo {
    match profile
    case Some(p) => p
    case None => UserInfo(None, None)
  }

  /** The conversation a row opens, with the given unread count. */
  function Opened(senderId: string, content: string, createdAt: int, profile: Option<UserInfo>, unread: nat): (c: Conversation)
    ensures c.senderId == senderId && c.lastMessage == content && c.unreadCount == unread
    ensures c.createdAt == createdAt && c.lastMessageTimestamp == createdAt
  {
    Conversation(senderId, content, createdAt, createdAt, ProfileInfo(profile), unread)
  }

  function FromRow(row: PageRow): Conversation {
    Opened(row.senderId, row.content, row.createdAt, row.profile, 0)
  }

  /** Rows read in order; a sender's entry is made from the first row seen for it. */
  function Collapse(rows: seq<PageRow>): (cs: seq<Conversation>)
    ensures |cs| <= |rows|
  {
    if rows == [] then []
    else
      var prev := Collapse(rows[..|rows| - 1]);
      var row := rows[|rows| - 1];
      if row.senderId in SenderIds(prev) then prev else prev + [FromRow(row)]
  }

  function RowSenders(rows: seq<PageRow>): set<string> {
    set r | r in rows :: r.senderId
  }

  /** `rows[i]` is the first row of its sender. */
  predicate FirstOfSender(rows: seq<PageRow>, i: int)
    requires 0 <= i < |rows|
  {
    forall j :: 0 <= j < i ==> rows[j].senderId != rows[i].senderId
  }

  lemma RowSendersSnoc(rows: seq<PageRow>)
    requires rows != []
    ensures RowSenders(rows) == RowSenders(rows[..|rows| - 1]) + {rows[|rows| - 1].senderId}
  {
    var init, row := rows[..|rows| - 1], rows[|rows| - 1];
    forall y | y in RowSenders(rows) ensures y in RowSenders(init) + {row.senderId} {
      var i :| 0 <= i < |rows| && rows[i].senderId == y;
      if i < |rows| - 1 {
        assert init[i] == rows[i];
      }
    }
    forall y | y in RowSenders(init) ensures y in RowSenders(rows) {
      var i :| 0 <= i < |init| && init[i].senderId == y;
      assert rows[i] == init[i];
    }
  }

  /** One entry per sender, exactly the senders of the page. */
  lemma {:induction false} CollapseSenders(rows: seq<PageRow>)
    ensures UniqueSenders(Collapse(rows))
    ensures SenderIds(Collapse(rows)) == RowSenders(rows)
  {
    if rows != [] {
      var n := |rows| - 1;
      var init, row := rows[..n], rows[n];
      var prev := Collapse(init);
      CollapseSenders(init);
      RowSendersSnoc(rows);
      if row.senderId in SenderIds(prev) {
        assert Collapse(rows) == prev;
      } else {
        assert Collapse(rows) == prev + [FromRow(row)];
        SnocUnique(prev, FromRow(row));
      }
    }
  }

  /** `c` is the entry made from the first row of some sender. */
  ghost predicate FromFirstRow(rows: seq<PageRow>, c: Conversation) {
    exists i :: 0 <= i < |rows| && FirstOfSender(rows, i) && c == FromRow(rows[i])
  }

  lemma FromFirstRowExtend(init: seq<PageRow>, row: PageRow, c: Conversation)
    requires FromFirstRow(init, c)
    ensures FromFirstRow(init + [row], c)
  {
    var rows := init + [row];
    var i :| 0 <= i < |init| && FirstOfSender(init, i) && c == FromRow(init[i]);
    assert rows[i] == init[i];
    assert FirstOfSender(rows, i) by {
      forall j | 0 <= j < i ensures rows[j].senderId != rows[i].senderId {
        assert rows[j] == init[j];
      }
    }
  }

  /** A row whose sender has no earlier row is the first of its sender. */
  lemma FromFirstRowNew(init: seq<PageRow>, row: PageRow)
    requires row.senderId !in RowSenders(init)
    ensures FromFirstRow(init + [row], FromRow(row))
  {
    var rows := init + [row];
    var n := |init|;
    assert rows[n] == row;
    assert FirstOfSender(rows, n) by {
      forall j | 0 <= j < n ensures rows[j].senderId != row.senderId {
        assert rows[j] == init[j];
        assert init[j] in init;
      }
    }
  }

  /** Each entry is made from the first row of its sender, with `unread_count` 0. */
  lemma {:induction false} CollapseFromFirstRows(rows: seq<PageRow>)
    ensures forall c :: c in Collapse(rows) ==> c.unreadCount == 0 && FromFirstRow(rows, c)
  {
    if rows != [] {
      var n := |rows| - 1;
      var init := rows[..n];
      var row := rows[n];
      var prev := Collapse(init);
      CollapseFromFirstRows(init);
      assert rows == init + [row];
      forall c | c in prev ensures FromFirstRow(rows, c) {
        FromFirstRowExtend(init, row, c);
      }
      if row.senderId in SenderIds(prev) {
        assert Collapse(rows) == prev;
      } else {
        CollapseSenders(init);
        FromFirstRowNew(init, row);
        assert Collapse(rows) == prev + [FromRow(row)];
        forall c | c in prev + [FromRow(row)] ensures c.unreadCount == 0 && FromFirstRow(rows, c) {
          if c !in prev {
            assert c == FromRow(row);
          }
        }
      }
    }
  }

  /** One entry per sender, exactly the senders of the page, each made from
      the sender's first row with `unread_count` 0. */
  lemma CollapseProperties(rows: seq<PageRow>)
    ensures UniqueSenders(Collapse(rows))
    ensures SenderIds(Collapse(rows)) == RowSenders(rows)
    ensures forall c :: c in Collapse(rows) ==>
      c.unreadCount == 0 &&
      exists i :: 0 <= i < |rows| && FirstOfSender(rows, i) && c == FromRow(rows[i])
  {
    CollapseSenders(rows);
    CollapseFromFirstRows(rows);
  }

  /** Rows arriving newest first give entries already newest first, so the sort keeps their order. */
  lemma {:induction false} CollapseOfNewestFirstRows(rows: seq<PageRow>)
    requires forall i, j :: 0 <= i < j < |rows| ==> rows[i].createdAt >= rows[j].createdAt
    ensures NewestFirst(Collapse(rows))
    ensures forall c :: c in Collapse(rows) ==> c.lastMessageTimestamp >= (if rows == [] then 0 else rows[|rows| - 1].createdAt)
  {
    if rows != [] {
      var init := rows[..|rows| - 1];
      var row := rows[|rows| - 1];
      CollapseOfNewestFirstRows(init);
      CollapseProperties(init);
      var prev := Collapse(init);
      forall c | c in prev ensures c.lastMessageTimestamp >= row.createdAt {
        var i :| 0 <= i < |init| && FirstOfSender(init, i) && c == FromRow(init[i]);
        assert init[i] == rows[i];
      }
      if row.senderId !in SenderIds(prev) {
        var r := prev + [FromRow(row)];
        forall i, j | 0 <= i < j < |r| ensures r[i].lastMessageTimestamp >= r[j].lastMessageTimestamp {
          if j == |prev| {
            assert prev[i] in prev;
            assert r[i] == prev[i];
          } else {
            assert r[i] == prev[i] && r[j] == prev[j];
          }
        }
      }
    }
  }

  /** The values of a JavaScript `Map` in insertion order. */
  function ValuesInOrder(order: seq<string>, m: map<string, Conversation>): (vs: seq<Conversation>)
    requires forall k :: k in order ==> k in m
    ensures |vs| == |order|
  {
    if order == [] then []
    else ValuesInOrder(order[..|order| - 1], m) + [m[order[|order| - 1]]]
  }

  lemma {:induction false} ValuesInOrderExtend(order: seq<string>, m: map<string, Conversation>, k: string, c: Conversation)
    requires forall x :: x in order ==> x in m
    requires k !in order
    ensures ValuesInOrder(order + [k], m[k := c]) == ValuesInOrder(order, m) + [c]
  {
    ValuesInOrderUpdateElsewhere(order, m, k, c);
    assert (order + [k])[..|order|] == order;
  }

  lemma {:induction false} ValuesInOrderUpdateElsewhere(order: seq<string>, m: map<string, Conversation>, k: string, c: Conversation)
    requires forall x :: x in order ==> x in m
    requires k !in order
    ensures ValuesInOrder(order, m[k := c]) == ValuesInOrder(order, m)
  {
    if order != [] {
      ValuesInOrderUpdateElsewhere(order[..|order| - 1], m, k, c);
    }
  }

  /** Reading one more row either keeps the entries or appends one for a new sender. */
  lemma CollapseSnoc(rows: seq<PageRow>, i: int)
    requires 0 <= i < |rows|
    ensures var prev := Collapse(rows[..i]);
      Collapse(rows[..i + 1]) == (if rows[i].senderId in SenderIds(prev) then prev else prev + [FromRow(rows[i])]) &&
      SenderIds(prev + [FromRow(rows[i])]) == SenderIds(prev) + {rows[i].senderId}
  {
    assert rows[..i + 1][..i] == rows[..i];
    var prev := Collapse(rows[..i]);
    var r := prev + [FromRow(rows[i])];
    forall y | y in SenderIds(r) ensures y in SenderIds(prev) + {rows[i].senderId} {
      var d :| d in r && d.senderId == y;
      if d != FromRow(rows[i]) {
        assert d in prev;
      }
    }
    forall y | y in SenderIds(prev) ensures y in SenderIds(r) {
      var d :| d in prev && d.senderId == y;
      assert d in r;
    }
    assert FromRow(rows[i]) in r;
  }

  /** The `Map` and its insertion order hold the collapse of the first `i` rows. */
  ghost predicate Tracks(rows: seq<PageRow>, i: int, order: seq<string>, unique: map<string, Conversation>)
    requires 0 <= i <= |rows|
  {
    (forall k :: k in order <==> k in unique) &&
    SenderIds(Collapse(rows[..i])) == unique.Keys &&
    ValuesInOrder(order, unique) == Collapse(rows[..i])
  }

  /** One iteration of the loop: a known sender is skipped, a new one is set and appended to the order. */
  lemma TracksStep(rows: seq<PageRow>, i: int, order: seq<string>, unique: map<string, Conversation>)
    requires 0 <= i < |rows| && Tracks(rows, i, order, unique)
    ensures rows[i].senderId in unique ==> Tracks(rows, i + 1, order, unique)
    ensures rows[i].senderId !in unique ==>
      Tracks(rows, i + 1, order + [rows[i].senderId], unique[rows[i].senderId := FromRow(rows[i])])
  {
    var k := rows[i].senderId;
    var prev := Collapse(rows[..i]);
    CollapseSnoc(rows, i);
    if k in unique {
      assert Collapse(rows[..i + 1]) == prev;
    } else {
      var x := FromRow(rows[i]);
      var order', unique' := order + [k], unique[k := x];
      assert Collapse(rows[..i + 1]) == prev + [x];
      assert unique'.Keys == SenderIds(prev) + {k};
      assert forall y :: y in order' <==> y in unique';
      ValuesInOrderExtend(order, unique, k, x);
    }
  }

  /** The `for` loop over the page's rows, filling a `Map` keyed by sender, then the sort. */
  method AggregatePage(rows: seq<PageRow>) returns (conversations: seq<Conversation>)
    ensures conversations == SortByRecency(Collapse(rows))
    ensures NewestFirst(conversations)
    ensures UniqueSenders(conversations)
    ensures SenderIds(conversations) == RowSenders(rows)
  {
    var unique: map<string, Conversation> := map[];
    var order: seq<string> := [];
    for i := 0 to |rows|
      invariant Tracks(rows, i, order, unique)
    {
      var message := rows[i];
      TracksStep(rows, i, order, unique);
      if message.senderId !in unique {
        unique := unique[message.senderId := FromRow(message)];
        order := order + [message.senderId];
      }
    }
    assert rows[..|rows|] == rows;
    var conversationList := ValuesInOrder(order, unique);
    conversations := SortByRecency(conversationList);
    SortedCollapseProperties(rows);
  }

  /** The sorted collapse of a page is newest first, one entry per sender, exactly the page's senders. */
  lemma SortedCollapseProperties(rows: seq<PageRow>)
    ensures var cs := SortByRecency(Collapse(rows));
      NewestFirst(cs) && UniqueSenders(cs) && SenderIds(cs) == RowSenders(rows)
  {
    SortIsNewestFirst(Collapse(rows));
    CollapseProperties(rows);
    SortKeepsSenders(Collapse(rows));
  }

  // ---------------------------------------------------------------------
  // Hook state and its transitions

  datatype ListState = ListState(
    conversations: seq<Conversation>,
    loading: bool,
    currentPage: int,
    totalPages: int,
    connectionStatus: ConnectionStatus,
    errors: seq<ConversationError>)

  function InitialState(): (s: ListState)
    ensures s.conversations == [] && s.loading && s.currentPage == 1 && s.totalPages == 1
    ensures s.connectionStatus == Connecting && s.errors == []
  {
    ListState([], true, 1, 1, Connecting, [])
  }

  /** What the page query returned. */
  datatype PageResult = QueryFailed | Page(data: Option<seq<PageRow>>, count: Option<nat>)

  /** `fetchConversations`: the state once the query has been answered. */
  function ApplyFetch(s: ListState, result: PageResult): (t: ListState)
    ensures !t.loading
    ensures t.currentPage == s.currentPage && t.connectionStatus == s.connectionStatus
    ensures result.QueryFailed? ==>
      t.conversations == s.conversations && t.totalPages == s.totalPages &&
      t.errors == s.errors + [ConversationError(FetchError, "Could not load conversations")]
    ensures result.Page? && (result.data.None? || result.data.value == []) ==>
      t.conversations == [] && t.totalPages == s.totalPages && t.errors == s.errors
    ensures result.Page? && result.data.Some? && result.data.value != [] ==>
      t.errors == s.errors &&
      t.totalPages == TotalPagesAfter(s.totalPages, result.count) &&
      NewestFirst(t.conversations) && UniqueSenders(t.conversations) &&
      SenderIds(t.conversations) == RowSenders(result.data.value)
  {
    match result
    case QueryFailed =>
      s.(errors := s.errors + [ConversationError(FetchError, "Could not load conversations")], loading := false)
    case Page(data, count) =>
      if data.None? || data.value == [] then
        s.(conversations := [], loading := false)
      else
        var conversations := SortByRecency(Collapse(data.value));
        SortedCollapseProperties(data.value);
        s.(totalPages := TotalPagesAfter(s.totalPages, count), conversations := conversations, loading := false)
  }

  /** The realtime row fields the list uses. */
  datatype ChangeRow = ChangeRow(senderId: string, content: string, createdAt: int)

  /** `prev.findIndex(c => c.sender_id === id)`. */
  function FindIndex(cs: seq<Conversation>, id: string): (i: int)
    ensures -1 <= i < |cs|
    ensures 0 <= i ==> cs[i].senderId == id && forall j :: 0 <= j < i ==> cs[j].senderId != id
    ensures i == -1 <==> id !in SenderIds(cs)
  {
    if cs == [] then -1
    else if cs[0].senderId == id then 0
    else
      var k := FindIndex(cs[1..], id);
      SenderIdsCons(cs);
      if k == -1 then -1 else k + 1
  }

  /** An existing entry after one more message from its sender arrived. */
  function Bump(c: Conversation, row: ChangeRow): (b: Conversation)
    ensures b.senderId == c.senderId && b.createdAt == c.createdAt && b.userInfo == c.userInfo
    ensures b.lastMessage == row.content && b.lastMessageTimestamp == row.createdAt
    ensures b.unreadCount == c.unreadCount + 1
  {
    c.(lastMessage := row.content, lastMessageTimestamp := row.createdAt, unreadCount := c.unreadCount + 1)
  }

  /** The INSERT updater: bump an existing sender's entry and re-sort, or open a
      new entry at the top on the first page. `profile` is the looked-up profile. */
  lemma SenderIdsCons(cs: seq<Conversation>)
    requires cs != []
    ensures SenderIds(cs) == SenderIds(cs[1..]) + {cs[0].senderId}
  {
    forall y | y in SenderIds(cs) ensures y in SenderIds(cs[1..]) + {cs[0].senderId} {
      var i :| 0 <= i < |cs| && cs[i].senderId == y;
      if i > 0 {
        assert cs[1..][i - 1] == cs[i];
      }
    }
    forall y | y in SenderIds(cs[1..]) ensures y in SenderIds(cs) {
      var i :| 0 <= i < |cs[1..]| && cs[1..][i].senderId == y;
      assert cs[i + 1] == cs[1..][i];
    }
  }

  function ApplyInsert(prev: seq<Conversation>, row: ChangeRow, profile: Option<UserInfo>, currentPage: int): (r: seq<Conversation>)
    ensures row.senderId in SenderIds(prev) ==> |r| == |prev|
    ensures row.senderId !in SenderIds(prev) && currentPage == 1 ==> |r| == |prev| + 1 && r[1..] == prev
    ensures row.senderId !in SenderIds(prev) && currentPage != 1 ==> r == prev
  {
    var idx := FindIndex(prev, row.senderId);
    if idx >= 0 then SortByRecency(prev[idx := Bump(prev[idx], row)])
    else if currentPage == 1 then [Opened(row.senderId, row.content, row.createdAt, profile, 1)] + prev
    else prev
  }

  /** Replacing an entry by one with the same sender keeps the senders. */
  lemma ReplaceKeepsSenders(cs: seq<Conversation>, i: int, x: Conversation)
    requires 0 <= i < |cs| && x.senderId == cs[i].senderId
    ensures SenderIds(cs[i := x]) == SenderIds(cs)
    ensures UniqueSenders(cs) ==> UniqueSenders(cs[i := x])
    ensures multiset(cs[i := x]) == multiset(cs) - multiset{cs[i]} + multiset{x}
  {
    var r := cs[i := x];
    assert cs == cs[..i] + [cs[i]] + cs[i + 1..];
    assert r == cs[..i] + [x] + cs[i + 1..];
    forall y | y in SenderIds(cs) ensures y in SenderIds(r) {
      var d :| d in cs && d.senderId == y;
      var j :| 0 <= j < |cs| && cs[j] == d;
      assert r[j] in r;
    }
    forall y | y in SenderIds(r) ensures y in SenderIds(cs) {
      var d :| d in r && d.senderId == y;
      var j :| 0 <= j < |r| && r[j] == d;
      assert cs[j] in cs;
    }
  }

  /** An INSERT for a known sender keeps the length and the senders, bumps that
      sender's entry (created_at kept, one more unread) and leaves the list newest first. */
  lemma InsertForKnownSender(prev: seq<Conversation>, row: ChangeRow, profile: Option<UserInfo>, currentPage: int)
    requires row.senderId in SenderIds(prev)
    ensures var r := ApplyInsert(prev, row, profile, currentPage);
      var c := prev[FindIndex(prev, row.senderId)];
      |r| == |prev| &&
      NewestFirst(r) &&
      SenderIds(r) == SenderIds(prev) &&
      (UniqueSenders(prev) ==> UniqueSenders(r)) &&
      Bump(c, row) in r &&
      multiset(r) == multiset(prev) - multiset{c} + multiset{Bump(c, row)}
  {
    var idx := FindIndex(prev, row.senderId);
    var c := prev[idx];
    var updated := prev[idx := Bump(c, row)];
    var r := ApplyInsert(prev, row, profile, currentPage);
    assert r == SortByRecency(updated);
    ReplaceKeepsSenders(prev, idx, Bump(c, row));
    SortIsNewestFirst(updated);
    SortKeepsSenders(updated);
    assert Bump(c, row) in updated by {
      assert updated[idx] == Bump(c, row);
    }
    assert multiset(r) == multiset(updated);
  }

  /** An INSERT for an unknown sender on page 1 puts one new entry with one unread at the top. */
  lemma InsertForNewSender(prev: seq<Conversation>, row: ChangeRow, profile: Option<UserInfo>)
    requires row.senderId !in SenderIds(prev)
    ensures var r := ApplyInsert(prev, row, profile, 1);
      |r| == |prev| + 1 && r[1..] == prev &&
      r[0] == Opened(row.senderId, row.content, row.createdAt, profile, 1) &&
      SenderIds(r) == SenderIds(prev) + {row.senderId} &&
      (UniqueSenders(prev) ==> UniqueSenders(r))
  {
    var r := ApplyInsert(prev, row, profile, 1);
    assert r == [r[0]] + prev;
    if UniqueSenders(prev) {
      forall i, j | 0 <= i < j < |r| ensures r[i].senderId != r[j].senderId {
        if i == 0 {
          assert r[j] == prev[j - 1];
          assert prev[j - 1] in prev;
        } else {
          assert r[i] == prev[i - 1] && r[j] == prev[j - 1];
        }
      }
    }
  }

  /** Off the first page, an INSERT for an unknown sender changes nothing. */
  lemma InsertForNewSenderOffFirstPage(prev: seq<Conversation>, row: ChangeRow, profile: Option<UserInfo>, currentPage: int)
    requires row.senderId !in SenderIds(prev) && currentPage != 1
    ensures ApplyInsert(prev, row, profile, currentPage) == prev
  {
  }

  /** A new sender's message that is at least as recent as every entry keeps the list newest first. */
  lemma InsertNewestKeepsOrder(prev: seq<Conversation>, row: ChangeRow, profile: Option<UserInfo>, currentPage: int)
    requires NewestFirst(prev) && NoneNewerThan(prev, row.createdAt)
    ensures NewestFirst(ApplyInsert(prev, row, profile, currentPage))
  {
    if row.senderId in SenderIds(prev) {
      InsertForKnownSender(prev, row, profile, currentPage);
    } else if currentPage == 1 {
      ConsNewestFirst(Opened(row.senderId, row.content, row.createdAt, profile, 1), prev);
    }
  }

  /** A new visitor writes twice while page 1 is shown: one entry, at the top,
      with the second message and two unread. */
  lemma NewVisitorWritesTwice(prev: seq<Conversation>, m1: ChangeRow, m2: ChangeRow, p1: Option<UserInfo>, p2: Option<UserInfo>)
    requires UniqueSenders(prev) && NewestFirst(prev)
    requires m1.senderId !in SenderIds(prev) && m2.senderId == m1.senderId
    requires NoneNewerThan(prev, m1.createdAt) && m1.createdAt <= m2.createdAt
    ensures var r := ApplyInsert(ApplyInsert(prev, m1, p1, 1), m2, p2, 1);
      |r| == |prev| + 1 && UniqueSenders(r) &&
      r[0].senderId == m1.senderId && r[0].lastMessage == m2.content && r[0].unreadCount == 2
  {
    var r1 := ApplyInsert(prev, m1, p1, 1);
    InsertForNewSender(prev, m1, p1);
    assert FindIndex(r1, m1.senderId) == 0;
    var updated := r1[0 := Bump(r1[0], m2)];
    assert updated == [Bump(r1[0], m2)] + prev;
    ConsNewestFirst(Bump(r1[0], m2), prev);
    SortOfSortedIsIdentity(updated);
    InsertForKnownSender(r1, m2, p2, 1);
  }

  /** The UPDATE updater: patch the matching sender's last message in place. */
  function ApplyUpdate(prev: seq<Conversation>, row: ChangeRow): (r: seq<Conversation>)
    ensures |r| == |prev|
    ensures forall i :: 0 <= i < |prev| && i != FindIndex(prev, row.senderId) ==> r[i] == prev[i]
    ensures forall i :: 0 <= i < |prev| ==> r[i].senderId == prev[i].senderId && r[i].unreadCount == prev[i].unreadCount
    ensures forall i :: 0 <= i < |prev| ==> r[i].createdAt == prev[i].createdAt && r[i].userInfo == prev[i].userInfo
    ensures row.senderId in SenderIds(prev) ==>
      var i := FindIndex(prev, row.senderId);
      r[i].lastMessage == row.content && r[i].lastMessageTimestamp == row.createdAt
    ensures row.senderId !in SenderIds(prev) ==> r == prev
  {
    var idx := FindIndex(prev, row.senderId);
    if idx >= 0 then
      prev[idx := prev[idx].(lastMessage := row.content, lastMessageTimestamp := row.createdAt)]
    else prev
  }

  /** `markConversationAsRead`: zero the unread count of the matching sender only. */
  function MarkRead(prev: seq<Conversation>, senderId: string): (r: seq<Conversation>)
    ensures |r| == |prev|
    ensures forall i :: 0 <= i < |prev| && prev[i].senderId != senderId ==> r[i] == prev[i]
    ensures forall i :: 0 <= i < |prev| && prev[i].senderId == senderId ==>
      r[i] == prev[i].(unreadCount := 0)
  {
    seq(|prev|, i requires 0 <= i < |prev| =>
      if prev[i].senderId == senderId then prev[i].(unreadCount := 0) else prev[i])
  }

  lemma MarkReadIdempotent(prev: seq<Conversation>, senderId: string)
    ensures MarkRead(MarkRead(prev, senderId), senderId) == MarkRead(prev, senderId)
    ensures SenderIds(MarkRead(prev, senderId)) == SenderIds(prev)
    ensures forall c :: c in MarkRead(prev, senderId) && c.senderId == senderId ==> c.unreadCount == 0
  {
    var r := MarkRead(prev, senderId);
    forall x ensures x in SenderIds(r) <==> x in SenderIds(prev) {
      if x in SenderIds(prev) {
        var d :| d in prev && d.senderId == x;
        var j :| 0 <= j < |prev| && prev[j] == d;
        assert r[j] in r;
      }
      if x in SenderIds(r) {
        var d :| d in r && d.senderId == x;
        var j :| 0 <= j < |r| && r[j] == d;
        assert prev[j] in prev;
      }
    }
  }

  /** A reconnect the subscribe callback has scheduled, `delayMs` from now. */
  datatype Reconnect = NoReconnect | ReconnectAfter(delayMs: int)

  function ConnectionErrors(errors: seq<ConversationError>): (n: nat)
    ensures n <= |errors|
  {
    if errors == [] then 0
    else ConnectionErrors(errors[..|errors| - 1]) + (if errors[|errors| - 1].kind == ConnectionError then 1 else 0)
  }

  /** The subscribe callback: connected, or disconnected with a reconnect scheduled, or connecting. */
  function OnChannelStatus(s: ListState, status: ChannelState): (r: (ListState, Reconnect))
    ensures r.0 == s.(connectionStatus := r.0.connectionStatus)
    ensures status == Subscribed ==> r.0.connectionStatus == Connected && r.1 == NoReconnect
    ensures status == Closed || status == ChannelError ==>
      r.0.connectionStatus == Disconnected &&
      r.1 == ReconnectAfter(ReconnectDelay(ConnectionErrors(s.errors))) &&
      1000 <= r.1.delayMs <= 10000
    ensures status == TimedOut ==> r.0.connectionStatus == Connecting && r.1 == NoReconnect
  {
    match status
    case Subscribed => (s.(connectionStatus := Connected), NoReconnect)
    case Closed | ChannelError =>
      (s.(connectionStatus := Disconnected), ReconnectAfter(ReconnectDelay(ConnectionErrors(s.errors))))
    case TimedOut => (s.(connectionStatus := Connecting), NoReconnect)
  }

  /** The scheduled reconnect fires: re-subscribe and show connecting. */
  function FireReconnect(s: ListState): (t: ListState)
    ensures t == s.(connectionStatus := Connecting)
  {
    s.(connectionStatus := Connecting)
  }

  /** What the INSERT handler's profile lookup produced. */
  datatype ProfileLookup = LookupThrew | Found(profile: Option<UserInfo>)

  /** Everything that drives the hook's state. */
  datatype Event =
    | FetchAnswered(result: PageResult)
    | Inserted(row: ChangeRow, lookup: ProfileLookup)
    | Updated(row: ChangeRow)
    | Read(senderId: string)
    | StatusReported(status: ChannelState)
    | ReconnectFired
    | PageSelected(page: int)

  /** One event. The error log only ever grows, by at most one entry, and only
      a page selection moves the page. */
  function Step(s: ListState, e: Event): (t: ListState)
    ensures |s.errors| <= |t.errors| <= |s.errors| + 1 && t.errors[..|s.errors|] == s.errors
    ensures !e.PageSelected? ==> t.currentPage == s.currentPage
    ensures e.PageSelected? ==> t.currentPage == e.page && t.loading
  {
    match e
    case FetchAnswered(result) => ApplyFetch(s, result)
    case Inserted(row, lookup) =>
      (match lookup
       case LookupThrew =>
         s.(errors := s.errors + [ConversationError(UpdateError, "Error handling real-time message update")])
       case Found(profile) =>
         s.(conversations := ApplyInsert(s.conversations, row, profile, s.currentPage)))
    case Updated(row) => s.(conversations := ApplyUpdate(s.conversations, row))
    case Read(senderId) => s.(conversations := MarkRead(s.conversations, senderId))
    case StatusReported(status) => OnChannelStatus(s, status).0
    case ReconnectFired => FireReconnect(s)
    case PageSelected(page) => s.(currentPage := page, loading := true)
  }

  /** A run of events: the error log keeps its earlier entries and gains at most one per event. */
  function Run(s: ListState, events: seq<Event>): (t: ListState)
    ensures |s.errors| <= |t.errors| <= |s.errors| + |events| && t.errors[..|s.errors|] == s.errors
    decreases |events|
  {
    if events == [] then s
    else
      var next := Step(s, events[0]);
      var t := Run(next, events[1..]);
      assert t.errors[..|s.errors|] == t.errors[..|next.errors|][..|s.errors|];
      t
  }

  /** As written, no transition ever records a `'connection'` error ... */
  lemma {:induction false} NoConnectionErrorIsEverRecorded(s: ListState, events: seq<Event>)
    requires ConnectionErrors(s.errors) == 0
    ensures ConnectionErrors(Run(s, events).errors) == 0
    decreases |events|
  {
    if events != [] {
      StepLogsNoConnectionError(s, events[0]);
      NoConnectionErrorIsEverRecorded(Step(s, events[0]), events[1..]);
    }
  }

  /** A single event either leaves the error log alone or appends a fetch or update error. */
  lemma StepLogsNoConnectionError(s: ListState, e: Event)
    ensures ConnectionErrors(Step(s, e).errors) == ConnectionErrors(s.errors)
  {
    var t := Step(s, e);
    if t.errors != s.errors {
      assert e.FetchAnswered? || e.Inserted?;
      assert |t.errors| == |s.errors| + 1 && t.errors[|s.errors|].kind != ConnectionError;
      assert t.errors[..|t.errors| - 1] == s.errors;
    }
  }

  /** ... so every reconnect the list schedules waits the base 1000 ms: the backoff never grows. */
  lemma BackoffNeverGrows(events: seq<Event>, status: ChannelState)
    requires status == Closed || status == ChannelError
    ensures OnChannelStatus(Run(InitialState(), events), status).1 == ReconnectAfter(1000)
  {
    NoConnectionErrorIsEverRecorded(InitialState(), events);
  }

  /** The error log with one more `'connection'` entry. */
  function LogDisconnect(errors: seq<ConversationError>): (r: seq<ConversationError>)
    ensures ConnectionErrors(r) == ConnectionErrors(errors) + 1
    ensures |r| == |errors| + 1 && r[..|errors|] == errors
  {
    var r := errors + [ConversationError(ConnectionError, "Realtime channel disconnected")];
    assert r[..|r| - 1] == errors;
    r
  }

  /** Corrected callback: a disconnect is logged as a `'connection'` error, so the
      delay grows with the number of disconnects seen. */
  function OnChannelStatusLogged(s: ListState, status: ChannelState): (r: (ListState, Reconnect))
    ensures status == Closed || status == ChannelError ==>
      r.0 == s.(connectionStatus := Disconnected, errors := LogDisconnect(s.errors)) &&
      r.1 == ReconnectAfter(ReconnectDelay(ConnectionErrors(s.errors)))
    ensures !(status == Closed || status == ChannelError) ==> r == OnChannelStatus(s, status)
  {
    if status == Closed || status == ChannelError then
      (s.(connectionStatus := Disconnected, errors := LogDisconnect(s.errors)),
       ReconnectAfter(ReconnectDelay(ConnectionErrors(s.errors))))
    else OnChannelStatus(s, status)
  }

  /** The error log after `n` consecutive disconnects under the corrected callback. */
  function LogAfterDisconnects(errors: seq<ConversationError>, n: nat): seq<ConversationError>
    decreases n
  {
    if n == 0 then errors else LogDisconnect(LogAfterDisconnects(errors, n - 1))
  }

  /** Under the corrected callback the disconnect that follows `n` earlier ones
      waits `ReconnectDelay(n)`: 1000, 2000, 4000, 8000, then 10000 ms. */
  lemma {:induction false} LoggedBackoffGrows(s: ListState, n: nat)
    requires ConnectionErrors(s.errors) == 0
    ensures ConnectionErrors(LogAfterDisconnects(s.errors, n)) == n
    ensures OnChannelStatusLogged(s.(errors := LogAfterDisconnects(s.errors, n)), ChannelError).1 ==
      ReconnectAfter(ReconnectDelay(n))
  {
    if n > 0 {
      LoggedBackoffGrows(s, n - 1);
    }
  }
}
