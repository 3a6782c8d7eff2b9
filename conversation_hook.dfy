/** `useConversation`: the admin's view of one visitor's conversation, keyed by
    the visitor's `sender_id`. */
module ConversationHook {
  import opened Types
  import opened MessageFormatting
  import opened RealtimeMessages
  import opened MessagesHook

  const ResubscribeDelayMs: nat := 5000

  /** The record the hook keeps for a row: identity, text, author and time, with
      the UI fields derived from `is_admin` and `created_at`. */
  function Project(row: Message): (m: Message)
    ensures m.id == row.id && m.content == row.content && m.senderId == row.senderId
    ensures m.isAdmin == row.isAdmin && m.createdAt == row.createdAt
    ensures m.recipientId == None && m.sessionId == None && m.updatedAt == None && m.messageStatus == None
    ensures IsFormatted(m)
  {
    Message(row.id, row.content, row.senderId, None, None, row.isAdmin, row.createdAt, None, None,
      Some(SenderOf(row.isAdmin)), Some(row.createdAt))
  }

  /** The record the second INSERT listener builds: the same, but always labelled admin. */
  function ProjectAsAdmin(row: Message): (m: Message)
    ensures m.sender == Some(Admin)
    ensures m == Project(row).(sender := Some(Admin))
  {
    Project(row).(sender := Some(Admin))
  }

  /** The projection is `formatMessage` with the fields it does not copy dropped. */
  lemma ProjectIsFormatRestricted(row: Message)
    ensures Project(row) == FormatMessage(row).(recipientId := None, sessionId := None, updatedAt := None, messageStatus := None)
    ensures FormatMessage(Project(row)) == Project(row)
  {
    FormattedIsFixedPoint(Project(row));
  }

  /** On admin rows the two listeners build the same record. */
  lemma AdminLabelAgrees(row: Message)
    ensures ProjectAsAdmin(row) == Project(row) <==> row.isAdmin
  {
    if !row.isAdmin {
      assert Project(row).sender == Some(User);
    }
  }

  /** The initial query's filter: `sender_id` is the visitor, or the row is an
      admin row whose `sender_id` is the visitor. The second disjunct adds
      nothing: the query selects the visitor's `sender_id`. */
  predicate FetchSelects(userId: string, row: Message): (b: bool)
    ensures b <==> row.senderId == Some(userId)
  {
    row.senderId == Some(userId) || (row.isAdmin && row.senderId == Some(userId))
  }

  /** The list after the initial query: replaced by the projected rows when
      there are rows, kept on an error or a null answer. */
  function ApplyFetch(prev: seq<Message>, answer: RowsResult): (r: seq<Message>)
    ensures answer == QueryFailed || answer == Rows(None) ==> r == prev
    ensures answer.Rows? && answer.data.Some? ==>
      |r| == |answer.data.value| && forall i :: 0 <= i < |r| ==> r[i] == Project(answer.data.value[i])
  {
    match answer
    case QueryFailed => prev
    case Rows(None) => prev
    case Rows(Some(rows)) => seq(|rows|, i requires 0 <= i < |rows| => Project(rows[i]))
  }

  /** The INSERT listeners are filtered `sender_id = userId` and (read as both
      conditions) `is_admin = true, sender_id = userId`; every matching row is
      appended by each listener it matches, in registration order. */
  function ApplyInsert(userId: string, prev: seq<Message>, row: Message): (r: seq<Message>)
    ensures |r| >= |prev| && r[..|prev|] == prev
    ensures row.senderId != Some(userId) ==> r == prev
    ensures row.senderId == Some(userId) && !row.isAdmin ==> r == prev + [Project(row)]
  {
    prev
    + (if row.senderId == Some(userId) then [Project(row)] else [])
    + (if row.isAdmin && row.senderId == Some(userId) then [ProjectAsAdmin(row)] else [])
  }

  /** As written, an admin reply is appended twice. */
  lemma AdminReplyAppendedTwice(userId: string, prev: seq<Message>, row: Message)
    requires row.isAdmin && row.senderId == Some(userId)
    ensures ApplyInsert(userId, prev, row) == prev + [Project(row), Project(row)]
  {
    AdminLabelAgrees(row);
  }

  /** The evidently intended INSERT handling: one listener, one record per row. */
  function ApplyInsertOnce(userId: string, prev: seq<Message>, row: Message): (r: seq<Message>)
    ensures |r| >= |prev| && r[..|prev|] == prev
    ensures |r| == |prev| + (if row.senderId == Some(userId) then 1 else 0)
    ensures forall m :: m in r[|prev|..] ==> m == Project(row) && m.sender == Some(SenderOf(row.isAdmin))
  {
    prev + (if row.senderId == Some(userId) then [Project(row)] else [])
  }

  /** The two agree except on admin replies, where the intended one appends once. */
  lemma InsertOnceAgrees(userId: string, prev: seq<Message>, row: Message)
    ensures !row.isAdmin ==> ApplyInsertOnce(userId, prev, row) == ApplyInsert(userId, prev, row)
    ensures row.isAdmin && row.senderId == Some(userId) ==>
      ApplyInsert(userId, prev, row) == ApplyInsertOnce(userId, prev, row) + [Project(row)]
  {
    if row.isAdmin && row.senderId == Some(userId) {
      AdminReplyAppendedTwice(userId, prev, row);
    }
  }

  /** An UPDATE event's new `content` and `updated_at`. */
  datatype Edit = Edit(id: string, content: string, updatedAt: Option<int>)

  /** The UPDATE updater: every record with the edited `id` takes the new content
      and `updated_at`; nothing else changes. */
  function ApplyUpdate(prev: seq<Message>, e: Edit): (r: seq<Message>)
    ensures |r| == |prev|
    ensures forall i :: 0 <= i < |prev| && prev[i].id == e.id ==>
      r[i] == prev[i].(content := e.content, updatedAt := e.updatedAt)
    ensures forall i :: 0 <= i < |prev| && prev[i].id != e.id ==> r[i] == prev[i]
  {
    seq(|prev|, i requires 0 <= i < |prev| =>
      if prev[i].id == e.id then prev[i].(content := e.content, updatedAt := e.updatedAt) else prev[i])
  }

  /** Applying the same edit twice is applying it once, and an edit of an
      unknown id changes nothing. */
  lemma UpdateIdempotent(prev: seq<Message>, e: Edit)
    ensures ApplyUpdate(ApplyUpdate(prev, e), e) == ApplyUpdate(prev, e)
    ensures (forall i :: 0 <= i < |prev| ==> prev[i].id != e.id) ==> ApplyUpdate(prev, e) == prev
  {
    var once := ApplyUpdate(prev, e);
    assert forall i :: 0 <= i < |prev| ==> once[i].id == prev[i].id;
  }

  /** The reply `handleSendMessage` inserts: it carries the visitor's id as
      `sender_id` and sets neither `recipient_id` nor `session_id`. */
  function AdminPayload(content: string, userId: string): (p: NewRow)
    ensures p.content == content && p.isAdmin
    ensures p.senderId == Some(userId) && p.recipientId == None && p.sessionId == None
  {
    NewRow(content, Some(userId), true, None, None)
  }

  /** The reply shows up in the admin's own conversation view. */
  lemma ReplyReachesAdminView(content: string, userId: string, id: string, createdAt: int)
    ensures var row := Stored(AdminPayload(content, userId), id, createdAt);
      FetchSelects(userId, row) && ApplyInsertOnce(userId, [], row) == [Project(row)]
  {
  }

  /** As written, a reply to an anonymous visitor (whose conversation key is the
      session id) is neither delivered by their listener nor selected by their query. */
  lemma ReplyMissesAnonymousVisitor(content: string, s: string, id: string, createdAt: int)
    requires s != ""
    ensures var row := Stored(AdminPayload(content, s), id, createdAt);
      !IsRelevant(None, Some(s), row) && !Selects(PlanFetch(None, Some(s)), row)
      && HandleNewMessage(None, Some(s), row).delivered == []
  {
  }

  /** The evidently intended reply: addressed to the conversation key by `recipient_id`. */
  function AddressedAdminPayload(content: string, userId: string): (p: NewRow)
    ensures p == AdminPayload(content, userId).(recipientId := Some(userId))
  {
    NewRow(content, Some(userId), true, Some(userId), None)
  }

  /** The evidently intended visitor query: the realtime rule, run as a filter. */
  predicate SelectsAddressed(p: FetchPlan, row: Message) {
    match p
    case SkipFetch => false
    case ByUser(u) => Selects(p, row)
    case BySession(s) => row.sessionId == Some(s) || (row.isAdmin && row.recipientId == Some(s))
  }

  /** The intended query selects exactly what the listener accepts, for every viewer. */
  lemma AddressedFetchMatchesRealtime(userId: Option<string>, sessionId: Option<string>, row: Message)
    requires HasIdentity(userId, sessionId)
    ensures SelectsAddressed(PlanFetch(userId, sessionId), row) <==> IsRelevant(userId, sessionId, row)
  {
  }

  /** With both corrections a reply to the conversation a visitor writes into
      (`userId || sessionId`) reaches that visitor live and on reload. */
  lemma AddressedReplyReachesVisitor(content: string, userId: Option<string>, sessionId: Option<string>, id: string, createdAt: int)
    requires HasIdentity(userId, sessionId)
    ensures var key := SendPayload("", userId, sessionId).senderId.value;
      var row := Stored(AddressedAdminPayload(content, key), id, createdAt);
      IsRelevant(userId, sessionId, row) && SelectsAddressed(PlanFetch(userId, sessionId), row)
      && HandleNewMessage(userId, sessionId, row).delivered == [FormatMessage(row)]
  {
  }

  /** The admin view's state fields. */
  class ConversationView {
    const userId: string
    var messages: seq<Message>
    var loading: bool
    var connectionStatus: ConnectionStatus
    /** The delays of the resubscribe timers set and not yet fired, oldest first. */
    var pendingResubscribes: seq<nat>

    /** Every resubscribe timer waits `ResubscribeDelayMs`. */
    ghost predicate Valid()
      reads this
    {
      forall i :: 0 <= i < |pendingResubscribes| ==> pendingResubscribes[i] == ResubscribeDelayMs
    }

    constructor (userId: string)
      ensures Valid()
      ensures this.userId == userId && messages == [] && loading
      ensures connectionStatus == Connecting && pendingResubscribes == []
    {
      this.userId := userId;
      messages := [];
      loading := true;
      connectionStatus := Connecting;
      pendingResubscribes := [];
    }

    method Fetch(answer: RowsResult)
      requires Valid()
      modifies this
      ensures Valid()
      ensures messages == ApplyFetch(old(messages), answer) && !loading
      ensures connectionStatus == old(connectionStatus) && pendingResubscribes == old(pendingResubscribes)
    {
      loading := true;
      messages := ApplyFetch(messages, answer);
      loading := false;
    }

    method OnInsert(row: Message)
      requires Valid()
      modifies this
      ensures Valid()
      ensures messages == ApplyInsert(userId, old(messages), row)
      ensures loading == old(loading) && connectionStatus == old(connectionStatus)
      ensures pendingResubscribes == old(pendingResubscribes)
    {
      if row.senderId == Some(userId) {
        messages := messages + [Project(row)];
      }
      if row.isAdmin && row.senderId == Some(userId) {
        messages := messages + [ProjectAsAdmin(row)];
      }
    }

    /** The UPDATE listener, filtered by `sender_id = userId`. */
    method OnUpdate(row: Message)
      requires Valid()
      modifies this
      ensures Valid()
      ensures row.senderId == Some(userId) ==>
        messages == ApplyUpdate(old(messages), Edit(row.id, row.content, row.updatedAt))
      ensures row.senderId != Some(userId) ==> messages == old(messages)
      ensures loading == old(loading) && connectionStatus == old(connectionStatus)
      ensures pendingResubscribes == old(pendingResubscribes)
    {
      if row.senderId == Some(userId) {
        messages := ApplyUpdate(messages, Edit(row.id, row.content, row.updatedAt));
      }
    }

    /** The subscribe callback: connected, disconnected with a resubscribe in
        `ResubscribeDelayMs`, or connecting. */
    method OnStatus(status: ChannelState)
      requires Valid()
      modifies this
      ensures Valid()
      ensures status == Subscribed ==> connectionStatus == Connected
      ensures status == Closed || status == ChannelError ==> connectionStatus == Disconnected
      ensures status == TimedOut ==> connectionStatus == Connecting
      ensures pendingResubscribes == old(pendingResubscribes) +
        (if status == Closed || status == ChannelError then [ResubscribeDelayMs] else [])
      ensures messages == old(messages) && loading == old(loading)
    {
      if status == Subscribed {
        connectionStatus := Connected;
      } else if status == Closed || status == ChannelError {
        connectionStatus := Disconnected;
        pendingResubscribes := pendingResubscribes + [ResubscribeDelayMs];
      } else {
        connectionStatus := Connecting;
      }
    }

    /** The oldest resubscribe timer fires, `waited` milliseconds after it was set:
        the channel is subscribed again and the view shows connecting. */
    method FireResubscribe() returns (waited: nat)
      requires Valid() && |pendingResubscribes| > 0
      modifies this
      ensures Valid()
      ensures waited == ResubscribeDelayMs
      ensures connectionStatus == Connecting && pendingResubscribes == old(pendingResubscribes)[1..]
      ensures messages == old(messages) && loading == old(loading)
    {
      waited := pendingResubscribes[0];
      pendingResubscribes := pendingResubscribes[1..];
      connectionStatus := Connecting;
    }
  }
}
