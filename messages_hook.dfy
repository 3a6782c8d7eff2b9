/** `useMessages`: the visitor's message list.  It is loaded once by a query
    chosen from the viewer's identity, grown by the realtime listener, and
    written to by `sendMessage`. */
module MessagesHook {
  import opened Types
  import opened MessageFormatting
  import opened RealtimeMessages

  const FetchFailure: string := "Error fetching messages"

  /** The row `sendMessage` inserts: the visitor writes as `userId || sessionId`,
      never as admin and to nobody in particular; `session_id` is set only for an
      anonymous visitor. */
  function SendPayload(content: string, userId: Option<string>, sessionId: Option<string>): (p: NewRow)
    ensures p.content == content && !p.isAdmin && p.recipientId == None
    ensures Truthy(userId) ==> p.senderId == userId && p.sessionId == None
    ensures !Truthy(userId) ==> p.senderId == sessionId && p.sessionId == sessionId
  {
    NewRow(content, OrElse(userId, sessionId), false, None, if Truthy(userId) then None else sessionId)
  }

  /** How the insert answered. */
  datatype InsertOutcome = Inserted | InsertFailed | InsertThrew

  /** The value `sendMessage` resolves with. */
  function SendSucceeded(outcome: InsertOutcome): (ok: bool)
    ensures ok <==> outcome == Inserted
  {
    match outcome
    case Inserted => true
    case InsertFailed => false
    case InsertThrew => false
  }

  /** The query the initial load runs: none without an identity, else filtered by
      `userId` when it is set and by `sessionId` otherwise. */
  datatype FetchPlan = SkipFetch | ByUser(userId: string) | BySession(sessionId: string)

  function PlanFetch(userId: Option<string>, sessionId: Option<string>): (p: FetchPlan)
    ensures Truthy(userId) ==> p == ByUser(userId.value)
    ensures !Truthy(userId) && Truthy(sessionId) ==> p == BySession(sessionId.value)
    ensures p == SkipFetch <==> !HasIdentity(userId, sessionId)
  {
    if !Truthy(sessionId) && !Truthy(userId) then SkipFetch
    else if Truthy(userId) then ByUser(userId.value)
    else BySession(sessionId.value)
  }

  /** The rows a plan's filter selects. */
  predicate Selects(p: FetchPlan, row: Message): (b: bool)
    ensures p == SkipFetch ==> !b
    ensures p.ByUser? && p.userId != "" ==> (b <==> IsRelevant(Some(p.userId), None, row))
    ensures p.BySession? && p.sessionId != "" && b ==> IsRelevant(None, Some(p.sessionId), row)
  {
    match p
    case SkipFetch => false
    case ByUser(u) => row.senderId == Some(u) || (row.isAdmin && row.recipientId == Some(u))
    case BySession(s) => row.sessionId == Some(s)
  }

  /** For a signed-in viewer the query and the realtime check select the same rows. */
  lemma UserFetchMatchesRealtime(userId: Option<string>, sessionId: Option<string>, row: Message)
    requires Truthy(userId)
    ensures Selects(PlanFetch(userId, sessionId), row) <==> IsRelevant(userId, sessionId, row)
  {
  }

  /** For an anonymous viewer every fetched row is relevant, but an admin message
      addressed to the session by `recipient_id` alone is relevant and never fetched. */
  lemma SessionFetchIsNarrower(sessionId: Option<string>, row: Message)
    requires Truthy(sessionId)
    ensures Selects(PlanFetch(None, sessionId), row) ==> IsRelevant(None, sessionId, row)
    ensures row.isAdmin && row.recipientId == sessionId && row.sessionId == None ==>
      IsRelevant(None, sessionId, row) && !Selects(PlanFetch(None, sessionId), row)
  {
  }

  /** A visitor's own message is fetched and is delivered back by the listener. */
  lemma OwnMessageComesBack(content: string, userId: Option<string>, sessionId: Option<string>, id: string, createdAt: int)
    requires HasIdentity(userId, sessionId)
    ensures var row := Stored(SendPayload(content, userId, sessionId), id, createdAt);
      Selects(PlanFetch(userId, sessionId), row) && IsRelevant(userId, sessionId, row)
  {
  }

  /** As written, an anonymous visitor's own message plays the sound when it comes back. */
  lemma OwnMessageChimesForAnonymous(content: string, sessionId: Option<string>, id: string, createdAt: int)
    requires Truthy(sessionId)
    ensures HandleNewMessage(None, sessionId, Stored(SendPayload(content, None, sessionId), id, createdAt)).playSound
  {
    AnonymousHearsOwnEcho(sessionId.value, Stored(SendPayload(content, None, sessionId), id, createdAt));
  }

  /** With the intended sound rule no visitor hears their own message. */
  lemma OwnMessageIsSilent(content: string, userId: Option<string>, sessionId: Option<string>, id: string, createdAt: int)
    ensures !PlaysSound(userId, sessionId, Stored(SendPayload(content, userId, sessionId), id, createdAt))
  {
  }

  /** The hook's state fields. */
  class MessagesState {
    var messages: seq<Message>
    var isLoading: bool
    var error: Option<string>

    constructor ()
      ensures messages == [] && isLoading && error == None
    {
      messages := [];
      isLoading := true;
      error := None;
    }

    /** The initial load, given the answer of the query it runs. */
    method InitialFetch(userId: Option<string>, sessionId: Option<string>, answer: RowsResult)
      modifies this
      ensures !isLoading
      ensures PlanFetch(userId, sessionId) == SkipFetch ==> messages == old(messages) && error == old(error)
      ensures PlanFetch(userId, sessionId) != SkipFetch && answer == QueryFailed ==>
        messages == old(messages) && error == Some(FetchFailure)
      ensures PlanFetch(userId, sessionId) != SkipFetch && answer.Rows? ==>
        messages == FormatAll(RowsOf(answer.data)) && error == None
    {
      if PlanFetch(userId, sessionId) == SkipFetch {
        isLoading := false;
        return;
      }
      error := None;
      match answer {
        case QueryFailed =>
          error := Some(FetchFailure);
        case Rows(data) =>
          messages := FormatAll(RowsOf(data));
      }
      isLoading := false;
    }

    /** The realtime updater: the message is appended, with no de-duplication. */
    method Append(m: Message)
      modifies this
      ensures messages == old(messages) + [m]
      ensures isLoading == old(isLoading) && error == old(error)
    {
      messages := messages + [m];
    }

    /** An inserted row as the hook sees it. Without an identity no listener is
        registered, so nothing reaches the list; otherwise a row of the viewer's is
        appended, formatted. */
    method OnInsertedRow(userId: Option<string>, sessionId: Option<string>, row: Message) returns (playSound: bool)
      modifies this
      ensures !HasIdentity(userId, sessionId) ==> messages == old(messages) && !playSound
      ensures HasIdentity(userId, sessionId) && IsRelevant(userId, sessionId, row) ==>
        messages == old(messages) + [FormatMessage(row)]
      ensures HasIdentity(userId, sessionId) && !IsRelevant(userId, sessionId, row) ==> messages == old(messages)
      ensures HasIdentity(userId, sessionId) ==> playSound == HandleNewMessage(userId, sessionId, row).playSound
      ensures isLoading == old(isLoading) && error == old(error)
    {
      if !HasIdentity(userId, sessionId) {
        return false;
      }
      var d := HandleNewMessage(userId, sessionId, row);
      if d.delivered != [] {
        Append(d.delivered[0]);
      }
      playSound := d.playSound;
    }
  }
}
