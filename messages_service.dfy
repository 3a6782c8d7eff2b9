/** `messagesService`: an unfiltered load of every message, a send on behalf of
    a signed-in user, and a subscription that formats inserted rows. */
module MessagesService {
  import opened Types
  import opened MessageFormatting
  import opened RealtimeChannels
  import opened MessagesHook

  const QueryErrorMessage: string := "query error"
  const InsertErrorMessage: string := "insert error"

  /** `fetchMessages`: rejects on a query error, else every row formatted, in order. */
  function FetchMessages(answer: RowsResult): (r: Outcome<seq<Message>>)
    ensures answer == QueryFailed ==> r == Rejected(QueryErrorMessage)
    ensures answer == Rows(None) ==> r == Resolved([])
    ensures answer.Rows? ==> r.Resolved? && |r.value| == |RowsOf(answer.data)|
    ensures answer.Rows? ==> forall i :: 0 <= i < |r.value| ==>
      IsFormatted(r.value[i]) && r.value[i].(sender := RowsOf(answer.data)[i].sender, timestamp := RowsOf(answer.data)[i].timestamp) == RowsOf(answer.data)[i]
  {
    match answer
    case QueryFailed => Rejected(QueryErrorMessage)
    case Rows(data) => Resolved(FormatAll(RowsOf(data)))
  }

  /** The service and the visitor hook format a loaded list alike. */
  lemma FetchAgreesWithHook(data: Option<seq<Message>>)
    ensures FetchMessages(Rows(data)) == Resolved(FormatAll(RowsOf(data)))
  {
  }

  /** `sendMessage`'s payload: the user writes as themselves, to nobody in
      particular; with `isAdmin` false it is the signed-in visitor's payload. */
  function SendPayload(content: string, userId: string, isAdmin: bool): (p: NewRow)
    ensures p.content == content && p.senderId == Some(userId) && p.isAdmin == isAdmin
    ensures p.recipientId == None && p.sessionId == None
  {
    NewRow(content, Some(userId), isAdmin, None, None)
  }

  /** With the default flag and a signed-in user the service writes the row the hook writes. */
  lemma SendAgreesWithHook(content: string, userId: string, sessionId: Option<string>)
    requires userId != ""
    ensures SendPayload(content, userId, false) == MessagesHook.SendPayload(content, Some(userId), sessionId)
  {
  }

  /** The send resolves with the insert's data or rejects with its error. */
  function SendResult<T>(inserted: Outcome<T>): (r: Outcome<T>)
    ensures inserted.Rejected? ==> r == Rejected(InsertErrorMessage)
    ensures inserted.Resolved? ==> r == inserted
  {
    match inserted
    case Rejected(_) => Rejected(InsertErrorMessage)
    case Resolved(v) => inserted
  }

  /** What the subscription's INSERT handler passes to the callback: the new row
      with `sender` from `is_admin` and `timestamp` from `created_at`. */
  function SubscribedRow(row: Message): (m: Message)
    ensures m.sender == Some(if row.isAdmin then Admin else User)
    ensures m.timestamp == Some(row.createdAt)
    ensures m.(sender := row.sender, timestamp := row.timestamp) == row
  {
    row.(sender := Some(if row.isAdmin then Admin else User), timestamp := Some(row.createdAt))
  }

  /** The handler's inline spread is `formatMessage`, so every subscribed row
      reaches the callback formatted, exactly as a loaded row does. */
  lemma SubscribedRowIsFormatted(row: Message)
    ensures SubscribedRow(row) == FormatMessage(row)
    ensures IsFormatted(SubscribedRow(row))
  {
    assert SenderOf(row.isAdmin) == if row.isAdmin then Admin else User;
  }

  /** A row loaded by `fetchMessages` and the same row pushed to a subscriber look alike. */
  lemma SubscribedMatchesFetched(rows: seq<Message>, i: int)
    requires 0 <= i < |rows|
    ensures FetchMessages(Rows(Some(rows))).value[i] == SubscribedRow(rows[i])
  {
    SubscribedRowIsFormatted(rows[i]);
  }

  /** `subscribeToMessages` opens a channel; calling the returned function removes it. */
  method SubscribeToMessages(client: RealtimeClient) returns (channel: nat)
    requires client.Valid()
    modifies client
    ensures client.Valid()
    ensures channel !in old(client.live) && client.live == old(client.live) + {channel}
  {
    channel := client.Open();
  }

  method Unsubscribe(client: RealtimeClient, channel: nat)
    requires client.Valid()
    modifies client
    ensures client.Valid()
    ensures client.live == old(client.live) - {channel}
  {
    client.Remove(channel);
  }

  /** Subscribing then releasing leaves the client's open channels as they were. */
  method SubscribeThenRelease(client: RealtimeClient)
    requires client.Valid()
    modifies client
    ensures client.Valid() && client.live == old(client.live)
  {
    var channel := SubscribeToMessages(client);
    Unsubscribe(client, channel);
  }
}
