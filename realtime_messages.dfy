/** `useRealtimeMessages`: every row inserted into `messages` reaches the
    hook, which keeps those that belong to the current viewer, formats
    them and hands them on, with a sound for messages from someone else. */
module RealtimeMessages {
  import opened Types
  import opened MessageFormatting

  /** `isRelevant`: an authenticated viewer is matched by `sender_id` or as the
      recipient of an admin message; an anonymous viewer by `session_id` or as
      the recipient of an admin message. */
  predicate IsRelevant(userId: Option<string>, sessionId: Option<string>, row: Message): (b: bool)
    ensures Truthy(userId) && row.senderId == userId ==> b
    ensures !Truthy(userId) && row.sessionId == sessionId ==> b
    ensures row.isAdmin && row.recipientId == OrElse(userId, sessionId) ==> b
    ensures b && !row.isAdmin ==> if Truthy(userId) then row.senderId == userId else row.sessionId == sessionId
    ensures b && row.isAdmin ==>
      (if Truthy(userId) then row.senderId == userId else row.sessionId == sessionId) ||
      row.recipientId == OrElse(userId, sessionId)
  {
    if Truthy(userId) then row.senderId == userId || (row.isAdmin && row.recipientId == userId)
    else row.sessionId == sessionId || (row.isAdmin && row.recipientId == sessionId)
  }

  /** What `handleNewMessage` does with one row: the messages passed to
      `onNewMessage` (none or one) and whether the sound plays. */
  datatype Dispatch = Dispatch(delivered: seq<Message>, playSound: bool)

  function HandleNewMessage(userId: Option<string>, sessionId: Option<string>, row: Message): (d: Dispatch)
    ensures !IsRelevant(userId, sessionId, row) ==> d == Dispatch([], false)
    ensures IsRelevant(userId, sessionId, row) ==> d.delivered == [FormatMessage(row)]
    ensures d.playSound <==> IsRelevant(userId, sessionId, row) && row.senderId != userId
    ensures forall m :: m in d.delivered ==> IsFormatted(m)
  {
    if !IsRelevant(userId, sessionId, row) then Dispatch([], false)
    else Dispatch([FormatMessage(row)], row.senderId != userId)
  }

  /** The messages handed on for a stream of inserted rows, in arrival order. */
  function DeliverAll(userId: Option<string>, sessionId: Option<string>, rows: seq<Message>): (r: seq<Message>)
    ensures |r| <= |rows|
    ensures forall m :: m in r ==> IsFormatted(m)
  {
    if rows == [] then []
    else DeliverAll(userId, sessionId, rows[..|rows| - 1]) + HandleNewMessage(userId, sessionId, rows[|rows| - 1]).delivered
  }

  /** Exactly the relevant rows come through: everything handed on is a relevant
      row, formatted, every relevant row is handed on, and no more messages come
      out than rows went in. */
  lemma {:induction false} DeliveredAreTheRelevantRows(userId: Option<string>, sessionId: Option<string>, rows: seq<Message>)
    ensures |DeliverAll(userId, sessionId, rows)| <= |rows|
    ensures forall m :: m in DeliverAll(userId, sessionId, rows) ==>
      IsFormatted(m) && exists i :: 0 <= i < |rows| && IsRelevant(userId, sessionId, rows[i]) && m == FormatMessage(rows[i])
    ensures forall i :: 0 <= i < |rows| && IsRelevant(userId, sessionId, rows[i]) ==>
      FormatMessage(rows[i]) in DeliverAll(userId, sessionId, rows)
  {
    if rows != [] {
      var init := rows[..|rows| - 1];
      var last := rows[|rows| - 1];
      DeliveredAreTheRelevantRows(userId, sessionId, init);
      var d := HandleNewMessage(userId, sessionId, last);
      forall m | m in DeliverAll(userId, sessionId, rows)
        ensures IsFormatted(m) && exists i :: 0 <= i < |rows| && IsRelevant(userId, sessionId, rows[i]) && m == FormatMessage(rows[i])
      {
        if m in DeliverAll(userId, sessionId, init) {
          var i :| 0 <= i < |init| && IsRelevant(userId, sessionId, init[i]) && m == FormatMessage(init[i]);
          assert rows[i] == init[i];
        } else {
          assert m in d.delivered;
          assert rows[|rows| - 1] == last;
        }
      }
      forall i | 0 <= i < |rows| && IsRelevant(userId, sessionId, rows[i])
        ensures FormatMessage(rows[i]) in DeliverAll(userId, sessionId, rows)
      {
        if i < |init| {
          assert rows[i] == init[i];
        }
      }
    }
  }

  /** An authenticated viewer never hears their own messages. */
  lemma OwnMessagesAreSilentWhenSignedIn(userId: Option<string>, sessionId: Option<string>, row: Message)
    requires Truthy(userId) && row.senderId == userId
    ensures IsRelevant(userId, sessionId, row)
    ensures HandleNewMessage(userId, sessionId, row) == Dispatch([FormatMessage(row)], false)
  {
  }

  /** As written, the sound test compares `sender_id` with `userId`, which is
      null for an anonymous viewer: a visitor's own message, echoed back by the
      channel, plays the incoming-message sound. */
  lemma AnonymousHearsOwnEcho(s: string, row: Message)
    requires s != "" && row.senderId == Some(s) && row.sessionId == Some(s)
    ensures HandleNewMessage(None, Some(s), row).playSound
  {
  }

  /** The evidently intended sound rule: a relevant message plays the sound unless
      it was sent under the viewer's own identity, `userId || sessionId`. */
  function PlaysSound(userId: Option<string>, sessionId: Option<string>, row: Message): (play: bool)
    ensures play ==> IsRelevant(userId, sessionId, row)
    ensures play ==> row.senderId != OrElse(userId, sessionId)
    ensures Truthy(userId) ==> (play <==> HandleNewMessage(userId, sessionId, row).playSound)
  {
    IsRelevant(userId, sessionId, row) && row.senderId != OrElse(userId, sessionId)
  }
}
