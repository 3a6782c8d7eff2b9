/** Shared data model of the chat core: messages, conversations, typing
    presence and the states a realtime channel reports.  Timestamps are
    integers (milliseconds); nullable strings are `Option<string>`. */
module Types {

  datatype Option<+T> = None | Some(value: T)

  /** JavaScript truthiness of a nullable string: present and non-empty. */
  predicate Truthy(s: Option<string>) {
    s.Some? && s.value != ""
  }

  /** The viewer has an identity: the condition under which the realtime and
      typing listeners are installed and the visitor's messages are fetched. */
  predicate HasIdentity(userId: Option<string>, sessionId: Option<string>) {
    Truthy(userId) || Truthy(sessionId)
  }

  /** The value of `a || b` for two nullable strings. */
  function OrElse(a: Option<string>, b: Option<string>): (r: Option<string>)
    ensures Truthy(a) ==> r == a
    ensures !Truthy(a) ==> r == b
  {
    if Truthy(a) then a else b
  }

  function Min(a: int, b: int): int {
    if a <= b then a else b
  }

  /** Who a message is shown as coming from in the UI. */
  datatype Sender = User | Admin

  /** A message record.  A row read from the `messages` table has
      `sender` and `timestamp` absent; a formatted message has them set.
      Fields a projection leaves out are `None`. */
  datatype Message = Message(
    id: string,
    content: string,
    senderId: Option<string>,
    recipientId: Option<string>,
    sessionId: Option<string>,
    isAdmin: bool,
    createdAt: int,
    updatedAt: Option<int>,
    messageStatus: Option<string>,
    sender: Option<Sender>,
    timestamp: Option<int>)

  /** The label a message gets from its `is_admin` flag. */
  function SenderOf(isAdmin: bool): (s: Sender)
    ensures s == Admin <==> isAdmin
  {
    if isAdmin then Admin else User
  }

  datatype UserInfo = UserInfo(username: Option<string>, avatarUrl: Option<string>)

  /** One entry of the admin conversation list, keyed by `senderId`. */
  datatype Conversation = Conversation(
    senderId: string,
    lastMessage: string,
    createdAt: int,
    lastMessageTimestamp: int,
    userInfo: UserInfo,
    unreadCount: nat)

  datatype ConnectionStatus = Connected | Disconnected | Connecting

  /** The states a realtime channel reports to its subscribe callback. */
  datatype ChannelState = Subscribed | TimedOut | Closed | ChannelError

  datatype TypingIndicator = TypingIndicator(
    userId: Option<string>,
    sessionId: Option<string>,
    isTyping: bool,
    lastTyped: int)

  datatype ErrorKind = FetchError | SendError | UpdateError | DeleteError | ConnectionError

  /** An entry of the admin list's error log (its clock timestamp is not modelled). */
  datatype ConversationError = ConversationError(kind: ErrorKind, message: string)

  /** A row handed to `insert` on the `messages` table; columns a payload leaves
      out are `None`, which the table stores as null. */
  datatype NewRow = NewRow(
    content: string,
    senderId: Option<string>,
    isAdmin: bool,
    recipientId: Option<string>,
    sessionId: Option<string>)

  /** The row the table holds once `p` is inserted with identity `id` at `createdAt`. */
  function Stored(p: NewRow, id: string, createdAt: int): (m: Message)
    ensures m.content == p.content && m.senderId == p.senderId && m.isAdmin == p.isAdmin
    ensures m.recipientId == p.recipientId && m.sessionId == p.sessionId
    ensures m.id == id && m.createdAt == createdAt && m.sender == None && m.timestamp == None
  {
    Message(id, p.content, p.senderId, p.recipientId, p.sessionId, p.isAdmin, createdAt, None, None, None, None)
  }

  /** The answer of a `select` on `messages`: an error, or the (nullable) rows. */
  datatype RowsResult = QueryFailed | Rows(data: Option<seq<Message>>)

  /** The rows of an answer, `data || []`. */
  function RowsOf(data: Option<seq<Message>>): (rows: seq<Message>)
    ensures data.None? ==> rows == []
    ensures data.Some? ==> rows == data.value
  {
    if data.Some? then data.value else []
  }

  /** A promise that resolves with a value or rejects with an error. */
  datatype Outcome<T> = Resolved(value: T) | Rejected(error: string)

  /** `s` is obtained from `t` by deleting elements (matched from the end). */
  predicate IsSubsequence<T(==)>(s: seq<T>, t: seq<T>)
    decreases |t|
  {
    if s == [] then true
    else if t == [] then false
    else if s[|s| - 1] == t[|t| - 1] then IsSubsequence(s[..|s| - 1], t[..|t| - 1])
    else IsSubsequence(s, t[..|t| - 1])
  }
}
