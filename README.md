# Chat core: a Dafny model

This project models the deterministic core of a React chat application backed by a hosted database with realtime channels. The app has two sides:

- a visitor chat, in which a signed-in user or an anonymous session talks to the support team;
- an admin console, which lists one conversation per visitor and shows each conversation.

The model covers the rules inside the hooks, utilities and services:

- how the admin list collapses a page of message rows into one conversation per sender, keeps it newest first and applies realtime INSERT, UPDATE and mark-read events;
- the page range, page count and reconnect-delay arithmetic;
- the bounded reconnect state machine of the stable realtime connection, and which channels it holds;
- which inbound rows belong to the current viewer, what is handed on and when the sound plays;
- the insert payloads of visitor, admin and service sends, and the fetch filter chosen from the viewer's identity;
- the visitor and admin message-list reducers and connection-status transitions;
- the typing-presence flattening loop, the tracked payload and the viewer's filter;
- get-or-create of the anonymous session id over a key/value store;
- thread grouping, message formatting, display names and avatar letters, page links and the blank-input send guard.

React state updaters are modelled as `prev -> next` functions. State the source changes step by step is modelled as classes with `modifies` clauses:

- the stable connection's refs;
- the admin view's and the visitor list's state fields;
- the anonymous session and its store;
- the input field.

Database and channel calls are inputs (query answers, reported statuses) and outputs (payloads, opened and removed channels). A pending timer is recorded by its delay: the hooks keep a list of the delays of the timers they have set and not yet fired or cleared, oldest first, and the conversation list returns a `ReconnectAfter(delay)` value. Timestamps are integers. Nullable strings are `Option<string>`, and `Truthy` is JavaScript truthiness of a string.

Where the documented design and the code differ, the model follows the code:

- An anonymous visitor's `sender_id` is the session id, not null.
- Admin replies carry no `recipient_id`.
- Unread counts are incremented per INSERT rather than derived from a message status.
- No list de-duplicates by message id or re-sorts by `created_at`.
- Typing presence has no staleness expiry.
- There is no message-status pipeline.

`ConversationList.tsx` passes a `conversation` prop that `ConversationItem` does not declare. `ConversationItem` is modelled on its own declared props (`senderId`, `userInfo`).

Files, one module each:

- `types.dfy` holds the shared records.
- `realtime_channels.dfy` stands for the Supabase realtime client, which is not part of this model. It records only which channels are live, so that opening and removing channels can be stated.
- `formatting.dfy`, `threading.dfy`, `conversation_list.dfy`, `stable_connection.dfy`, `realtime_messages.dfy`, `messages_hook.dfy`, `conversation_hook.dfy`, `typing.dfy`, `anonymous_session.dfy`, `messages_service.dfy`, `conversation_item.dfy`, `pagination.dfy` and `message_input.dfy` each model one source file.

## Model

| member | source | states |
|---|---|---|
| Types.OrElse | src/hooks/useMessages.ts:72 | `a \|\| b` on nullable strings: `a` when truthy, otherwise `b` |
| Types.SenderOf | src/utils/messageFormatting.ts:6 | the label is admin exactly when `is_admin` holds |
| Types.Stored | src/types/message.ts:10-24 | the row the table holds for an insert payload: payload columns copied, UI fields absent |
| Types.RowsOf | src/hooks/useMessages.ts:54 | `data \|\| []`: a null answer is the empty list |
| MessageFormatting.FormatMessage | src/utils/messageFormatting.ts:4-8 | `sender` is admin iff `is_admin`, `timestamp` equals `created_at`, every other field is unchanged, and the result is formatted |
| MessageFormatting.FormattedIsFixedPoint | src/utils/messageFormatting.ts:4-8 | formatting a formatted record returns it unchanged |
| MessageFormatting.FormatIdempotent | src/utils/messageFormatting.ts:4-8 | formatting twice equals formatting once |
| MessageFormatting.FormatIgnoresUiFields | src/utils/messageFormatting.ts:5-7 | the previous `sender`/`timestamp` values never affect the result |
| MessageFormatting.FormatAll | src/services/messages.ts:15-19 | mapping keeps the count and order, each element formatted |
| MessageThreading.ThreadKey | src/utils/messageThreading.ts:6 | the key is `session_id` if truthy, else `sender_id` if truthy, else `"default"` |
| MessageThreading.InThread | src/utils/messageThreading.ts:7-10 | a thread holds only input messages of its key and is no longer than the input |
| MessageThreading.GroupMessagesByThread | src/utils/messageThreading.ts:4-13 | the reduce loop's dictionary is a grouping: its keys are the input's keys, and each value is that key's messages in input order |
| MessageThreading.GroupingStep | src/utils/messageThreading.ts:7-10 | one push onto the key's array, created if missing, keeps the dictionary a grouping of the prefix read so far |
| MessageThreading.ThreadsNonEmpty | src/utils/messageThreading.ts:7-10 | no group is empty |
| MessageThreading.MessageInItsThread | src/utils/messageThreading.ts:6-10 | every message lands in the group of its own key |
| MessageThreading.ThreadPreservesOrder | src/utils/messageThreading.ts:10 | each group is a subsequence of the input |
| MessageThreading.GroupSizesSumToLength | src/utils/messageThreading.ts:5-12 | the group sizes sum to the input length, so every message is in exactly one group |
| MessageThreading.KeysInOrderDistinct | src/utils/messageThreading.ts:7-9 | keys appear once each, and are exactly the keys of the input |
| ConversationList.PageRange | src/hooks/useConversationList.ts:53-54 | page `p` asks for rows `(p-1)*10 .. p*10-1`, exactly 10 slots, starting at row 0 on page 1 |
| ConversationList.PagesAreAdjacent | src/hooks/useConversationList.ts:54 | consecutive pages abut with no gap or overlap |
| ConversationList.RowOnExactlyOnePage | src/hooks/useConversationList.ts:54 | row `n` is on page `p` iff `p == n/10 + 1` |
| ConversationList.CeilDiv | src/hooks/useConversationList.ts:69 | the least `r` with `n <= r*d` |
| ConversationList.TotalPagesAfter | src/hooks/useConversationList.ts:68-70 | `ceil(count/10)` when the count is nonzero, else the previous value |
| ConversationList.ReconnectDelay | src/hooks/useConversationList.ts:211 | the delay always lies in 1000..10000 ms |
| ConversationList.ReconnectDelayValues | src/hooks/useConversationList.ts:211 | `1000*2^k` below 4 errors and the 10 s cap from 4 on |
| ConversationList.ReconnectDelayMonotone | src/hooks/useConversationList.ts:211 | more errors never shorten the delay |
| ConversationList.InsertByRecency | src/hooks/useConversationList.ts:94-96 | one insertion step of the stable sort: a permutation of the entry plus the list |
| ConversationList.SortByRecency | src/hooks/useConversationList.ts:94-96 | the sort is a permutation of its input |
| ConversationList.InsertKeepsOrder | src/hooks/useConversationList.ts:94-96 | an insertion step keeps a newest-first list newest first |
| ConversationList.SortIsNewestFirst | src/hooks/useConversationList.ts:94-96 | the sorted list is ordered by `last_message_timestamp`, newest first |
| ConversationList.SortOfSortedIsIdentity | src/hooks/useConversationList.ts:146-148 | re-sorting a newest-first list changes nothing, because the sort is stable |
| ConversationList.SortKeepsSenders | src/hooks/useConversationList.ts:94-96 | sorting keeps the set of senders and the one-entry-per-sender property |
| ConversationList.InsertKeepsSenders | src/hooks/useConversationList.ts:94-96 | an insertion step adds exactly the inserted entry's sender |
| ConversationList.Opened | src/hooks/useConversationList.ts:77-87 | a new entry takes the row's sender, content and time as last message and creation time, with the given unread count |
| ConversationList.Collapse | src/hooks/useConversationList.ts:73-89 | the Map-building pass never yields more entries than rows |
| ConversationList.CollapseProperties | src/hooks/useConversationList.ts:73-89 | one entry per `sender_id`, covering exactly the senders of the rows; each entry is built from the first row of its sender, with unread count 0 |
| ConversationList.CollapseOfNewestFirstRows | src/hooks/useConversationList.ts:52-89 | for rows ordered by `created_at` descending, the collapsed list is already newest first |
| ConversationList.ValuesInOrderExtend | src/hooks/useConversationList.ts:91 | setting a new key appends its value to the Map's insertion-order values |
| ConversationList.ValuesInOrderUpdateElsewhere | src/hooks/useConversationList.ts:91 | setting a key outside the insertion order leaves the listed values unchanged |
| ConversationList.AggregatePage | src/hooks/useConversationList.ts:72-96 | the Map-filling loop returns the sorted collapse of the rows: newest first, one entry per sender, exactly the rows' senders |
| ConversationList.InitialState | src/hooks/useConversationList.ts:10-15 | no conversations, loading, page 1 of 1, connecting, no errors |
| ConversationList.ApplyFetch | src/hooks/useConversationList.ts:36-104 | an error logs a fetch error and keeps conversations and page count; empty data gives `[]`; otherwise the page count follows the count, and the list is newest first, one per sender, covering exactly the rows' senders |
| ConversationList.FindIndex | src/hooks/useConversationList.ts:132 | the first index with the sender id, -1 iff the sender is absent |
| ConversationList.Bump | src/hooks/useConversationList.ts:137-143 | the new message and its time are set, `created_at` and profile are kept, and unread goes up by 1 |
| ConversationList.ApplyInsert | src/hooks/useConversationList.ts:131-165 | a known sender keeps the length; an unknown sender on page 1 adds one entry at the top in front of the unchanged list; off page 1 the list is unchanged (the order and sender facts are in the three lemmas below) |
| ConversationList.ReplaceKeepsSenders | src/hooks/useConversationList.ts:136-143 | replacing an entry with one of the same sender keeps the senders, uniqueness and the rest of the multiset |
| ConversationList.InsertForKnownSender | src/hooks/useConversationList.ts:131-148 | an INSERT for a known sender keeps the length, senders and uniqueness, contains the bumped entry, changes nothing else, and leaves the list newest first |
| ConversationList.InsertForNewSender | src/hooks/useConversationList.ts:149-162 | on page 1 an unknown sender's INSERT prepends one entry with unread 1 and keeps uniqueness |
| ConversationList.InsertForNewSenderOffFirstPage | src/hooks/useConversationList.ts:149-164 | off page 1 an unknown sender's INSERT returns the list unchanged |
| ConversationList.InsertNewestKeepsOrder | src/hooks/useConversationList.ts:131-164 | an INSERT no older than every entry keeps the list newest first |
| ConversationList.NewVisitorWritesTwice | src/hooks/useConversationList.ts:131-164 | two messages from a new visitor on page 1 give one top entry with the second message and unread 2 |
| ConversationList.ApplyUpdate | src/hooks/useConversationList.ts:176-192 | only the matching sender's entry changes, and only its last message and time; no reorder; unread, sender and creation time are kept; an unknown sender leaves the list unchanged |
| ConversationList.MarkRead | src/hooks/useConversationList.ts:227-235 | unread becomes 0 for the matching sender's entries; all other entries are unchanged |
| ConversationList.MarkReadIdempotent | src/hooks/useConversationList.ts:227-235 | marking read twice equals marking once; senders are kept |
| ConversationList.ConnectionErrors | src/hooks/useConversationList.ts:211 | the count of logged errors of the connection kind |
| ConversationList.OnChannelStatus | src/hooks/useConversationList.ts:204-219 | SUBSCRIBED gives connected; CLOSED or CHANNEL_ERROR give disconnected and a reconnect after exactly `ReconnectDelay` of the logged connection-error count (so within 1–10 s); TIMED_OUT gives connecting; only the status changes |
| ConversationList.FireReconnect | src/hooks/useConversationList.ts:212-215 | the fired reconnect sets the status to connecting |
| ConversationList.Step | src/hooks/useConversationList.ts:36-235 | one event: the error log keeps its entries and gains at most one; only a page selection moves the page, and it starts a fetch (loading) |
| ConversationList.Run | src/hooks/useConversationList.ts:36-235 | over a run the error log is append-only, gaining at most one entry per event |
| ConversationList.StepLogsNoConnectionError | src/hooks/useConversationList.ts:56-219 | no single event (fetch answer, insert, update, read, status, reconnect, page change) changes the count of connection errors |
| ConversationList.NoConnectionErrorIsEverRecorded | src/hooks/useConversationList.ts:56-167 | no event sequence ever logs an error of the connection kind |
| ConversationList.BackoffNeverGrows | src/hooks/useConversationList.ts:211 | after any run from the initial state, a disconnect always schedules a reconnect after 1000 ms |
| ConversationList.LogDisconnect | src/hooks/useConversationList.ts:19-26 | logging a connection error appends one entry and bumps the count by 1 |
| ConversationList.OnChannelStatusLogged | src/hooks/useConversationList.ts:204-219 | a disconnect logs a connection error and waits for the delay of the earlier count; other statuses behave as written |
| ConversationList.LoggedBackoffGrows | src/hooks/useConversationList.ts:210-211 | after `n` logged disconnects the next waits `ReconnectDelay(n)` |
| RealtimeChannels.RealtimeClient.Open | src/hooks/useStableRealtimeConnection.ts:51 | a fresh channel, distinct from every earlier one, becomes live |
| RealtimeChannels.RealtimeClient.Remove | src/hooks/useStableRealtimeConnection.ts:41 | the channel is no longer live |
| StableRealtimeConnection.SchemaOf | src/hooks/useStableRealtimeConnection.ts:48 | the given schema when truthy, else `"public"` |
| StableRealtimeConnection.Listeners | src/hooks/useStableRealtimeConnection.ts:53-90 | a listener per provided handler (INSERT, UPDATE, DELETE), each on the schema, table and filter, and none for a missing handler |
| StableRealtimeConnection.React | src/hooks/useStableRealtimeConnection.ts:93-121 | SUBSCRIBED resets attempts and notifies iff a handler exists; an error below 5 adds 1 and sets one retry timer of exactly `reconnectDelay` (2000 ms, line 30); at 5 it gives up with no timer; CLOSED changes nothing; attempts stay at most 5 |
| StableRealtimeConnection.AttemptsStayBounded | src/hooks/useStableRealtimeConnection.ts:96-119 | whatever statuses arrive, the counter never exceeds 5 |
| StableRealtimeConnection.ErrorRunRetries | src/hooks/useStableRealtimeConnection.ts:101-119 | a run of errors schedules exactly `min(n, 5 - attempts)` retries in all |
| StableRealtimeConnection.SubscribedRestoresBudget | src/hooks/useStableRealtimeConnection.ts:96-112 | after SUBSCRIBED a fresh budget of five retries is available |
| StableRealtimeConnection.StableConnection.constructor | src/hooks/useStableRealtimeConnection.ts:27-28 | no channel, 0 attempts, no timers |
| StableRealtimeConnection.StableConnection.SetupChannel | src/hooks/useStableRealtimeConnection.ts:38-132 | the previous channel is removed, and a new one with the configured listeners is opened and stored; at most one of the hook's channels is live |
| StableRealtimeConnection.StableConnection.Mount | src/hooks/useStableRealtimeConnection.ts:33-134 | when disabled nothing changes on the hook or the client; otherwise the previous channel is removed and a fresh channel with the configured listeners is opened, recorded and stored; no other channel of the client changes; attempts and timers are unchanged |
| StableRealtimeConnection.StableConnection.OnStatus | src/hooks/useStableRealtimeConnection.ts:93-121 | the refs follow `React`, and the retry timer it sets, with its 2000 ms delay, joins the pending timers; the channel is untouched |
| StableRealtimeConnection.StableConnection.FireRetry | src/hooks/useStableRealtimeConnection.ts:110-112 | the oldest timer fires after exactly 2000 ms and is consumed; `setupChannel` removes the previous channel and opens a fresh one, which is then the hook's only live channel; other channels and attempts are unchanged |
| StableRealtimeConnection.StableConnection.Cleanup | src/hooks/useStableRealtimeConnection.ts:137-145 | only the latest timer (`timeoutId`) is cleared; exactly the stored channel is removed from the client, so none of the hook's channels stays live and no other channel is touched; the ref, attempts and the hook's channel history are kept |
| StableRealtimeConnection.StableConnection.CleanupAllTimers | src/hooks/useStableRealtimeConnection.ts:137-138 | the intended cleanup: no timers remain; exactly the stored channel is removed, none of the hook's channels is live, and everything else is kept |
| StableRealtimeConnection.TwoErrorsThenUnmount | src/hooks/useStableRealtimeConnection.ts:110-138 | two errors, unmount, then the remaining timer fires: the hook holds a live channel after teardown |
| StableRealtimeConnection.TwoErrorsThenUnmountClearingAll | src/hooks/useStableRealtimeConnection.ts:137-145 | with every timer cleared, the same run ends with nothing pending and no live channel |
| StableRealtimeConnection.StableConnection.IsConnected | src/hooks/useStableRealtimeConnection.ts:148-150 | `isConnected` is true whenever one of the hook's channels is live; false means no channel is held |
| StableRealtimeConnection.ConnectedAfterUnmount | src/hooks/useStableRealtimeConnection.ts:137-150 | cleanup removes the channel but keeps the ref, so after unmount `isConnected` is still true while none of the hook's channels is live |
| RealtimeMessages.IsRelevant | src/hooks/useRealtimeMessages.ts:16-20 | both directions: a row is relevant exactly when it is the viewer's own (by user id when signed in, by session otherwise) or an admin row addressed to `userId \|\| sessionId` |
| RealtimeMessages.HandleNewMessage | src/hooks/useRealtimeMessages.ts:12-35 | an irrelevant row is dropped silently; a relevant row is handed on exactly once, formatted; the sound plays iff the row is relevant and `sender_id` differs from `userId` |
| RealtimeMessages.DeliverAll | src/hooks/useRealtimeMessages.ts:12-35 | over a stream of inserted rows, at most one message per row is handed on, and each is formatted |
| RealtimeMessages.DeliveredAreTheRelevantRows | src/hooks/useRealtimeMessages.ts:16-29 | over a stream, everything handed on is a formatted relevant row, and every relevant row is handed on |
| RealtimeMessages.OwnMessagesAreSilentWhenSignedIn | src/hooks/useRealtimeMessages.ts:31-34 | a signed-in viewer's own message is shown without a sound |
| RealtimeMessages.AnonymousHearsOwnEcho | src/hooks/useRealtimeMessages.ts:31-34 | as written, an anonymous viewer's own echoed message plays the sound |
| RealtimeMessages.PlaysSound | src/hooks/useRealtimeMessages.ts:31-34 | the intended rule: relevant, and not sent under `userId \|\| sessionId`; agrees with the written rule for signed-in viewers |
| MessagesHook.SendPayload | src/hooks/useMessages.ts:70-76 | never admin and no recipient; `sender_id` is the user id when signed in, else the session id; `session_id` is null when signed in, else the session id |
| MessagesHook.SendSucceeded | src/hooks/useMessages.ts:81-101 | true iff the insert answered without error or exception |
| MessagesHook.PlanFetch | src/hooks/useMessages.ts:24-44 | no query without an identity; the user id takes precedence over the session id |
| MessagesHook.Selects | src/hooks/useMessages.ts:38-44 | no plan selects nothing; the user query selects exactly the rows the listener accepts for that user; every row the session query selects is accepted for that session |
| MessagesHook.UserFetchMatchesRealtime | src/hooks/useMessages.ts:38-40 | for a signed-in viewer the query selects exactly the rows the listener accepts |
| MessagesHook.SessionFetchIsNarrower | src/hooks/useMessages.ts:41-44 | for an anonymous viewer fetched rows are relevant, but admin rows addressed by `recipient_id` alone are not fetched |
| MessagesHook.OwnMessageComesBack | src/hooks/useMessages.ts:70-76 | a visitor's own message is selected by their query and accepted by their listener |
| MessagesHook.OwnMessageChimesForAnonymous | src/hooks/useRealtimeMessages.ts:31-34 | as written, an anonymous visitor's own sent message plays the sound |
| MessagesHook.OwnMessageIsSilent | src/hooks/useRealtimeMessages.ts:31-34 | under the intended rule no visitor hears their own message |
| MessagesHook.MessagesState.constructor | src/hooks/useMessages.ts:11-13 | no messages, loading, no error |
| MessagesHook.MessagesState.InitialFetch | src/hooks/useMessages.ts:23-65 | a skipped fetch only ends loading; an error sets the error and keeps the messages; rows replace the messages, formatted, and clear the error; loading ends in every case |
| MessagesHook.MessagesState.Append | src/hooks/useMessages.ts:16-18 | the message is appended at the end; earlier messages are unchanged; no de-duplication |
| MessagesHook.MessagesState.OnInsertedRow | src/hooks/useRealtimeMessages.ts:12-38 | without an identity no listener exists, so nothing is appended and no sound plays; otherwise a relevant row is appended once, formatted, an irrelevant row changes nothing, and the sound follows `handleNewMessage` |
| ConversationHook.Project | src/hooks/useConversation.ts:59-67 | id, content, sender, flag and time are copied; the label comes from `is_admin` and the timestamp is `created_at`; other fields are absent |
| ConversationHook.ProjectAsAdmin | src/hooks/useConversation.ts:116-125 | the second listener's record is always labelled admin |
| ConversationHook.ProjectIsFormatRestricted | src/hooks/useConversation.ts:96-104 | the projection is `formatMessage` with the uncopied fields dropped, and is formatted |
| ConversationHook.AdminLabelAgrees | src/hooks/useConversation.ts:117-125 | both listeners build the same record iff the row is an admin row |
| ConversationHook.FetchSelects | src/hooks/useConversation.ts:45 | the query's second disjunct is redundant: it selects exactly the rows whose `sender_id` is the visitor |
| ConversationHook.ApplyFetch | src/hooks/useConversation.ts:39-80 | an error or null data keeps the list; rows replace it, projected, in order |
| ConversationHook.ApplyInsert | src/hooks/useConversation.ts:85-128 | appends only at the end; a row from another sender changes nothing; a visitor row is appended once, projected |
| ConversationHook.AdminReplyAppendedTwice | src/hooks/useConversation.ts:108-126 | as written, an admin reply matches both INSERT listeners and is appended twice |
| ConversationHook.ApplyInsertOnce | src/hooks/useConversation.ts:87-106 | the intended handling: one record per matching row, labelled from `is_admin` |
| ConversationHook.InsertOnceAgrees | src/hooks/useConversation.ts:87-128 | the intended handling agrees on visitor rows and drops the duplicate admin record |
| ConversationHook.ApplyUpdate | src/hooks/useConversation.ts:136-148 | only records with the edited id change, and only content and `updated_at`; the length is kept |
| ConversationHook.UpdateIdempotent | src/hooks/useConversation.ts:138-148 | the same edit twice equals once; an unknown id changes nothing |
| ConversationHook.AdminPayload | src/hooks/useConversation.ts:173-177 | `{content, sender_id: userId, is_admin: true}`, with no recipient and no session |
| ConversationHook.ReplyReachesAdminView | src/hooks/useConversation.ts:173-177 | the admin's reply is selected by the admin view's query and appended by its listener |
| ConversationHook.ReplyMissesAnonymousVisitor | src/hooks/useConversation.ts:173-177 | as written, a reply into an anonymous visitor's conversation is neither delivered live nor fetched |
| ConversationHook.AddressedAdminPayload | src/hooks/useConversation.ts:173-177 | the intended reply also sets `recipient_id` to the conversation key |
| ConversationHook.AddressedFetchMatchesRealtime | src/hooks/useMessages.ts:38-44 | the intended visitor query selects exactly what the listener accepts, for every viewer |
| ConversationHook.AddressedReplyReachesVisitor | src/hooks/useConversation.ts:173-177 | with both corrections, a reply reaches every visitor live and on reload |
| ConversationHook.ConversationView.constructor | src/hooks/useConversation.ts:11-14 | no messages, loading, connecting |
| ConversationHook.ConversationView.Fetch | src/hooks/useConversation.ts:39-80 | the list follows `ApplyFetch` and loading ends |
| ConversationHook.ConversationView.OnInsert | src/hooks/useConversation.ts:85-128 | the list follows `ApplyInsert`; other fields are unchanged |
| ConversationHook.ConversationView.OnUpdate | src/hooks/useConversation.ts:129-150 | a row of this sender patches by id; other rows change nothing |
| ConversationHook.ConversationView.OnStatus | src/hooks/useConversation.ts:151-164 | SUBSCRIBED gives connected; CLOSED or CHANNEL_ERROR give disconnected and set one resubscribe timer of exactly 5000 ms; otherwise connecting |
| ConversationHook.ConversationView.FireResubscribe | src/hooks/useConversation.ts:157-160 | the oldest resubscribe timer fires after exactly 5000 ms and is consumed; the status goes to connecting, and messages and loading are kept |
| TypingIndicators.Indicator | src/hooks/useTypingIndicators.ts:22-27 | the pushed indicator copies the presence's ids, flag and time |
| TypingIndicators.TypingOf | src/hooks/useTypingIndicators.ts:20-29 | only typing presences of a key are kept |
| TypingIndicators.FlattenTyping | src/hooks/useTypingIndicators.ts:19-30 | every kept indicator is typing |
| TypingIndicators.Sync | src/hooks/useTypingIndicators.ts:15-33 | the nested loops build exactly the typing presences, in key then list order |
| TypingIndicators.TypingHook.constructor | src/hooks/useTypingIndicators.ts:6 | `typingUsers` starts empty |
| TypingIndicators.TypingHook.OnSync | src/hooks/useTypingIndicators.ts:9-33 | without an identity the effect opens no channel, so the list is untouched; otherwise a sync replaces it with the flattened typing presences |
| TypingIndicators.NoIdentityNoTyping | src/hooks/useTypingIndicators.ts:9-10 | with neither id the typing list stays empty whatever presence states arrive, and the viewer is shown nobody |
| TypingIndicators.TypingOfKeepsTyping | src/hooks/useTypingIndicators.ts:20-28 | a presence is listed iff it is in the key's list and typing |
| TypingIndicators.FlattenKeepsTyping | src/hooks/useTypingIndicators.ts:19-30 | a presence is listed iff it is typing under some key |
| TypingIndicators.TrackPayload | src/hooks/useTypingIndicators.ts:44-49 | the user id when signed in, the session id only when not |
| TypingIndicators.TypingIndicatorFor | src/hooks/useTypingIndicators.ts:52-57 | the result holds only entries of `typingUsers` that pass the viewer's test |
| TypingIndicators.Shown | src/hooks/useTypingIndicators.ts:53-56 | both directions: a signed-in viewer is shown exactly the entries with another user id and no session id; an anonymous viewer exactly the entries with another session id and no session id |
| TypingIndicators.ShownEntriesAreKept | src/hooks/useTypingIndicators.ts:53-57 | an entry is shown iff it is in `typingUsers` and passes the test |
| TypingIndicators.IndicatorIsSubsequence | src/hooks/useTypingIndicators.ts:52-57 | the result is a subsequence of `typingUsers` |
| TypingIndicators.NoSessionEntryIsShown | src/hooks/useTypingIndicators.ts:53-57 | an entry with a session id is never shown, and a signed-in viewer never sees their own user id |
| TypingIndicators.OwnPresenceIsHidden | src/hooks/useTypingIndicators.ts:44-57 | the viewer's own tracked presence is never shown to them |
| AnonymousSession.KeyValueStore.GetItem | src/hooks/useAnonymousSession.ts:12 | the stored value, or null for a missing key |
| AnonymousSession.KeyValueStore.SetItem | src/hooks/useAnonymousSession.ts:17 | the key is set and nothing else changes |
| AnonymousSession.Settled | src/hooks/useAnonymousSession.ts:12-18 | a truthy stored id is kept, otherwise the fresh id is used |
| AnonymousSession.SettledIsStable | src/hooks/useAnonymousSession.ts:12-20 | settling again on the settled id keeps it, whatever candidate is offered |
| AnonymousSession.SessionHook.constructor | src/hooks/useAnonymousSession.ts:8 | `sessionId` starts as null |
| AnonymousSession.SessionHook.Effect | src/hooks/useAnonymousSession.ts:10-21 | an existing id is adopted and nothing is written; otherwise the fresh id is stored under `anonymous_session_id`; afterwards the store equals `sessionId` |
| AnonymousSession.EffectTwice | src/hooks/useAnonymousSession.ts:10-21 | running the effect twice yields the first run's id, and the store equals it |
| MessagesService.FetchMessages | src/services/messages.ts:7-20 | rejects on a query error; null data gives `[]`; otherwise every row is formatted, with count and order kept |
| MessagesService.FetchAgreesWithHook | src/services/messages.ts:15-19 | the service formats a loaded list as the visitor hook does |
| MessagesService.SendPayload | src/services/messages.ts:22-28 | `sender_id` is the user's id, `recipient_id` null, `is_admin` as given |
| MessagesService.SendAgreesWithHook | src/services/messages.ts:23-28 | with the default flag it is the signed-in visitor's payload |
| MessagesService.SendResult | src/services/messages.ts:30-35 | an insert error rejects; success resolves with the data |
| MessagesService.SubscribedRow | src/services/messages.ts:44-50 | the row passed to the callback has `sender` admin iff `is_admin`, `timestamp` equal to `created_at`, and every other field of the inserted row |
| MessagesService.SubscribedRowIsFormatted | src/services/messages.ts:44-50 | the inline spread is `formatMessage`, so every subscribed row is formatted |
| MessagesService.SubscribedMatchesFetched | src/services/messages.ts:15-50 | a row loaded by `fetchMessages` and the same row pushed to a subscriber are identical |
| MessagesService.SubscribeToMessages | src/services/messages.ts:38-53 | one fresh live channel |
| MessagesService.Unsubscribe | src/services/messages.ts:55-57 | the returned function removes that channel |
| MessagesService.SubscribeThenRelease | src/services/messages.ts:38-57 | subscribing then releasing leaves the live channels as they were |
| ConversationItem.Slice | src/components/admin/ConversationItem.tsx:27 | the first `n` characters, or the whole string when shorter |
| ConversationItem.DisplayName | src/components/admin/ConversationItem.tsx:23-28 | the username when non-empty, else `"User "` plus the first 8 characters of the sender id |
| ConversationItem.FallbackNameShape | src/components/admin/ConversationItem.tsx:27 | the fallback begins with `"User "`, has at most 13 characters and continues with a prefix of the id, the whole id when it is shorter than 8 |
| ConversationItem.UpperChar | src/components/admin/ConversationItem.tsx:32 | lower-case letters map to upper case; the result is never lower case |
| ConversationItem.ToUpper | src/components/admin/ConversationItem.tsx:32-34 | length is kept and each character is upper-cased |
| ConversationItem.ToUpperIdempotent | src/components/admin/ConversationItem.tsx:32-34 | upper-casing twice equals once |
| ConversationItem.AvatarLetters | src/components/admin/ConversationItem.tsx:30-35 | at most 2 letters: the case-mapped prefix of the username when non-empty, else of the sender id |
| ConversationItem.AvatarMatchesName | src/components/admin/ConversationItem.tsx:23-35 | with a username the letters start the display name; otherwise they come from the sender id |
| ConversationPagination.Links | src/components/admin/ConversationPagination.tsx:21-36 | nothing when at most one page; otherwise exactly `totalPages` links numbered 1..n in order, each active iff its number is `currentPage` |
| ConversationPagination.OneActiveLink | src/components/admin/ConversationPagination.tsx:30 | at most one link is active, and exactly one when `currentPage` is a page |
| ConversationPagination.NumbersAscend | src/components/admin/ConversationPagination.tsx:27-33 | the link numbers strictly increase |
| ConversationPagination.Select | src/components/admin/ConversationPagination.tsx:31 | clicking index `i` asks for page `i + 1`, always within 1..`totalPages` |
| MessageInput.TrimStart | src/components/MessageInput.tsx:17 | drops leading white space only: a suffix not starting with white space, and every dropped character is white space |
| MessageInput.TrimEnd | src/components/MessageInput.tsx:17 | drops trailing white space only: a prefix not ending with white space, and every dropped character is white space |
| MessageInput.Trim | src/components/MessageInput.tsx:17 | the result neither starts nor ends with white space |
| MessageInput.TrimEmptyIffBlank | src/components/MessageInput.tsx:17 | trimming gives the empty string iff every character is white space |
| MessageInput.TrimStartEmptyIffBlank | src/components/MessageInput.tsx:17 | left trimming empties exactly the blank strings |
| MessageInput.TrimEndEmptyIffBlank | src/components/MessageInput.tsx:17 | right trimming empties exactly the blank strings |
| MessageInput.SubmitDisabled | src/components/MessageInput.tsx:39 | the button is disabled iff `disabled` or the text is blank |
| MessageInput.InputField.constructor | src/components/MessageInput.tsx:13 | the field starts empty |
| MessageInput.InputField.OnChange | src/components/MessageInput.tsx:31 | the field takes the typed value |
| MessageInput.InputField.HandleSubmit | src/components/MessageInput.tsx:15-21 | blank text is not sent and stays in the field; other text is sent once, untrimmed, and the field is cleared |

## Left out

- Database and realtime calls (`select`, `or`, `order`, `range`, `insert`, `channel`, `subscribe`, `removeChannel`, `track`, `presenceState`) are foreign calls. Their answers are inputs and their payloads are outputs. The realtime client tracks only which channels are live.
- `setTimeout` and `clearTimeout` are modelled as sequences of the delays of pending timers, oldest first, and as `ReconnectAfter(delay)` values. There is no real time: a fired timer reports the delay it was set with.
- Asynchronous interleavings are not modelled: the profile lookup awaited before an INSERT updates the admin list, overlapping fetches and realtime events, and the channel re-subscription that the list's effect performs whenever the page or the error log changes. Every event is applied atomically, in the order given.
- ConversationList.Step: a page selection sets the page and starts the fetch (`loading`); the fetch's answer is the separate `FetchAnswered` event, and the re-subscribed channel is the same channel as far as the model goes.
- Dates are integers. Parsing, `toISOString`, `Date.now()` in the unique channel name, and locale formatting of times are left out.
- Toasts, console logging and the sound itself are left out. Only the decision to play the sound is modelled.
- ConversationList: a DELETE event re-runs the page query. The model has no DELETE event; it is the same as another `FetchAnswered` event.
- ConversationList.ApplyFetch: the catch branch "Could not process conversation data" is not modelled, because processing the rows cannot fail in the model.
- ConversationList: `sender_id` is a string in page rows and change rows. A null `sender_id` key in the Map is not modelled.
- StableRealtimeConnection.StableConnection.SetupChannel: the catch branch for a channel constructor that throws is not modelled, because opening a channel cannot fail in the model.
- StableRealtimeConnection: React's effect re-run when the dependencies change is not modelled. Each mount/cleanup pair is one call.
- StableRealtimeConnection.StableConnection.IsConnected: the hook returns `channelRef.current !== null` as read during render, so the caller holds a snapshot that goes stale until the next render. The model reads the ref's current value.
- ConversationHook.ConversationView: the effect cleanup of `useConversation` removes the channel but never cancels the 5000 ms resubscribe timer. After unmount that timer still calls `channel.subscribe()` and sets the status. The view has no cleanup member, so this is not modelled.
- MessagesHook.MessagesState.InitialFetch: the source runs the load inside a `useState` initializer. It therefore runs once at first render, not again when the ids change. The model has one call per hook instance.
- MessagesHook.MessagesState.InitialFetch: the error is kept as its message text, `"Error fetching messages"`, not as an `Error` object.
- MessagesService.FetchMessages: the rejection carries a fixed text instead of the query's own error object.
- MessagesService.SendResult: the rejection carries a fixed text instead of the insert's own error object.
- ConversationHook: `fetchUserInfo` and the `userInfo` state it fills are not modelled. It is a plain profile query with no rule beyond storing a non-null answer.
- ConversationHook.ApplyInsert: the second INSERT listener's filter `is_admin=eq.true,sender_id=eq.<id>` is read as requiring both conditions. How the realtime server parses a comma in a filter is outside the model.
- TypingIndicators.Shown: JavaScript's null and undefined are both `None`. They would differ only for a viewer with neither id, and such a viewer opens no channel, so its typing list stays empty (`TypingIndicators.NoIdentityNoTyping`).
- MessageThreading: the JavaScript object the reduce builds is modelled as a map, so inherited property names such as `constructor` are not special.
- ConversationItem.UpperChar: only the ASCII letters `a`–`z` are upper-cased. JavaScript applies full Unicode case mapping, which can lengthen a string (`ß` becomes `SS`). The "at most two letters" bound therefore holds only in this model. JavaScript also slices by UTF-16 code unit, where the model slices by character.
- Fields that no modelled rule reads are not modelled: `is_typing` on conversations, profile `status` and `last_seen`, `MessageStatus`, and the original error and timestamp of a logged error.
- Presentation components, auth hooks, routing, the message context and the local-storage wrapper are not part of this model.

## Findings

| source | as written | input that shows it | evidently intended | confidence | as-written member | corrected member |
|---|---|---|---|---|---|---|
| src/hooks/useConversationList.ts:211 | the delay exponent counts logged errors of kind `'connection'`, but nothing ever logs one, so the exponent is always 0 | three CHANNEL_ERROR reports in a row: each waits 1000 ms | each disconnect logs a connection error, so the delay doubles up to 10 s | high, not executed | ConversationList.BackoffNeverGrows | ConversationList.LoggedBackoffGrows |
| src/hooks/useConversation.ts:173-177 | the admin reply sets neither `recipient_id` nor `session_id` | anonymous visitor with session `s`; admin replies in conversation `s`; the row has `session_id` null and `recipient_id` null, so the visitor's listener and query both skip it | the reply is addressed to the conversation key and reaches the visitor live and on reload | medium, not executed | ConversationHook.ReplyMissesAnonymousVisitor | ConversationHook.AddressedReplyReachesVisitor |
| src/hooks/useRealtimeMessages.ts:31 | the sound test compares `sender_id` with `userId`, which is null for an anonymous visitor | anonymous visitor `s` sends "hi"; the echoed row has `sender_id` `s`, which differs from null, so the sound plays | no sound for the viewer's own messages, compared against `userId \|\| sessionId` | medium, not executed | MessagesHook.OwnMessageChimesForAnonymous | MessagesHook.OwnMessageIsSilent |
| src/hooks/useConversation.ts:108-126 | the second INSERT listener's rows are a subset of the first's, so both fire for an admin reply | admin reply row with `sender_id` `u` and `is_admin` true: two identical records are appended | one record per inserted row | low, not executed | ConversationHook.AdminReplyAppendedTwice | ConversationHook.InsertOnceAgrees |
| src/hooks/useStableRealtimeConnection.ts:110-138 | each retry overwrites `timeoutId`, and cleanup clears only the latest timer | CHANNEL_ERROR then TIMED_OUT before the first retry fires, then unmount: the earlier timer still fires and opens a channel after teardown | unmounting cancels every pending retry | low, not executed | StableRealtimeConnection.TwoErrorsThenUnmount | StableRealtimeConnection.TwoErrorsThenUnmountClearingAll |
