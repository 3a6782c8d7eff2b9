/** `useStableRealtimeConnection`: one realtime channel for a table, rebuilt
    after a channel error or timeout up to five times in a row. */
module StableRealtimeConnection {
  import opened Types
  import opened RealtimeChannels

  const MaxAttempts: nat := 5
  const ReconnectDelayMs: nat := 2000
  const DefaultSchema: string := "public"

  datatype TableEvent = InsertEvent | UpdateEvent | DeleteEvent

  /** Which of the optional handlers the caller provided. */
  datatype Handlers = Handlers(onInsert: bool, onUpdate: bool, onDelete: bool, onSubscribe: bool)

  datatype TableConfig = TableConfig(table: string, schema: Option<string>, filter: Option<string>)

  /** A `postgres_changes` listener registered on a channel. */
  datatype Listener = Listener(event: TableEvent, schema: string, table: string, filter: Option<string>)

  datatype Channel = Channel(id: nat, name: string, listeners: seq<Listener>)

  /** `tableConfig.schema || 'public'`. */
  function SchemaOf(config: TableConfig): (schema: string)
    ensures Truthy(config.schema) ==> schema == config.schema.value
    ensures !Truthy(config.schema) ==> schema == DefaultSchema
    ensures schema != ""
  {
    if Truthy(config.schema) then config.schema.value else DefaultSchema
  }

  function ListenerFor(e: TableEvent, config: TableConfig): Listener {
    Listener(e, SchemaOf(config), config.table, config.filter)
  }

  /** The listeners `setupChannel` registers: one per provided handler, in the order
      INSERT, UPDATE, DELETE. */
  function Listeners(handlers: Handlers, config: TableConfig): (ls: seq<Listener>)
    ensures forall l :: l in ls ==> l == ListenerFor(l.event, config)
    ensures ListenerFor(InsertEvent, config) in ls <==> handlers.onInsert
    ensures ListenerFor(UpdateEvent, config) in ls <==> handlers.onUpdate
    ensures ListenerFor(DeleteEvent, config) in ls <==> handlers.onDelete
    ensures forall i, j :: 0 <= i < j < |ls| ==> ls[i].event != ls[j].event
  {
    var i, u, d := ListenerFor(InsertEvent, config), ListenerFor(UpdateEvent, config), ListenerFor(DeleteEvent, config);
    match (handlers.onInsert, handlers.onUpdate, handlers.onDelete)
    case (true, true, true) => [i, u, d]
    case (true, true, false) => [i, u]
    case (true, false, true) => [i, d]
    case (true, false, false) => [i]
    case (false, true, true) => [u, d]
    case (false, true, false) => [u]
    case (false, false, true) => [d]
    case (false, false, false) => []
  }

  /** What the subscribe callback does with a reported status; `retry` is the delay
      of the `setupChannel` timer it sets, if it sets one. */
  datatype Reaction = Reaction(attempts: nat, retry: Option<nat>, notifySubscribed: bool, gaveUp: bool)

  function React(attempts: nat, status: ChannelState, handlers: Handlers): (r: Reaction)
    ensures attempts <= MaxAttempts ==> r.attempts <= MaxAttempts
    ensures status == Subscribed ==>
      r.attempts == 0 && r.retry == None && !r.gaveUp && (r.notifySubscribed <==> handlers.onSubscribe)
    ensures (status == ChannelError || status == TimedOut) && attempts < MaxAttempts ==>
      r.attempts == attempts + 1 && r.retry == Some(ReconnectDelayMs) && !r.gaveUp && !r.notifySubscribed
    ensures (status == ChannelError || status == TimedOut) && attempts >= MaxAttempts ==>
      r.attempts == attempts && r.retry == None && r.gaveUp && !r.notifySubscribed
    ensures status == Closed ==> r == Reaction(attempts, None, false, false)
  {
    match status
    case Subscribed => Reaction(0, None, handlers.onSubscribe, false)
    case ChannelError | TimedOut =>
      if attempts < MaxAttempts then Reaction(attempts + 1, Some(ReconnectDelayMs), false, false)
      else Reaction(attempts, None, false, true)
    case Closed => Reaction(attempts, None, false, false)
  }

  /** The attempt counter after a sequence of reported statuses. */
  function AttemptsAfter(attempts: nat, statuses: seq<ChannelState>, handlers: Handlers): nat
    decreases |statuses|
  {
    if statuses == [] then attempts
    else AttemptsAfter(React(attempts, statuses[0], handlers).attempts, statuses[1..], handlers)
  }

  /** How many retries a sequence of reported statuses schedules. */
  function RetriesScheduled(attempts: nat, statuses: seq<ChannelState>, handlers: Handlers): nat
    decreases |statuses|
  {
    if statuses == [] then 0
    else
      var r := React(attempts, statuses[0], handlers);
      (if r.retry.Some? then 1 else 0) + RetriesScheduled(r.attempts, statuses[1..], handlers)
  }

  predicate IsError(status: ChannelState) {
    status == ChannelError || status == TimedOut
  }

  /** The counter never leaves `0..5`, whatever the channel reports. */
  lemma {:induction false} AttemptsStayBounded(attempts: nat, statuses: seq<ChannelState>, handlers: Handlers)
    requires attempts <= MaxAttempts
    ensures AttemptsAfter(attempts, statuses, handlers) <= MaxAttempts
    decreases |statuses|
  {
    if statuses != [] {
      AttemptsStayBounded(React(attempts, statuses[0], handlers).attempts, statuses[1..], handlers);
    }
  }

  /** A run of errors with no `SUBSCRIBED` in between schedules at most five
      retries in all: exactly `min(n, 5 - attempts)` of them. */
  lemma {:induction false} ErrorRunRetries(attempts: nat, statuses: seq<ChannelState>, handlers: Handlers)
    requires attempts <= MaxAttempts
    requires forall i :: 0 <= i < |statuses| ==> IsError(statuses[i])
    ensures RetriesScheduled(attempts, statuses, handlers) ==
      if |statuses| <= MaxAttempts - attempts then |statuses| else MaxAttempts - attempts
    ensures AttemptsAfter(attempts, statuses, handlers) ==
      if |statuses| <= MaxAttempts - attempts then attempts + |statuses| else MaxAttempts
    decreases |statuses|
  {
    if statuses != [] {
      assert IsError(statuses[0]);
      ErrorRunRetries(React(attempts, statuses[0], handlers).attempts, statuses[1..], handlers);
    }
  }

  /** A `SUBSCRIBED` report grants a fresh budget of five retries. */
  lemma SubscribedRestoresBudget(attempts: nat, statuses: seq<ChannelState>, handlers: Handlers)
    requires attempts <= MaxAttempts
    requires forall i :: 0 <= i < |statuses| ==> IsError(statuses[i])
    ensures RetriesScheduled(attempts, [Subscribed] + statuses, handlers) ==
      if |statuses| <= MaxAttempts then |statuses| else MaxAttempts
  {
    assert ([Subscribed] + statuses)[1..] == statuses;
    ErrorRunRetries(0, statuses, handlers);
  }

  /** The hook's refs and the channels it created. */
  class StableConnection {
    const client: RealtimeClient
    const channelName: string
    const handlers: Handlers
    const config: TableConfig
    const enabled: bool

    /** `channelRef.current`. */
    var channelRef: Option<Channel>
    /** `attemptsRef.current`. */
    var attempts: nat
    /** The delays of the retry timers set and not yet fired or cleared, oldest
        first; `timeoutId` names the last. All have the same delay, so they fire
        oldest first, and while any is pending the latest one is. */
    var pendingRetries: seq<nat>
    /** Every channel identity this hook has created. */
    ghost var created: set<nat>

    ghost predicate Valid()
      reads this, client
    {
      client.Valid() &&
      attempts <= MaxAttempts &&
      (forall i :: 0 <= i < |pendingRetries| ==> pendingRetries[i] == ReconnectDelayMs) &&
      (forall c :: c in created ==> c < client.next) &&
      (channelRef.Some? ==> channelRef.value.id in created) &&
      created * client.live <= ChannelIds()
    }

    /** The identities held in `channelRef`: none or one. */
    function ChannelIds(): set<nat>
      reads this
    {
      if channelRef.Some? then {channelRef.value.id} else {}
    }

    /** `isConnected`, i.e. `channelRef.current !== null`. A live channel of the hook
        implies it, but not the reverse: cleanup removes the channel and keeps the ref. */
    function IsConnected(): (b: bool)
      reads this, client
      ensures Valid() && created * client.live != {} ==> b
      ensures !b ==> ChannelIds() == {}
    {
      channelRef.Some?
    }

    constructor (client: RealtimeClient, channelName: string, handlers: Handlers, config: TableConfig, enabled: bool)
      requires client.Valid()
      ensures Valid()
      ensures this.client == client && this.channelName == channelName && this.handlers == handlers
      ensures this.config == config && this.enabled == enabled
      ensures channelRef == None && attempts == 0 && pendingRetries == [] && created == {}
    {
      this.client := client;
      this.channelName := channelName;
      this.handlers := handlers;
      this.config := config;
      this.enabled := enabled;
      channelRef := None;
      attempts := 0;
      pendingRetries := [];
      created := {};
    }

    /** `setupChannel`: remove and forget the previous channel, then open, configure
        and store a new one. */
    method SetupChannel()
      requires Valid()
      modifies this, client
      ensures Valid()
      ensures channelRef == Some(Channel(old(client.next), channelName, Listeners(handlers, config)))
      ensures created == old(created) + {old(client.next)}
      ensures client.live == old(client.live) - old(ChannelIds()) + {old(client.next)}
      ensures client.next == old(client.next) + 1
      ensures attempts == old(attempts) && pendingRetries == old(pendingRetries)
    {
      if channelRef.Some? {
        client.Remove(channelRef.value.id);
        channelRef := None;
      }
      var id := client.Open();
      created := created + {id};
      channelRef := Some(Channel(id, channelName, Listeners(handlers, config)));
    }

    /** The effect body: nothing at all when the hook is disabled. */
    method Mount()
      requires Valid()
      modifies this, client
      ensures Valid()
      ensures !enabled ==> channelRef == old(channelRef) && created == old(created)
      ensures !enabled ==> client.live == old(client.live) && client.next == old(client.next)
      ensures enabled ==> channelRef == Some(Channel(old(client.next), channelName, Listeners(handlers, config)))
      ensures enabled ==> created == old(created) + {old(client.next)}
      ensures enabled ==> client.live == old(client.live) - old(ChannelIds()) + {old(client.next)}
      ensures enabled ==> client.next == old(client.next) + 1
      ensures attempts == old(attempts) && pendingRetries == old(pendingRetries)
    {
      if !enabled {
        return;
      }
      SetupChannel();
    }

    /** The subscribe callback of the current channel. Returns whether the
        `onSubscribe` handler was called and whether the hook gave up. */
    method OnStatus(status: ChannelState) returns (notified: bool, gaveUp: bool)
      requires Valid()
      modifies this
      ensures Valid()
      ensures attempts == React(old(attempts), status, handlers).attempts
      ensures var retry := React(old(attempts), status, handlers).retry;
        pendingRetries == old(pendingRetries) + (if retry.Some? then [retry.value] else [])
      ensures notified == React(old(attempts), status, handlers).notifySubscribed
      ensures gaveUp == React(old(attempts), status, handlers).gaveUp
      ensures channelRef == old(channelRef) && created == old(created)
    {
      var r := React(attempts, status, handlers);
      attempts := r.attempts;
      if r.retry.Some? {
        pendingRetries := pendingRetries + [r.retry.value];
      }
      notified, gaveUp := r.notifySubscribed, r.gaveUp;
    }

    /** The oldest retry timer fires, `waited` milliseconds after it was set:
        `setupChannel` runs again. */
    method FireRetry() returns (waited: nat)
      requires Valid() && |pendingRetries| > 0
      modifies this, client
      ensures Valid()
      ensures waited == ReconnectDelayMs
      ensures pendingRetries == old(pendingRetries)[1..]
      ensures channelRef == Some(Channel(old(client.next), channelName, Listeners(handlers, config)))
      ensures created == old(created) + {old(client.next)}
      ensures client.live == old(client.live) - old(ChannelIds()) + {old(client.next)}
      ensures client.live * created == {old(client.next)}
      ensures client.next == old(client.next) + 1
      ensures attempts == old(attempts)
    {
      waited := pendingRetries[0];
      pendingRetries := pendingRetries[1..];
      SetupChannel();
    }

    /** The effect cleanup: clear the latest timer and remove the current channel
        (the ref itself is left as it is). */
    method Cleanup()
      requires Valid()
      modifies this, client
      ensures Valid()
      ensures pendingRetries == if old(pendingRetries) != [] then old(pendingRetries)[..|old(pendingRetries)| - 1] else []
      ensures client.live == old(client.live) - old(ChannelIds()) && client.next == old(client.next)
      ensures client.live * created == {}
      ensures channelRef == old(channelRef) && created == old(created) && attempts == old(attempts)
    {
      if pendingRetries != [] {
        pendingRetries := pendingRetries[..|pendingRetries| - 1];
      }
      if channelRef.Some? {
        client.Remove(channelRef.value.id);
      }
    }

    /** The evidently intended cleanup: every retry timer set by this effect is
        cleared, not only the latest. */
    method CleanupAllTimers()
      requires Valid()
      modifies this, client
      ensures Valid()
      ensures pendingRetries == []
      ensures client.live == old(client.live) - old(ChannelIds()) && client.next == old(client.next)
      ensures client.live * created == {}
      ensures channelRef == old(channelRef) && created == old(created) && attempts == old(attempts)
    {
      pendingRetries := [];
      if channelRef.Some? {
        client.Remove(channelRef.value.id);
      }
    }
  }

  /** Two errors reported before the first retry fires leave two timers; cleanup
      clears only the latest, so the other one still runs `setupChannel` and opens
      a channel after teardown. */
  method TwoErrorsThenUnmount(client: RealtimeClient) returns (conn: StableConnection)
    requires client.Valid()
    modifies client
    ensures conn.Valid() && conn.pendingRetries == []
    ensures conn.channelRef.Some? && conn.client.live * conn.created == {conn.channelRef.value.id}
  {
    conn := new StableConnection(client, "messages", Handlers(true, false, false, false),
      TableConfig("messages", None, None), true);
    conn.Mount();
    var _, _ := conn.OnStatus(ChannelError);
    var _, _ := conn.OnStatus(TimedOut);
    assert |conn.pendingRetries| == 2;
    conn.Cleanup();
    assert conn.client.live * conn.created == {};
    var _ := conn.FireRetry();
  }

  /** With every timer cleared the same run ends with no channel of the hook open
      and nothing left to fire. */
  method TwoErrorsThenUnmountClearingAll(client: RealtimeClient) returns (conn: StableConnection)
    requires client.Valid()
    modifies client
    ensures conn.Valid() && conn.pendingRetries == []
    ensures conn.client.live * conn.created == {}
  {
    conn := new StableConnection(client, "messages", Handlers(true, false, false, false),
      TableConfig("messages", None, None), true);
    conn.Mount();
    var _, _ := conn.OnStatus(ChannelError);
    var _, _ := conn.OnStatus(TimedOut);
    conn.CleanupAllTimers();
  }

  /** After unmounting, `isConnected` still reports true although none of the
      hook's channels is live. */
  method ConnectedAfterUnmount(client: RealtimeClient) returns (conn: StableConnection)
    requires client.Valid()
    modifies client
    ensures conn.Valid() && conn.IsConnected()
    ensures conn.client.live * conn.created == {}
  {
    conn := new StableConnection(client, "messages", Handlers(true, false, false, false),
      TableConfig("messages", None, None), true);
    conn.Mount();
    conn.Cleanup();
  }
}
