/** `useTypingIndicators`: presence on the shared `typing` channel, flattened
    into a list of who is typing and filtered for the viewer. */
module TypingIndicators {
  import opened Types

  /** One tracked presence as the channel reports it. */
  datatype Presence = Presence(userId: Option<string>, sessionId: Option<string>, isTyping: bool, lastTyped: int)

  /** The presence state: its keys in enumeration order, each with its presences. */
  datatype PresenceEntry = PresenceEntry(key: string, presences: seq<Presence>)

  function Indicator(p: Presence): (t: TypingIndicator)
    ensures t.userId == p.userId && t.sessionId == p.sessionId
    ensures t.isTyping == p.isTyping && t.lastTyped == p.lastTyped
  {
    TypingIndicator(p.userId, p.sessionId, p.isTyping, p.lastTyped)
  }

  /** The typing presences of one key, in list order. */
  function TypingOf(ps: seq<Presence>): (r: seq<TypingIndicator>)
    ensures |r| <= |ps|
    ensures forall t :: t in r ==> t.isTyping
  {
    if ps == [] then []
    else TypingOf(ps[..|ps| - 1]) + (if ps[|ps| - 1].isTyping then [Indicator(ps[|ps| - 1])] else [])
  }

  /** The typing presences of the whole state, in key order then list order. */
  function FlattenTyping(state: seq<PresenceEntry>): (r: seq<TypingIndicator>)
    ensures forall t :: t in r ==> t.isTyping
  {
    if state == [] then []
    else FlattenTyping(state[..|state| - 1]) + TypingOf(state[|state| - 1].presences)
  }

  /** The sync handler: walk every key and every presence, pushing those that are typing. */
  method Sync(state: seq<PresenceEntry>) returns (typingData: seq<TypingIndicator>)
    ensures typingData == FlattenTyping(state)
  {
    typingData := [];
    var k := 0;
    while k < |state|
      invariant 0 <= k <= |state|
      invariant typingData == FlattenTyping(state[..k])
    {
      var ps := state[k].presences;
      var j := 0;
      assert state[..k + 1][..k] == state[..k];
      while j < |ps|
        invariant 0 <= j <= |ps|
        invariant typingData == FlattenTyping(state[..k]) + TypingOf(ps[..j])
      {
        if ps[j].isTyping {
          typingData := typingData + [Indicator(ps[j])];
        }
        assert ps[..j + 1][..j] == ps[..j];
        j := j + 1;
      }
      assert ps[..j] == ps;
      k := k + 1;
    }
    assert state[..k] == state;
  }

  /** The hook's `typingUsers` state. */
  class TypingHook {
    var typingUsers: seq<TypingIndicator>

    constructor ()
      ensures typingUsers == []
    {
      typingUsers := [];
    }

    /** A presence sync. Without an identity the effect registers no channel, so
        no sync reaches the hook; otherwise the flattened state replaces the list. */
    method OnSync(userId: Option<string>, sessionId: Option<string>, state: seq<PresenceEntry>)
      modifies this
      ensures !HasIdentity(userId, sessionId) ==> typingUsers == old(typingUsers)
      ensures HasIdentity(userId, sessionId) ==> typingUsers == FlattenTyping(state)
    {
      if !HasIdentity(userId, sessionId) {
        return;
      }
      typingUsers := Sync(state);
    }
  }

  /** With neither id the typing list stays empty, whatever presence states arrive. */
  method NoIdentityNoTyping(states: seq<seq<PresenceEntry>>) returns (hook: TypingHook)
    ensures hook.typingUsers == []
    ensures TypingIndicatorFor(None, None, hook.typingUsers) == []
  {
    hook := new TypingHook();
    for i := 0 to |states|
      invariant hook.typingUsers == []
    {
      hook.OnSync(None, None, states[i]);
    }
  }

  /** A presence is listed exactly when it is typing. */
  lemma {:induction false} TypingOfKeepsTyping(ps: seq<Presence>, p: Presence)
    ensures Indicator(p) in TypingOf(ps) <==> p in ps && p.isTyping
  {
    if ps != [] {
      var init := ps[..|ps| - 1];
      TypingOfKeepsTyping(init, p);
      assert ps == init + [ps[|ps| - 1]];
      if Indicator(p) == Indicator(ps[|ps| - 1]) {
        assert p == ps[|ps| - 1];
      }
    }
  }

  /** Each key's typing presences, and no others, appear in the flattened list. */
  lemma {:induction false} FlattenKeepsTyping(state: seq<PresenceEntry>, p: Presence)
    ensures Indicator(p) in FlattenTyping(state) <==>
      p.isTyping && exists e :: e in state && p in e.presences
  {
    if state != [] {
      var init := state[..|state| - 1];
      var last := state[|state| - 1];
      FlattenKeepsTyping(init, p);
      TypingOfKeepsTyping(last.presences, p);
      assert state == init + [last];
      if p.isTyping && exists e :: e in state && p in e.presences {
        var e :| e in state && p in e.presences;
        if e != last {
          assert e in init;
        }
      }
    }
  }

  /** The payload `setTypingStatus` tracks: the user id when signed in, the
      session id only when not. */
  function TrackPayload(userId: Option<string>, sessionId: Option<string>, isTyping: bool, now: int): (p: Presence)
    ensures Truthy(userId) ==> p.userId == userId && p.sessionId == None
    ensures !Truthy(userId) ==> p.userId == None && p.sessionId == sessionId
    ensures p.isTyping == isTyping && p.lastTyped == now
  {
    Presence(if Truthy(userId) then userId else None, if Truthy(userId) then None else sessionId, isTyping, now)
  }

  /** The per-entry test of `getTypingIndicator`. */
  predicate Shown(userId: Option<string>, sessionId: Option<string>, t: TypingIndicator): (b: bool)
    ensures b ==> !Truthy(t.sessionId)
    ensures b && Truthy(userId) ==> t.userId != userId
    ensures b && !Truthy(userId) && Truthy(sessionId) ==> t.sessionId != sessionId
    ensures Truthy(userId) && t.userId != userId && !Truthy(t.sessionId) ==> b
    ensures !Truthy(userId) && t.sessionId != sessionId && !Truthy(t.sessionId) ==> b
  {
    if Truthy(userId) then t.userId != userId && !Truthy(t.sessionId)
    else t.sessionId != sessionId && !Truthy(t.sessionId)
  }

  /** `getTypingIndicator`: `typingUsers` filtered by `Shown`, in order. */
  function TypingIndicatorFor(userId: Option<string>, sessionId: Option<string>, typingUsers: seq<TypingIndicator>): (r: seq<TypingIndicator>)
    ensures |r| <= |typingUsers|
    ensures forall t :: t in r ==> t in typingUsers && Shown(userId, sessionId, t)
  {
    if typingUsers == [] then []
    else
      var prev := TypingIndicatorFor(userId, sessionId, typingUsers[..|typingUsers| - 1]);
      var last := typingUsers[|typingUsers| - 1];
      if Shown(userId, sessionId, last) then prev + [last] else prev
  }

  /** The viewer sees exactly the entries that pass the test. */
  lemma {:induction false} ShownEntriesAreKept(userId: Option<string>, sessionId: Option<string>, typingUsers: seq<TypingIndicator>, t: TypingIndicator)
    ensures t in TypingIndicatorFor(userId, sessionId, typingUsers) <==> t in typingUsers && Shown(userId, sessionId, t)
  {
    if typingUsers != [] {
      var init := typingUsers[..|typingUsers| - 1];
      ShownEntriesAreKept(userId, sessionId, init, t);
      assert typingUsers == init + [typingUsers[|typingUsers| - 1]];
    }
  }

  /** The result is a subsequence of `typingUsers`. */
  lemma {:induction false} IndicatorIsSubsequence(userId: Option<string>, sessionId: Option<string>, typingUsers: seq<TypingIndicator>)
    ensures IsSubsequence(TypingIndicatorFor(userId, sessionId, typingUsers), typingUsers)
  {
    if typingUsers != [] {
      var init := typingUsers[..|typingUsers| - 1];
      var last := typingUsers[|typingUsers| - 1];
      var prev := TypingIndicatorFor(userId, sessionId, init);
      IndicatorIsSubsequence(userId, sessionId, init);
      if Shown(userId, sessionId, last) {
        assert (prev + [last])[..|prev|] == prev;
      } else if prev != [] {
        assert prev[|prev| - 1] in prev;
      }
    }
  }

  /** Nobody with a session id is ever shown, and a signed-in viewer is never
      shown to themselves. */
  lemma NoSessionEntryIsShown(userId: Option<string>, sessionId: Option<string>, typingUsers: seq<TypingIndicator>, t: TypingIndicator)
    requires t in TypingIndicatorFor(userId, sessionId, typingUsers)
    ensures !Truthy(t.sessionId)
    ensures Truthy(userId) ==> t.userId != userId
  {
  }

  /** A viewer never sees their own tracked presence. */
  lemma OwnPresenceIsHidden(userId: Option<string>, sessionId: Option<string>, now: int)
    requires HasIdentity(userId, sessionId)
    ensures !Shown(userId, sessionId, Indicator(TrackPayload(userId, sessionId, true, now)))
  {
  }
}
