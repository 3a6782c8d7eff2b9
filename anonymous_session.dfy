/** `useAnonymousSession`: the visitor's anonymous session id, read from the
    browser's key/value store or created there on first visit. */
module AnonymousSession {
  import opened Types

  const SessionKey: string := "anonymous_session_id"

  /** The browser's `localStorage`, as a map from keys to strings. */
  class KeyValueStore {
    var entries: map<string, string>

    constructor (entries: map<string, string>)
      ensures this.entries == entries
    {
      this.entries := entries;
    }

    /** `getItem`: null for a missing key. */
    function GetItem(key: string): (v: Option<string>)
      reads this
      ensures key in entries ==> v == Some(entries[key])
      ensures key !in entries ==> v == None
    {
      if key in entries then Some(entries[key]) else None
    }

    method SetItem(key: string, value: string)
      modifies this
      ensures entries == old(entries)[key := value]
    {
      entries := entries[key := value];
    }
  }

  /** The id the effect settles on for a stored value and a fresh candidate. */
  function Settled(stored: Option<string>, freshId: string): (id: string)
    ensures Truthy(stored) ==> id == stored.value
    ensures !Truthy(stored) ==> id == freshId
  {
    if Truthy(stored) then stored.value else freshId
  }

  /** Settling again on the settled id keeps it, whatever new candidate is offered. */
  lemma SettledIsStable(stored: Option<string>, freshId: string, otherId: string)
    requires freshId != ""
    ensures Settled(Some(Settled(stored, freshId)), otherId) == Settled(stored, freshId)
  {
  }

  /** The hook's one state field. */
  class SessionHook {
    const store: KeyValueStore
    var sessionId: Option<string>

    constructor (store: KeyValueStore)
      ensures this.store == store && sessionId == None
    {
      this.store := store;
      sessionId := None;
    }

    /** The mount effect; `freshId` is the id `uuidv4` would return. */
    method Effect(freshId: string)
      requires freshId != ""
      modifies this, store
      ensures sessionId == Some(Settled(old(store.GetItem(SessionKey)), freshId))
      ensures Truthy(old(store.GetItem(SessionKey))) ==> store.entries == old(store.entries)
      ensures !Truthy(old(store.GetItem(SessionKey))) ==> store.entries == old(store.entries)[SessionKey := freshId]
      ensures store.GetItem(SessionKey) == sessionId
    {
      var existingSession := store.GetItem(SessionKey);
      if !Truthy(existingSession) {
        existingSession := Some(freshId);
        store.SetItem(SessionKey, freshId);
      }
      sessionId := existingSession;
    }
  }

  /** Running the effect twice, with any two fresh ids, yields the id of the
      first run; the store then holds that id, and no other key is added or
      removed. */
  method EffectTwice(hook: SessionHook, firstId: string, secondId: string)
    requires firstId != "" && secondId != ""
    modifies hook, hook.store
    ensures hook.sessionId == Some(Settled(old(hook.store.GetItem(SessionKey)), firstId))
    ensures hook.store.GetItem(SessionKey) == hook.sessionId
    ensures forall k :: k != SessionKey ==> (k in hook.store.entries <==> k in old(hook.store.entries))
  {
    hook.Effect(firstId);
    var first := hook.sessionId;
    hook.Effect(secondId);
    assert hook.sessionId == first;
  }
}
