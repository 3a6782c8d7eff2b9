/** The realtime client as far as the core sees it: channels are opened and
    removed, and each open channel has an identity.  The wire protocol is
    not modelled. */
module RealtimeChannels {

  class RealtimeClient {
    /** Channels opened and not yet removed. */
    var live: set<nat>
    /** The identity the next opened channel gets. */
    var next: nat

    ghost predicate Valid()
      reads this
    {
      forall c :: c in live ==> c < next
    }

    constructor ()
      ensures Valid() && live == {} && next == 0
    {
      live := {};
      next := 0;
    }

    /** `supabase.channel(name)`: a fresh channel, distinct from every earlier one. */
    method Open() returns (c: nat)
      requires Valid()
      modifies this
      ensures Valid()
      ensures c == old(next) && next == old(next) + 1
      ensures c !in old(live) && live == old(live) + {c}
    {
      c := next;
      live := live + {c};
      next := next + 1;
    }

    /** `supabase.removeChannel(channel)`. */
    method Remove(c: nat)
      requires Valid()
      modifies this
      ensures Valid()
      ensures live == old(live) - {c} && next == old(next)
    {
      live := live - {c};
    }
  }
}
