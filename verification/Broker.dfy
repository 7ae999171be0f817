/**
 * The wakeup broker (pkg/job/broker.go): channels of capacity one, grouped by job.
 * A notification fills every channel of its job and no other; being full already is no obstacle.
 */
module Broker {
  class Channel {
    var full: bool

    constructor ()
      ensures !full
    {
      full := false;
    }
  }

  class Broker {
    var subs: map<string, set<Channel>>

    constructor ()
      ensures Valid() && subs == map[]
    {
      subs := map[];
    }

    /** A job is listed only while someone subscribes to it, and a channel belongs to one job. */
    ghost predicate Valid()
      reads this
    {
      && (forall id :: id in subs ==> subs[id] != {})
      && (forall id, other :: id in subs && other in subs && id != other ==> subs[id] !! subs[other])
    }

    ghost function Listening(id: string): set<Channel>
      reads this
    {
      if id in subs then subs[id] else {}
    }

    ghost function All(): set<Channel>
      reads this
    {
      set id, ch | id in subs && ch in subs[id] :: ch
    }

    method Subscribe(id: string) returns (ch: Channel)
      requires Valid()
      modifies this
      ensures Valid() && fresh(ch) && !ch.full
      ensures Listening(id) == old(Listening(id)) + {ch}
      ensures forall other :: other != id ==> Listening(other) == old(Listening(other))
    {
      ch := new Channel();
      if id !in subs {
        subs := subs[id := {}];
      }
      subs := subs[id := subs[id] + {ch}];
    }

    /** Unsubscribing twice, or after the job's entry is gone, does nothing. */
    method Unsubscribe(id: string, ch: Channel)
      requires Valid()
      modifies this
      ensures Valid()
      ensures Listening(id) == old(Listening(id)) - {ch}
      ensures forall other :: other != id ==> Listening(other) == old(Listening(other))
    {
      if id in subs {
        subs := subs[id := subs[id] - {ch}];
        if |subs[id]| == 0 {
          subs := subs - {id};
        }
      }
    }

    /** Coalescing: afterwards exactly the job's own channels are full in addition to those that were. */
    method Notify(id: string)
      requires Valid()
      modifies Listening(id)
      ensures forall ch :: ch in Listening(id) ==> ch.full
    {
      var rest := if id in subs then subs[id] else {};
      while rest != {}
        invariant rest <= Listening(id)
        invariant forall ch :: ch in Listening(id) - rest ==> ch.full
        decreases |rest|
      {
        var ch :| ch in rest;
        if !ch.full {
          ch.full := true;
        }
        rest := rest - {ch};
      }
    }
  }

  /** A subscriber's receive: it blocks while the channel is empty, and empties it. */
  method Receive(ch: Channel)
    requires ch.full
    modifies ch
    ensures !ch.full
  {
    ch.full := false;
  }

  /** However many notifications arrive between two receives, the subscriber is woken once and misses none. */
  method SignalsCoalesce(broker: Broker, id: string, ch: Channel, other: Channel, times: nat)
    requires broker.Valid() && times > 0
    requires ch in broker.Listening(id) && other in broker.All() && other !in broker.Listening(id)
    modifies broker.Listening(id)
    ensures !ch.full && other.full == old(other.full)
  {
    var i := 0;
    while i < times
      invariant i <= times && broker.subs == old(broker.subs)
      invariant i > 0 ==> ch.full
      invariant other.full == old(other.full)
    {
      broker.Notify(id);
      i := i + 1;
    }
    Receive(ch);
  }
}
