/**
 The part of `Hub` that answers signals (internal/chat/hub.go), in its own form: a `Ring` object and
 the `LastSeen` map, updated in place. Each method is proved against its function in module Gossip.
 Redis itself is not part of this model: `OnJoin` reports whether to stamp and to announce.
 */
module Keeper {
  import opened RingSpec
  import opened HashRing
  import Gossip

  class RingKeeper {
    const self: ServerId
    const ring: Ring
    var lastSeen: map<ServerId, int>

    ghost predicate Valid()
      reads this, ring
    {
      ring.Valid()
    }

    ghost function View(): Gossip.Keeper
      reads this, ring
    {
      Gossip.Keeper(ring.View(), lastSeen)
    }

    constructor (layout: Layout, self: ServerId)
      ensures Valid() && fresh(ring) && ring.layout == layout && this.self == self
      ensures View() == Gossip.Booted(layout, self)
    {
      this.self := self;
      var r := new Ring(layout);
      ring := r;
      lastSeen := map[];
      new;
      var _ := ring.Add(self);
    }

    /** ListenToRedis on "JOIN:", up to the `Ring.Add`. */
    method OnJoin(newID: ServerId) returns (added: bool)
      requires Valid()
      modifies ring
      ensures Valid()
      ensures (View(), added) == Gossip.HearJoin(ring.layout, self, old(View()), newID)
    {
      added := false;
      if newID != self {
        added := ring.Add(newID);
      }
    }

    /** The JOIN case with nothing in between: a newcomer is added, stamped and to be answered. */
    method HandleJoin(newID: ServerId, now: int) returns (answer: bool)
      requires Valid()
      modifies this`lastSeen, ring
      ensures Valid()
      ensures var (k, added) := Gossip.HearJoin(ring.layout, self, old(View()), newID);
              answer == added && View() == if added then Gossip.Stamped(k, newID, now) else k
    {
      answer := OnJoin(newID);
      if answer {
        lastSeen := lastSeen[newID := now];
      }
    }

    /** ListenToRedis on "LEAVE:". The stamp of the departed server stays behind. */
    method OnLeave(newID: ServerId)
      requires Valid()
      modifies ring
      ensures Valid()
      ensures View() == Gossip.HearLeave(ring.layout, self, old(View()), newID)
    {
      if newID != self {
        var _ := ring.Remove(newID);
      }
    }

    /** The watcher's pass over `LastSeen`, in whatever order the map yields its keys; deleting the
        current key while ranging is allowed. */
    method WatcherPass(now: int) returns (ghost order: seq<ServerId>)
      requires Valid()
      modifies this`lastSeen, ring
      ensures Valid() && Gossip.ListsEntries(old(View()), order)
      ensures View() == Gossip.VisitAll(ring.layout, old(View()), now, order)
    {
      order := [];
      var todo := lastSeen.Keys;
      while todo != {}
        invariant Valid() && View() == Gossip.VisitAll(ring.layout, old(View()), now, order)
        invariant todo <= old(lastSeen).Keys
        invariant forall id | id in todo :: id in lastSeen && id !in order
        invariant forall id :: id in old(lastSeen) <==> id in todo || id in order
        invariant forall i, j | 0 <= i < j < |order| :: order[i] != order[j]
        decreases todo
      {
        var serverID :| serverID in todo;
        todo := todo - {serverID};
        ghost var visited := order;
        order := visited + [serverID];
        assert order[..|order| - 1] == visited;
        if now - lastSeen[serverID] > Gossip.TTL {
          var _ := ring.Remove(serverID);
          lastSeen := lastSeen - {serverID};
        }
      }
    }
  }
}
