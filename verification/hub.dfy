/**
 The `Hub` of internal/chat/hub.go in its own form: maps updated in place by the methods its main loop
 calls, each run here without interference and proved against the critical sections of module
 Sessions, which is where interference is treated. Redis sets and the log are not part of this model.
 */
module ChatHub {
  import opened S = Sessions

  type Payload = string

  /** What a non-blocking send of `p` to each of `clients` does to their buffers. */
  function Sent(send: map<Client, seq<Payload>>, clients: set<Client>, p: Payload): map<Client, seq<Payload>> {
    map c | c in send :: if c in clients && |send[c]| < 256 then send[c] + [p] else send[c]
  }

  /** Those whose buffers have no space for it. */
  function Slow(send: map<Client, seq<Payload>>, clients: set<Client>): set<Client> {
    set c | c in clients && c in send && |send[c]| >= 256
  }

  lemma OneMoreSent(send: map<Client, seq<Payload>>, clients: set<Client>, c: Client, p: Payload)
    requires c in send && c !in clients
    ensures Sent(send, clients, p).Keys == send.Keys && Sent(send, clients, p)[c] == send[c]
    ensures var sent := Sent(send, clients, p);
            Sent(send, clients + {c}, p) == if |send[c]| < 256 then sent[c := send[c] + [p]] else sent
    ensures Slow(send, clients + {c}) == Slow(send, clients) + if |send[c]| < 256 then {} else {c}
  {
  }

  lemma RoomIsListed(m: Maps, room: string)
    requires Agree(m) && room in m.rooms
    ensures m.rooms[room] <= m.allClients.Values
  {
    forall c | c in m.rooms[room] ensures c in m.allClients.Values {
      assert m.allClients[c.name] == c;
    }
  }

  /** The maps once the session of `name`, if any, is gone. */
  function Vacated(m: Maps, name: string): Maps {
    if name in m.allClients then Forgotten(m, m.allClients[name]).0 else m
  }

  class Hub {
    var allClients: map<string, Client>
    var rooms: map<string, set<Client>>
    var activeSubs: set<string>
    var redisSubs: set<string>
    var once: map<Client, Phase>
    var send: map<Client, seq<Payload>>

    ghost function View(): Maps
      reads this
    {
      Maps(allClients, rooms, activeSubs)
    }

    /** No cleanup is under way. */
    ghost predicate Quiet()
      reads this
    {
      forall c | c in once :: once[c].Closed?
    }

    /** The maps agree; whoever is in them has a channel, and has not been cleaned up. */
    ghost predicate Valid()
      reads this
    {
      && Quiet() && Agree(View())
      && forall c | c in allClients.Values :: c !in once && c in send
    }

    /** A client made just now. */
    ghost predicate IsNew(c: Client)
      reads this
    {
      c !in once && c !in send
    }

    constructor ()
      ensures Valid() && View() == NO_SESSIONS && redisSubs == {} && once == map[] && send == map[]
    {
      allClients, rooms, activeSubs, redisSubs, once, send := map[], map[], {}, {}, map[], map[];
    }

    /** The locked block of `cleanupClient`. */
    method ForgetClient(c: Client) returns (shouldUnsubscribe: bool)
      modifies this`allClients, this`rooms, this`activeSubs
      ensures View() == Forgotten(old(View()), c).0 && shouldUnsubscribe == Forgotten(old(View()), c).1
    {
      shouldUnsubscribe := false;
      if c.room in rooms {
        rooms := rooms[c.room := rooms[c.room] - {c}];
        if rooms[c.room] == {} {
          assert rooms - {c.room} == old(rooms) - {c.room};
          rooms := rooms - {c.room};
          activeSubs := activeSubs - {c.room};
          shouldUnsubscribe := true;
        }
      }
      if c.name in allClients && allClients[c.name] == c {
        allClients := allClients - {c.name};
      }
    }

    method CleanupClient(c: Client)
      requires Valid()
      modifies this`allClients, this`rooms, this`activeSubs, this`redisSubs, this`once
      ensures Valid() && once == old(once)[c := Closed]
      ensures c in old(once) ==> View() == old(View()) && redisSubs == old(redisSubs)
      ensures c !in old(once) ==>
                var (m, unsubscribe) := Forgotten(old(View()), c);
                View() == m && redisSubs == if unsubscribe then old(redisSubs) - {c.room} else old(redisSubs)
    {
      if c in once {
        return;
      }
      ForgottenAgree(View(), c);
      var shouldUnsubscribe := ForgetClient(c);
      if shouldUnsubscribe {
        redisSubs := redisSubs - {c.room};
      }
      once := once[c := Closed];
    }

    method ManageSubscription(roomID: string)
      modifies this`activeSubs, this`redisSubs
      ensures View() == Managed(old(View()), roomID)
      ensures redisSubs == if IsVacant(View(), roomID) && roomID in old(activeSubs) then old(redisSubs) - {roomID}
                           else old(redisSubs)
    {
      if roomID !in rooms || rooms[roomID] == {} {
        if roomID in activeSubs {
          redisSubs := redisSubs - {roomID};
          activeSubs := activeSubs - {roomID};
        }
      }
    }

    /** The Register case of `Run`: the name's former session is cleaned up first. */
    method Register(client: Client)
      requires Valid() && IsNew(client)
      modifies this
      ensures Valid()
      ensures View() == Inserted(Vacated(old(View()), client.name), client)
      ensures client.name in old(allClients) ==> once == old(once)[old(allClients)[client.name] := Closed]
      ensures client.name !in old(allClients) ==> once == old(once)
      ensures send == old(send)[client := []]
      ensures old(activeSubs) == old(redisSubs) ==> activeSubs == redisSubs
    {
      assert client !in allClients.Values;
      Vacate(client.name);
      Enter(client);
    }

    method Enter(client: Client)
      requires Valid() && IsNew(client) && client.name !in allClients
      modifies this`allClients, this`rooms, this`activeSubs, this`redisSubs, this`send
      ensures Valid() && View() == Inserted(old(View()), client) && send == old(send)[client := []]
      ensures old(activeSubs) == old(redisSubs) ==> activeSubs == redisSubs
    {
      InsertedAgree(View(), client);
      InsertClient(client);
    }

    method Vacate(name: string)
      requires Valid()
      modifies this`allClients, this`rooms, this`activeSubs, this`redisSubs, this`once
      ensures Valid() && name !in allClients
      ensures View() == Vacated(old(View()), name)
      ensures name in old(allClients) ==> once == old(once)[old(allClients)[name] := Closed]
      ensures name !in old(allClients) ==> once == old(once)
      ensures old(activeSubs) == old(redisSubs) ==> activeSubs == redisSubs
    {
      if name in allClients {
        var oldClient := allClients[name];
        assert oldClient in allClients.Values && oldClient.name == name;
        CleanupClient(oldClient);
      }
    }

    /** Its locked block. The client comes with an empty channel. */
    method InsertClient(client: Client)
      modifies this`allClients, this`rooms, this`activeSubs, this`redisSubs, this`send
      ensures View() == Inserted(old(View()), client) && send == old(send)[client := []]
      ensures redisSubs == if client.room in old(activeSubs) then old(redisSubs) else old(redisSubs) + {client.room}
    {
      send := send[client := []];
      if client.room !in activeSubs {
        redisSubs := redisSubs + {client.room};
        activeSubs := activeSubs + {client.room};
      }
      if client.room !in rooms {
        rooms := rooms[client.room := {}];
      }
      allClients := allClients[client.name := client];
      rooms := rooms[client.room := rooms[client.room] + {client}];
    }

    /** The Unregister case of `Run`. For a client that is already cleaned up it changes nothing. */
    method Unregister(client: Client)
      requires Valid()
      modifies this`allClients, this`rooms, this`activeSubs, this`redisSubs, this`once
      ensures Valid() && once == old(once)[client := Closed]
      ensures client in old(once) ==> View() == old(View()) && redisSubs == old(redisSubs)
      ensures client !in old(once) ==> View() == Forgotten(old(View()), client).0
    {
      CleanupClient(client);
      ManagedAgree(View(), client.room);
      ManageSubscription(client.room);
    }

    /** The Quit case of `Run`: range over `AllClients`, cleaning each up while the range goes on. */
    method Quit()
      requires Valid()
      modifies this`allClients, this`rooms, this`activeSubs, this`redisSubs, this`once
      ensures Valid() && View() == NO_SESSIONS
      ensures forall c | c in old(allClients).Values :: c in once
    {
      var todo := allClients.Keys;
      while todo != {}
        invariant Valid()
        invariant allClients.Keys <= todo <= old(allClients).Keys
        invariant forall n | n in allClients :: allClients[n] == old(allClients)[n]
        invariant forall n | n in old(allClients) && n !in allClients :: old(allClients)[n] in once
        decreases todo
      {
        var name :| name in todo;
        todo := todo - {name};
        if name in allClients {
          assert allClients[name] in allClients.Values && allClients[name].name == name;
          CleanupClient(allClients[name]);
        }
      }
      NoClientsNoRooms(View());
    }

    /** The fan-out of a message from Redis to a room. `slow` are the clients whose buffer is full. */
    method Deliver(roomID: string, payload: Payload) returns (slow: set<Client>)
      requires Valid()
      modifies this`send
      ensures Valid()
      ensures roomID !in rooms ==> send == old(send) && slow == {}
      ensures roomID in rooms ==> rooms[roomID] <= old(send).Keys
      ensures roomID in rooms ==> send == Sent(old(send), rooms[roomID], payload)
      ensures roomID in rooms ==> slow == Slow(old(send), rooms[roomID])
    {
      if roomID !in rooms {
        return {};
      }
      RoomIsListed(View(), roomID);
      slow := FanOut(rooms[roomID], payload);
    }

    /** Non-blocking sends, in whatever order the map yields the clients. */
    method FanOut(clients: set<Client>, payload: Payload) returns (slow: set<Client>)
      requires clients <= send.Keys
      modifies this`send
      ensures send == Sent(old(send), clients, payload) && slow == Slow(old(send), clients)
    {
      slow := {};
      ghost var before := send;
      var todo := clients;
      while todo != {}
        invariant todo <= clients
        invariant send == Sent(before, clients - todo, payload) && slow == Slow(before, clients - todo)
        decreases todo
      {
        var client :| client in todo;
        OneMoreSent(before, clients - todo, client, payload);
        assert clients - (todo - {client}) == clients - todo + {client};
        if |send[client]| < CAPACITY {
          send := send[client := send[client] + [payload]];
        } else {
          slow := slow + {client};
        }
        todo := todo - {client};
      }
      assert clients - {} == clients;
    }
  }
}
