/**
 The `Hub` of legacy/challenge-7/chat.go in its own form. Each method is one case of `Run`, proved
 against the step of module Snapshot of which it is the code. Writing to the log and closing the
 connection are not part of this model.
 */
module LegacyHub {
  import opened Snapshot

  /** The clients a fan-out to `clients` finds with a full channel. */
  function Slow(h: Snapshot.Hub, clients: set<Client>): set<Client> {
    set c | c in clients && !HasSpace(h, c)
  }

  lemma OneMoreSend(h: Snapshot.Hub, clients: set<Client>, c: Client, m: Message)
    requires c in h.send && c !in clients
    ensures SentTo(h, clients + {c}, m) ==
            if HasSpace(h, c) then Put(SentTo(h, clients, m), c, m) else SentTo(h, clients, m)
    ensures Slow(h, clients + {c}) == Slow(h, clients) + if HasSpace(h, c) then {} else {c}
    ensures Queue(SentTo(h, clients, m), c) == Queue(h, c)
  {
    assert SentTo(h, clients, m).send[c] == h.send[c];
  }

  class Hub {
    var clients: map<string, Client>
    var history: seq<Message>
    var send: map<Client, seq<Message>>
    var closed: set<Client>

    ghost function View(): Snapshot.Hub
      reads this
    {
      Snapshot.Hub(clients, history, send, closed)
    }

    /** Clients are filed under their own names, each with an open channel; a channel closed was one. */
    ghost predicate Valid()
      reads this
    {
      && |history| <= DEPTH && closed <= send.Keys
      && forall n | n in clients :: clients[n].name == n && clients[n] in send && clients[n] !in closed
    }

    constructor ()
      ensures Valid() && View() == NEW_HUB
    {
      clients, history, send, closed := map[], [], map[], {};
    }

    /** A send on an open channel with space left: it neither blocks nor panics. */
    method Send(client: Client, message: Message)
      requires client in send && client !in closed && |send[client]| < CAPACITY
      modifies this`send
      ensures View() == Put(old(View()), client, message)
    {
      send := send[client := send[client] + [message]];
    }

    method CleanupClient(c: Client)
      requires Valid()
      modifies this`clients, this`closed
      ensures Valid() && View() == Dismissed(old(View()), c.name)
    {
      if c.name in clients {
        var client := clients[c.name];
        clients := clients - {c.name};
        closed := closed + {client};
      }
    }

    /** `client` comes with an empty channel of its own. */
    method Register(client: Client)
      requires Valid() && client !in send
      modifies this`clients, this`send, this`closed
      ensures Valid() && View() == Joined(old(View()), client)
    {
      send := send[client := []];
      if client.name in clients {
        closed := closed + {clients[client.name]};
        clients := clients - {client.name};
      }
      var i := 0;
      while i < |history|
        invariant 0 <= i <= |history|
        invariant send == old(send)[client := history[..i]]
        modifies this`send
      {
        Send(client, history[i]);
        assert history[..i + 1] == history[..i] + [history[i]];
        i := i + 1;
      }
      assert history[..|history|] == [] + history;
      clients := clients[client.name := client];
    }

    method Unregister(client: Client)
      requires Valid()
      modifies this`clients, this`closed
      ensures Valid() && View() == Dismissed(old(View()), client.name)
    {
      if client.name in clients {
        CleanupClient(client);
      }
    }

    method Quit()
      requires Valid()
      modifies this`clients, this`closed
      ensures Valid() && View() == Emptied(old(View()))
    {
      var todo := clients.Keys;
      while todo != {}
        invariant Valid() && clients.Keys == todo <= old(clients).Keys
        invariant forall n | n in todo :: clients[n] == old(clients)[n]
        invariant closed == old(closed) + set n | n in old(clients).Keys - todo :: old(clients)[n]
        decreases todo
      {
        var name :| name in todo;
        assert clients[name].name == name;
        CleanupClient(clients[name]);
        todo := todo - {name};
      }
      assert (set n | n in old(clients).Keys :: old(clients)[n]) == old(clients).Values;
    }

    /** Chat, system and user-list messages: non-blocking sends, in whatever order the map yields the
        clients. `slow` are those to be unregistered. */
    method Announce(message: Message) returns (slow: set<Client>)
      requires Valid()
      modifies this`send
      ensures Valid() && View() == FannedOut(old(View()), message)
      ensures slow == Slow(old(View()), clients.Values)
    {
      slow := {};
      ghost var h := View();
      var all := clients.Values;   // each client is in the map once, under its own name
      assert forall c | c in all :: c in h.send && c !in h.closed;
      var todo := all;
      while todo != {}
        invariant todo <= all && View() == SentTo(h, all - todo, message)
        invariant slow == Slow(h, all - todo)
        decreases todo
        modifies this`send
      {
        var client :| client in todo;
        OneMoreSend(h, all - todo, client, message);
        assert all - (todo - {client}) == all - todo + {client};
        if |send[client]| < CAPACITY {
          Send(client, message);
        } else {
          slow := slow + {client};
        }
        todo := todo - {client};
      }
      assert all - {} == all;
    }

    method Whisper(message: Message)
      requires Valid() && message.kind.Private?
      requires NameHasSpace(View(), message.sender) && NameHasSpace(View(), message.target)
      modifies this`send
      ensures Valid() && View() == Handled(old(View()), message)
    {
      if message.sender in clients {
        Send(clients[message.sender], message);
      }
      if message.target != message.sender {
        if message.target in clients {
          Send(clients[message.target], message);
        }
      }
    }

    /** The Broadcast case. */
    method Handle(message: Message) returns (slow: set<Client>)
      requires Valid()
      requires message.kind.Private? ==> NameHasSpace(View(), message.sender) && NameHasSpace(View(), message.target)
      modifies this`send, this`history
      ensures Valid() && View() == Handled(old(View()), message)
      ensures slow == if message.kind.Private? || message.kind.Unknown? then {} else Slow(old(View()), clients.Values)
    {
      slow := {};
      if message.kind.Private? {
        Whisper(message);
      } else if !message.kind.Unknown? {
        slow := Announce(message);
        if message.kind.Chat? {
          history := history + [message];
          if |history| > DEPTH {
            history := history[1..];
          }
        }
      }
    }
  }
}
