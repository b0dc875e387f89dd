/**
 The sessions of one hub (internal/chat/hub.go): `Run` registering, unregistering, fanning out and
 quitting, while other goroutines clean clients up at the same time. Each action is one critical
 section under the hub's RWMutex, or one step outside it; actions interleave freely.
 */
module Sessions {

  /** A `*Client`. Two pointers differ in `id`; name and room never change. */
  datatype Client = Client(id: nat, name: string, room: string)

  /** The capacity of a client's `Send` channel. */
  const CAPACITY := 256

  datatype Maps = Maps(allClients: map<string, Client>, rooms: map<string, set<Client>>, activeSubs: set<string>)

  const NO_SESSIONS := Maps(map[], map[], {})

  /** How far `cleanupClient` of a client has come: its `once` not taken, taken, the client out of the
      maps (with Redis still to be unsubscribed or not), its `Send` channel closed. */
  datatype Phase = Idle | Begun | Removed(unsubscribe: bool) | Closed

  /** Where the goroutine of `Run` stands. */
  datatype Loop =
    | Ready
    | Evicting(newcomer: Client, former: Client)      // waiting for cleanupClient(former)
    | Inserting(newcomer: Client)
    | Cleaning(client: Client)                        // waiting for cleanupClient(client)
    | FanOut(room: string, pending: set<Client>)      // sending to a room, read lock held
    | Direct(target: Client)                          // about to send, lock released
    | Quitting(snapshot: set<Client>)
    | Stopped

  datatype Hub = Hub(maps: Maps, redisSubs: set<string>, once: map<Client, Phase>, registered: set<Client>, loop: Loop)

  const NEW_HUB := Hub(NO_SESSIONS, {}, map[], {}, Ready)

  datatype Action =
    | TakeRegister(c: Client) | Evicted | Insert
    | TakeUnregister(c: Client) | Cleaned
    | Begin(c: Client) | Forget(c: Client) | Unsubscribe(c: Client) | Close(c: Client)
    | TakeRoomMessage(room: string) | Send(c: Client) | EndFanOut
    | TakePrivate(name: string) | SendDirect
    | SendAside(c: Client)      // the replay for `c`, or its ReadPump answering it
    | TakeQuit | Stop

  // ---------- critical sections ----------

  /** The locked block of `cleanupClient`, and whether the room has to be unsubscribed. */
  function Forgotten(m: Maps, c: Client): (Maps, bool) {
    var all := if c.name in m.allClients && m.allClients[c.name] == c then m.allClients - {c.name} else m.allClients;
    if c.room !in m.rooms then (m.(allClients := all), false)
    else if m.rooms[c.room] - {c} == {} then
      (Maps(all, m.rooms - {c.room}, m.activeSubs - {c.room}), true)
    else
      (Maps(all, m.rooms[c.room := m.rooms[c.room] - {c}], m.activeSubs), false)
  }

  /** The locked block of a registration. */
  function Inserted(m: Maps, c: Client): Maps {
    Maps(m.allClients[c.name := c],
         m.rooms[c.room := (if c.room in m.rooms then m.rooms[c.room] else {}) + {c}],
         m.activeSubs + {c.room})
  }

  predicate IsVacant(m: Maps, room: string) {
    room !in m.rooms || m.rooms[room] == {}
  }

  /** `manageSubscription` */
  function Managed(m: Maps, room: string): Maps {
    if IsVacant(m, room) then m.(activeSubs := m.activeSubs - {room}) else m
  }

  // ---------- steps ----------

  function PhaseOf(h: Hub, c: Client): Phase {
    if c in h.once then h.once[c] else Idle
  }

  /** Some goroutine is about to call `cleanupClient(c)`: the loop itself, or one that has found `c` in
      `AllClients`. */
  predicate Wanted(h: Hub, c: Client) {
    || c in h.maps.allClients.Values
    || h.loop == Cleaning(c)
    || (h.loop.Evicting? && h.loop.former == c)
  }

  ghost predicate Enabled(h: Hub, a: Action) {
    match a
    case TakeRegister(c) => h.loop.Ready? && c !in h.registered
    case Evicted => h.loop.Evicting? && PhaseOf(h, h.loop.former).Closed?
    case Insert => h.loop.Inserting?
    case TakeUnregister(c) => h.loop.Ready?
    case Cleaned => h.loop.Cleaning? && PhaseOf(h, h.loop.client).Closed?
    case Begin(c) => PhaseOf(h, c).Idle? && Wanted(h, c)
    case Forget(c) => PhaseOf(h, c).Begun? && !h.loop.FanOut?      // the write lock waits for the readers
    case Unsubscribe(c) => PhaseOf(h, c) == Removed(true)
    case Close(c) => PhaseOf(h, c) == Removed(false)
    case TakeRoomMessage(room) => h.loop.Ready?
    case Send(c) => h.loop.FanOut? && c in h.loop.pending
    case EndFanOut => h.loop.FanOut? && h.loop.pending == {}
    case TakePrivate(name) => h.loop.Ready? && name in h.maps.allClients
    case SendDirect => h.loop.Direct?
    case SendAside(c) => true
    case TakeQuit => h.loop.Ready?
    case Stop => h.loop.Quitting? && forall c | c in h.loop.snapshot :: PhaseOf(h, c).Closed?
  }

  ghost function Next(h: Hub, a: Action): Hub
    requires Enabled(h, a)
  {
    match a
    case TakeRegister(c) =>
      h.(loop := if c.name in h.maps.allClients then Evicting(c, h.maps.allClients[c.name]) else Inserting(c))
    case Evicted => h.(loop := Inserting(h.loop.newcomer))
    case Insert =>
      var c := h.loop.newcomer;
      h.(maps := Inserted(h.maps, c), registered := h.registered + {c}, loop := Ready,
         redisSubs := if c.room in h.maps.activeSubs then h.redisSubs else h.redisSubs + {c.room})
    case TakeUnregister(c) => h.(loop := Cleaning(c))
    case Cleaned =>
      var room := h.loop.client.room;
      h.(maps := Managed(h.maps, room), loop := Ready,
         redisSubs := if IsVacant(h.maps, room) && room in h.maps.activeSubs then h.redisSubs - {room} else h.redisSubs)
    case Begin(c) => h.(once := h.once[c := Begun])
    case Forget(c) =>
      h.(maps := Forgotten(h.maps, c).0, once := h.once[c := Removed(Forgotten(h.maps, c).1)])
    case Unsubscribe(c) => h.(redisSubs := h.redisSubs - {c.room}, once := h.once[c := Removed(false)])
    case Close(c) => h.(once := h.once[c := Closed])
    case TakeRoomMessage(room) => h.(loop := if room in h.maps.rooms then FanOut(room, h.maps.rooms[room]) else Ready)
    case Send(c) => h.(loop := FanOut(h.loop.room, h.loop.pending - {c}))
    case EndFanOut => h.(loop := Ready)
    case TakePrivate(name) => h.(loop := Direct(h.maps.allClients[name]))
    case SendDirect => h.(loop := Ready)
    case SendAside(c) => h
    case TakeQuit => h.(loop := Quitting(h.maps.allClients.Values))
    case Stop => h.(loop := Stopped)
  }

  /** The pumps start before the registration is sent, so an Unregister can be taken before the
      Register of the same client. An orderly step is not of that kind. */
  predicate Orderly(h: Hub, a: Action) {
    a.TakeUnregister? ==> a.c in h.registered
  }

  ghost predicate Leads(run: seq<Hub>, actions: seq<Action>, i: nat)
    requires i < |actions| && |run| == |actions| + 1
  {
    Enabled(run[i], actions[i]) && run[i + 1] == Next(run[i], actions[i])
  }

  ghost predicate IsRun(run: seq<Hub>, actions: seq<Action>) {
    && |run| == |actions| + 1
    && forall i {:trigger Leads(run, actions, i)} | 0 <= i < |actions| :: Leads(run, actions, i)
  }

  ghost predicate IsOrderlyRun(run: seq<Hub>, actions: seq<Action>) {
    && IsRun(run, actions) && run[0] == NEW_HUB
    && forall i {:trigger Orderly(run[i], actions[i])} | 0 <= i < |actions| :: Orderly(run[i], actions[i])
  }

  // ---------- what every orderly step keeps ----------

  /** The three maps agree: `AllClients` and the rooms hold the same clients, under their own names and
      rooms, no room is empty, and exactly the rooms have an active subscription. */
  ghost predicate Agree(m: Maps) {
    && (forall r, c | r in m.rooms && c in m.rooms[r] ::
          c.room == r && c.name in m.allClients && m.allClients[c.name] == c)
    && (forall n | n in m.allClients ::
          var c := m.allClients[n]; c.name == n && c.room in m.rooms && c in m.rooms[c.room])
    && (forall r | r in m.rooms :: m.rooms[r] != {})
    && m.activeSubs == m.rooms.Keys
  }

  /** No cleanup of the client has got to the maps. Its channel is open then, and for a while after. */
  predicate IsUnforgotten(p: Phase) {
    p.Idle? || p.Begun?
  }

  ghost predicate LoopOk(h: Hub) {
    match h.loop
    case Evicting(n, former) =>
      && n !in h.registered && former in h.registered && former.name == n.name
      && (n.name in h.maps.allClients ==> h.maps.allClients[n.name] == former)
    case Inserting(n) => n !in h.registered && n.name !in h.maps.allClients
    case Cleaning(c) => c in h.registered
    case Direct(c) => c in h.registered
    case FanOut(r, pending) => r in h.maps.rooms && pending <= h.maps.rooms[r]
    case Quitting(snapshot) => h.maps.allClients.Values <= snapshot <= h.registered
    case Stopped => h.maps.allClients == map[]
    case _ => true
  }

  ghost predicate Inv(h: Hub) {
    && Agree(h.maps)
    && (forall c | c in h.maps.allClients.Values :: c in h.registered && IsUnforgotten(PhaseOf(h, c)))
    && (forall c | c in h.once :: c in h.registered)
    && LoopOk(h)
  }

  lemma ForgottenAgree(m: Maps, c: Client)
    requires Agree(m)
    ensures var m' := Forgotten(m, c).0;
            && Agree(m')
            && m'.allClients.Values == m.allClients.Values - {c}
            && (forall n | n in m'.allClients :: n in m.allClients && m'.allClients[n] == m.allClients[n])
            && (Forgotten(m, c).1 ==> c.room !in m'.rooms)
  {
    var m' := Forgotten(m, c).0;
    forall n | n in m'.allClients
      ensures var d := m'.allClients[n]; d != c && d.name == n && d.room in m'.rooms && d in m'.rooms[d.room]
    {
      var d := m.allClients[n];
      assert d in m.rooms[d.room];
      assert d != c;
      assert d.room == c.room ==> d in m.rooms[c.room] - {c};
    }
    forall x | x in m.allClients.Values && x != c ensures x in m'.allClients.Values {
      var n :| n in m.allClients && m.allClients[n] == x;
      assert n in m'.allClients && m'.allClients[n] == x;
    }
  }

  lemma InsertedAgree(m: Maps, c: Client)
    requires Agree(m) && c.name !in m.allClients
    ensures Agree(Inserted(m, c)) && Inserted(m, c).allClients.Values == m.allClients.Values + {c}
  {
    var m' := Inserted(m, c);
    forall x | x in m.allClients.Values ensures x in m'.allClients.Values {
      var n :| n in m.allClients && m.allClients[n] == x;
      assert m'.allClients[n] == x;
    }
    assert m'.allClients[c.name] == c;
  }

  lemma ManagedAgree(m: Maps, room: string)
    requires Agree(m)
    ensures Managed(m, room) == m
  {
  }

  /** `manageSubscription` takes away the entry of the room, and only if nobody is in it. */
  lemma ManagedDrops(m: Maps, room: string, r: string)
    ensures r in Managed(m, room).activeSubs <==>
              r in m.activeSubs && !(r == room && (r in m.rooms ==> m.rooms[r] == {}))
    ensures Managed(m, room).allClients == m.allClients && Managed(m, room).rooms == m.rooms
  {
  }

  lemma NoValuesNoKeys(m: map<string, Client>)
    ensures m != map[] ==> m.Values != {}
  {
    if m != map[] {
      var n :| n in m;
      assert m[n] in m.Values;
    }
  }

  lemma StepKeepsInv(h: Hub, a: Action)
    requires Inv(h) && Enabled(h, a) && Orderly(h, a)
    ensures Inv(Next(h, a))
  {
    match a {
      case Insert => InsertedAgree(h.maps, h.loop.newcomer);
      case Cleaned => ManagedAgree(h.maps, h.loop.client.room);
      case Forget(c) => ForgottenAgree(h.maps, c);
      case Evicted =>
        var former := h.loop.former;
        assert former !in h.maps.allClients.Values;
      case Stop =>
        NoValuesNoKeys(h.maps.allClients);
      case _ =>
    }
  }

  lemma {:induction false} RunKeepsInv(run: seq<Hub>, actions: seq<Action>, n: nat)
    requires IsOrderlyRun(run, actions) && n < |run|
    ensures Inv(run[n])
  {
    if n > 0 {
      RunKeepsInv(run, actions, n - 1);
      assert Leads(run, actions, n - 1) && Orderly(run[n - 1], actions[n - 1]);
      StepKeepsInv(run[n - 1], actions[n - 1]);
    }
  }

  // ---------- what follows ----------

  /** At most one live session per name. */
  lemma OneSessionPerName(h: Hub, r: string, c: Client, r': string, c': Client)
    requires Inv(h) && r in h.maps.rooms && c in h.maps.rooms[r] && r' in h.maps.rooms && c' in h.maps.rooms[r']
    requires c.name == c'.name
    ensures c == c' && r == r'
  {
    assert h.maps.allClients[c.name] == c && h.maps.allClients[c'.name] == c';
  }

  /** Room fan-out never sends on a closed channel, however cleanups interleave with it. */
  lemma FanOutIsSafe(run: seq<Hub>, actions: seq<Action>, n: nat, c: Client)
    requires IsOrderlyRun(run, actions) && n < |actions| && actions[n] == Send(c)
    ensures IsUnforgotten(PhaseOf(run[n], c))
  {
    RunKeepsInv(run, actions, n);
    assert Leads(run, actions, n);
    assert c in run[n].maps.rooms[run[n].loop.room];
    assert run[n].maps.allClients[c.name] == c;
  }

  /** A fan-out under way: whom of the room it has still to send to. */
  lemma {:induction false} FanOutPending(run: seq<Hub>, actions: seq<Action>, m: nat, n: nat, c: Client)
    requires IsRun(run, actions) && m < n < |run| && actions[m].TakeRoomMessage?
    requires actions[m].room in run[m].maps.rooms && forall i | m < i < n :: actions[i] != EndFanOut
    ensures run[n].loop.FanOut?
    ensures c in run[n].loop.pending <==>
              c in run[m].maps.rooms[actions[m].room] && forall i | m < i < n :: actions[i] != Send(c)
    ensures (exists i | m < i < n :: actions[i] == Send(c)) ==> c in run[m].maps.rooms[actions[m].room]
    decreases n
  {
    assert Leads(run, actions, n - 1);
    if m < n - 1 {
      FanOutPending(run, actions, m, n - 1, c);
      assert (forall i | m < i < n :: actions[i] != Send(c)) <==>
             (forall i | m < i < n - 1 :: actions[i] != Send(c)) && actions[n - 1] != Send(c);
    }
  }

  /** From taking a room's message to the end of its fan-out exactly the clients that were in the room are sent
      to, whatever else happens meanwhile. */
  lemma FanOutReachesAll(run: seq<Hub>, actions: seq<Action>, m: nat, n: nat, c: Client)
    requires IsRun(run, actions) && m < n < |actions| && actions[m].TakeRoomMessage?
    requires actions[m].room in run[m].maps.rooms
    requires actions[n] == EndFanOut && forall i | m < i < n :: actions[i] != EndFanOut
    ensures (exists i | m < i < n :: actions[i] == Send(c)) <==> c in run[m].maps.rooms[actions[m].room]
  {
    FanOutPending(run, actions, m, n, c);
    assert Leads(run, actions, n);
  }

  /** And nobody twice. */
  lemma FanOutOnce(run: seq<Hub>, actions: seq<Action>, m: nat, i: nat, j: nat, c: Client)
    requires IsRun(run, actions) && m < i <= j < |actions| && actions[m].TakeRoomMessage?
    requires actions[m].room in run[m].maps.rooms && forall k | m < k < j :: actions[k] != EndFanOut
    requires actions[i] == actions[j] == Send(c)
    ensures i == j
  {
    FanOutPending(run, actions, m, j, c);
    assert Leads(run, actions, j);
  }

  /** Cleaned-up clients stay cleaned up. */
  lemma {:induction false} ClosedStays(run: seq<Hub>, actions: seq<Action>, m: nat, n: nat, c: Client)
    requires IsRun(run, actions) && m <= n < |run| && PhaseOf(run[m], c).Closed?
    ensures PhaseOf(run[n], c).Closed?
    decreases n
  {
    if m < n {
      ClosedStays(run, actions, m, n - 1, c);
      assert Leads(run, actions, n - 1);
    }
  }

  /** In every run, orderly or not, the `Send` channel of a client is closed at most once. */
  lemma ClosedOnce(run: seq<Hub>, actions: seq<Action>, m: nat, n: nat, c: Client)
    requires IsRun(run, actions) && m <= n < |actions| && actions[m] == actions[n] == Close(c)
    ensures m == n
  {
    assert Leads(run, actions, m) && Leads(run, actions, n);
    if m < n {
      ClosedStays(run, actions, m + 1, n, c);
    }
  }

  /** A session lives until its own cleanup begins: no late Unregister or kick of a session it replaced,
      and nothing that happens to other clients, takes it out of the maps. */
  lemma {:induction false} SessionStays(run: seq<Hub>, actions: seq<Action>, m: nat, n: nat, c: Client)
    requires IsOrderlyRun(run, actions) && m <= n < |run|
    requires c in run[m].maps.allClients.Values && PhaseOf(run[m], c).Idle?
    requires forall i | m <= i < n :: actions[i] != Begin(c)
    ensures PhaseOf(run[n], c).Idle?
    ensures c.name in run[n].maps.allClients && run[n].maps.allClients[c.name] == c
    ensures c.room in run[n].maps.rooms && c in run[n].maps.rooms[c.room]
    decreases n
  {
    RunKeepsInv(run, actions, n);
    if m < n {
      SessionStays(run, actions, m, n - 1, c);
      RunKeepsInv(run, actions, n - 1);
      assert Leads(run, actions, n - 1);
      SessionSurvives(run[n - 1], actions[n - 1], c);
    }
  }

  lemma SessionSurvives(h: Hub, a: Action, c: Client)
    requires Inv(h) && Enabled(h, a) && a != Begin(c) && PhaseOf(h, c).Idle?
    requires c.name in h.maps.allClients && h.maps.allClients[c.name] == c
    ensures PhaseOf(Next(h, a), c).Idle?
    ensures c.name in Next(h, a).maps.allClients && Next(h, a).maps.allClients[c.name] == c
  {
    if a.Forget? {
      ForgottenAgree(h.maps, a.c);
    } else if a.Cleaned? {
      ManagedAgree(h.maps, h.loop.client.room);
    }
  }

  /** Quit leaves all three maps empty. */
  lemma QuitEmpties(run: seq<Hub>, actions: seq<Action>, n: nat)
    requires IsOrderlyRun(run, actions) && n < |run| && run[n].loop.Stopped?
    ensures run[n].maps == NO_SESSIONS
  {
    RunKeepsInv(run, actions, n);
    NoClientsNoRooms(run[n].maps);
  }

  lemma NoClientsNoRooms(m: Maps)
    requires Agree(m)
    ensures m.rooms != map[] ==> m.allClients != map[]
  {
    if m.rooms != map[] {
      var r :| r in m.rooms;
      var c :| c in m.rooms[r];
      assert c.name in m.allClients;
    }
  }

  // ---------- where the guarantees end ----------

  /** Nobody is in a room whose cleanup has got to the maps, so everybody there can still be sent to. */
  ghost predicate RoomsIntact(h: Hub) {
    forall r, c | r in h.maps.rooms && c in h.maps.rooms[r] :: IsUnforgotten(PhaseOf(h, c))
  }

  /** A registration keeps it so exactly when the cleanup of the same client has not got to the maps before
      it. */
  lemma InsertIsSafeIff(h: Hub)
    requires RoomsIntact(h) && Enabled(h, Insert)
    ensures RoomsIntact(Next(h, Insert)) <==> IsUnforgotten(PhaseOf(h, h.loop.newcomer))
  {
    var c, h' := h.loop.newcomer, Next(h, Insert);
    assert PhaseOf(h', c) == PhaseOf(h, c);
    assert c in h'.maps.rooms[c.room];
    forall r, d | r in h'.maps.rooms && d in h'.maps.rooms[r] && d != c ensures IsUnforgotten(PhaseOf(h', d)) {
      assert r in h.maps.rooms && d in h.maps.rooms[r];
      assert PhaseOf(h', d) == PhaseOf(h, d);
    }
  }

  // ... of fan-out

  /** Clients are in their own rooms, intact, and are those a fan-out under way is about. */
  ghost predicate FanOutOk(h: Hub) {
    && RoomsIntact(h)
    && (forall r, c | r in h.maps.rooms && c in h.maps.rooms[r] :: c.room == r)
    && (h.loop.FanOut? ==> h.loop.room in h.maps.rooms && h.loop.pending <= h.maps.rooms[h.loop.room])
  }

  lemma ForgottenFanOut(h: Hub, c: Client)
    requires FanOutOk(h) && Enabled(h, Forget(c))
    ensures FanOutOk(Next(h, Forget(c)))
  {
    var h' := Next(h, Forget(c));
    forall r, d | r in h'.maps.rooms && d in h'.maps.rooms[r] ensures IsUnforgotten(PhaseOf(h', d)) && d.room == r {
      assert r in h.maps.rooms && d in h.maps.rooms[r] && IsUnforgotten(PhaseOf(h, d)) && d.room == r;
      assert d != c;
      assert PhaseOf(h', d) == PhaseOf(h, d);
    }
  }

  lemma StepKeepsFanOut(h: Hub, a: Action)
    requires FanOutOk(h) && Enabled(h, a)
    requires a.Insert? ==> IsUnforgotten(PhaseOf(h, h.loop.newcomer))
    ensures FanOutOk(Next(h, a))
  {
    if a.Insert? {
      InsertIsSafeIff(h);
    } else if a.Forget? {
      ForgottenFanOut(h, a.c);
    } else {
      var h' := Next(h, a);
      forall r, d | r in h'.maps.rooms && d in h'.maps.rooms[r] ensures IsUnforgotten(PhaseOf(h', d)) {
        assert IsUnforgotten(PhaseOf(h, d));
      }
    }
  }

  /** The registration, if the action is one, finds its client not yet cleaned up. */
  predicate InsertsInTime(h: Hub, a: Action) {
    a.Insert? ==> h.loop.Inserting? && IsUnforgotten(PhaseOf(h, h.loop.newcomer))
  }

  lemma {:induction false} RunKeepsFanOut(run: seq<Hub>, actions: seq<Action>, n: nat)
    requires IsRun(run, actions) && run[0] == NEW_HUB && n <= |actions|
    requires forall i | 0 <= i < n :: InsertsInTime(run[i], actions[i])
    ensures FanOutOk(run[n])
  {
    if n > 0 {
      RunKeepsFanOut(run, actions, n - 1);
      assert Leads(run, actions, n - 1);
      StepKeepsFanOut(run[n - 1], actions[n - 1]);
    }
  }

  /** In any run, orderly or not: while no registration comes after its client's cleanup has got to the maps,
      room fan-out never sends on a closed channel... */
  lemma FanOutIsSafeIfInsertsAre(run: seq<Hub>, actions: seq<Action>, n: nat, c: Client)
    requires IsRun(run, actions) && run[0] == NEW_HUB && n < |actions| && actions[n] == Send(c)
    requires forall i | 0 <= i < n :: InsertsInTime(run[i], actions[i])
    ensures IsUnforgotten(PhaseOf(run[n], c))
  {
    RunKeepsFanOut(run, actions, n);
    assert Leads(run, actions, n);
  }

  lemma ToClosed(run: seq<Hub>, actions: seq<Action>, c: Client) returns (run': seq<Hub>, actions': seq<Action>)
    requires IsRun(run, actions) && !IsUnforgotten(PhaseOf(run[|actions|], c))
    ensures IsRun(run', actions') && run <= run' && actions <= actions'
    ensures IsOrderlyRun(run, actions) ==> IsOrderlyRun(run', actions')
    ensures PhaseOf(run'[|actions'|], c).Closed?
    ensures run'[|actions'|].maps == run[|actions|].maps && run'[|actions'|].loop == run[|actions|].loop
    ensures run'[|actions'|].registered == run[|actions|].registered
  {
    run', actions' := run, actions;
    var h := run[|actions|];
    if PhaseOf(h, c) == Removed(true) {
      run', actions' := Extended(run', actions', Unsubscribe(c), Next(h, Unsubscribe(c)));
      h := Next(h, Unsubscribe(c));
    }
    if PhaseOf(h, c) == Removed(false) {
      run', actions' := Extended(run', actions', Close(c), Next(h, Close(c)));
    }
  }

  /** ... and if one does, the run can go on to do so. */
  lemma LateInsertBreaksFanOut(run: seq<Hub>, actions: seq<Action>)
      returns (run': seq<Hub>, actions': seq<Action>, c: Client)
    requires IsRun(run, actions) && Enabled(run[|actions|], Insert)
    requires !IsUnforgotten(PhaseOf(run[|actions|], run[|actions|].loop.newcomer))
    ensures IsRun(run', actions') && run <= run' && actions + [Insert] <= actions'
    ensures actions'[|actions'| - 1] == Send(c) && PhaseOf(run'[|actions'| - 1], c).Closed?
  {
    c := run[|actions|].loop.newcomer;
    var room := c.room;
    run', actions' := Extended(run, actions, Insert, Next(run[|actions|], Insert));
    run', actions' := ToClosed(run', actions', c);
    var h := run'[|actions'|];
    run', actions' := Extended(run', actions', TakeRoomMessage(room), Next(h, TakeRoomMessage(room)));
    h := Next(h, TakeRoomMessage(room));
    run', actions' := Extended(run', actions', Send(c), Next(h, Send(c)));
  }

  // ... of sends without the lock

  /** A channel that is open is closed from the step on that closes it. */
  lemma {:induction false} ClosedIff(run: seq<Hub>, actions: seq<Action>, m: nat, n: nat, c: Client)
    requires IsRun(run, actions) && m <= n < |run| && !PhaseOf(run[m], c).Closed?
    ensures PhaseOf(run[n], c).Closed? <==> exists i | m <= i < n :: actions[i] == Close(c)
    decreases n
  {
    if m < n {
      ClosedIff(run, actions, m, n - 1, c);
      assert Leads(run, actions, n - 1);
      assert (exists i | m <= i < n :: actions[i] == Close(c)) <==>
             (exists i | m <= i < n - 1 :: actions[i] == Close(c)) || actions[n - 1] == Close(c);
    }
  }

  /** What the replay or the read pump of a registered client sends meets a closed channel if and only if the
      channel has been closed since the registration. */
  lemma SideSendFailsIff(run: seq<Hub>, actions: seq<Action>, m: nat, n: nat)
    requires IsOrderlyRun(run, actions) && m < n < |actions| && actions[m] == Insert
    requires run[m].loop.Inserting? && actions[n] == SendAside(run[m].loop.newcomer)
    ensures PhaseOf(run[n], run[m].loop.newcomer).Closed?
            <==> exists i | m < i < n :: actions[i] == Close(run[m].loop.newcomer)
  {
    RunKeepsInv(run, actions, m);
    assert Leads(run, actions, m);
    ClosedIff(run, actions, m + 1, n, run[m].loop.newcomer);
  }

  /** A private message meets a closed channel if and only if the channel of its target has been closed between
      looking the target up and sending. */
  lemma PrivateSendFailsIff(run: seq<Hub>, actions: seq<Action>, m: nat, n: nat)
    requires IsOrderlyRun(run, actions) && m < n < |run| && actions[m].TakePrivate?
    requires forall i | m < i < n :: actions[i] != SendDirect
    ensures run[n].loop.Direct? && actions[m].name in run[m].maps.allClients
    ensures run[n].loop.target == run[m].maps.allClients[actions[m].name]
    ensures PhaseOf(run[n], run[n].loop.target).Closed?
            <==> exists i | m < i < n :: actions[i] == Close(run[n].loop.target)
  {
    RunKeepsInv(run, actions, m);
    assert Leads(run, actions, m);
    DirectStays(run, actions, m + 1, n);
    var target := run[n].loop.target;
    assert target in run[m].maps.allClients.Values;
    assert PhaseOf(run[m + 1], target) == PhaseOf(run[m], target);
    ClosedIff(run, actions, m + 1, n, target);
  }

  lemma {:induction false} DirectStays(run: seq<Hub>, actions: seq<Action>, m: nat, n: nat)
    requires IsRun(run, actions) && m <= n < |run| && run[m].loop.Direct?
    requires forall i | m <= i < n :: actions[i] != SendDirect
    ensures run[n].loop == run[m].loop
    decreases n
  {
    if m < n {
      DirectStays(run, actions, m, n - 1);
      assert Leads(run, actions, n - 1);
    }
  }

  /** Whoever is registered and has not been cleaned up is in `AllClients`. */
  ghost predicate Listed(h: Hub) {
    forall c | c in h.registered && IsUnforgotten(PhaseOf(h, c)) :: c in h.maps.allClients.Values
  }

  lemma StepKeepsListed(h: Hub, a: Action)
    requires Inv(h) && Listed(h) && Enabled(h, a) && Orderly(h, a)
    ensures Listed(Next(h, a))
  {
    match a {
      case Insert => InsertedAgree(h.maps, h.loop.newcomer);
      case Cleaned => ManagedAgree(h.maps, h.loop.client.room);
      case Forget(c) => ForgottenAgree(h.maps, c);
      case _ =>
    }
  }

  lemma {:induction false} RunKeepsListed(run: seq<Hub>, actions: seq<Action>, n: nat)
    requires IsOrderlyRun(run, actions) && n < |run|
    ensures Listed(run[n])
  {
    if n > 0 {
      RunKeepsListed(run, actions, n - 1);
      RunKeepsInv(run, actions, n - 1);
      assert Leads(run, actions, n - 1) && Orderly(run[n - 1], actions[n - 1]);
      StepKeepsListed(run[n - 1], actions[n - 1]);
    }
  }

  /** A kick can come at any time but during a fan-out, and close the channel of any registered client while
      the loop stays where it is. */
  lemma KickCloses(run: seq<Hub>, actions: seq<Action>, c: Client) returns (run': seq<Hub>, actions': seq<Action>)
    requires IsOrderlyRun(run, actions) && c in run[|actions|].registered && !run[|actions|].loop.FanOut?
    ensures IsOrderlyRun(run', actions') && run <= run' && actions <= actions'
    ensures PhaseOf(run'[|actions'|], c).Closed? && run'[|actions'|].loop == run[|actions|].loop
    ensures run'[|actions'|].registered == run[|actions|].registered
  {
    run', actions' := run, actions;
    var h := run[|actions|];
    RunKeepsListed(run, actions, |actions|);
    if PhaseOf(h, c).Idle? {
      run', actions' := Extended(run', actions', Begin(c), Next(h, Begin(c)));
      h := Next(h, Begin(c));
    }
    if PhaseOf(h, c).Begun? {
      run', actions' := Extended(run', actions', Forget(c), Next(h, Forget(c)));
    }
    run', actions' := ToClosed(run', actions', c);
  }

  /** So no private message is safe: from any orderly run that is about to send one, ... */
  lemma PrivateSendCanFail(run: seq<Hub>, actions: seq<Action>) returns (run': seq<Hub>, actions': seq<Action>)
    requires IsOrderlyRun(run, actions) && run[|actions|].loop.Direct?
    ensures IsOrderlyRun(run', actions') && run <= run' && actions < actions'
    ensures var k := |actions'| - 1;
            actions'[k] == SendDirect && run'[k].loop == run[|actions|].loop
            && PhaseOf(run'[k], run'[k].loop.target).Closed?
  {
    RunKeepsInv(run, actions, |actions|);
    run', actions' := KickCloses(run, actions, run[|actions|].loop.target);
    run', actions' := Extended(run', actions', SendDirect, Next(run'[|actions'|], SendDirect));
  }

  /** ... and nothing that the replay or the read pump of a registered client sends. */
  lemma SideSendCanFail(run: seq<Hub>, actions: seq<Action>, c: Client)
      returns (run': seq<Hub>, actions': seq<Action>)
    requires IsOrderlyRun(run, actions) && c in run[|actions|].registered && !run[|actions|].loop.FanOut?
    ensures IsOrderlyRun(run', actions') && run <= run' && actions < actions'
    ensures actions'[|actions'| - 1] == SendAside(c) && PhaseOf(run'[|actions'| - 1], c).Closed?
  {
    run', actions' := KickCloses(run, actions, c);
    run', actions' := Extended(run', actions', SendAside(c), Next(run'[|actions'|], SendAside(c)));
  }

  /** A run made one action longer. */
  lemma Extended(run: seq<Hub>, actions: seq<Action>, a: Action, h': Hub)
      returns (run': seq<Hub>, actions': seq<Action>)
    requires IsRun(run, actions) && Enabled(run[|actions|], a) && h' == Next(run[|actions|], a)
    ensures IsRun(run', actions') && run' == run + [h'] && actions' == actions + [a]
    ensures IsOrderlyRun(run, actions) && Orderly(run[|actions|], a) ==> IsOrderlyRun(run', actions')
  {
    run', actions' := run + [h'], actions + [a];
    forall i | 0 <= i < |actions'| ensures Leads(run', actions', i) {
      if i < |actions| {
        assert Leads(run, actions, i);
      }
    }
    if IsOrderlyRun(run, actions) && Orderly(run[|actions|], a) {
      forall i | 0 <= i < |actions'| ensures Orderly(run'[i], actions'[i]) {
        if i < |actions| {
          assert Orderly(run[i], actions[i]);
        }
      }
    }
  }

  // ---------- no deadlock ----------

  lemma {:induction false} FanOutEnds(run: seq<Hub>, actions: seq<Action>)
      returns (run': seq<Hub>, actions': seq<Action>)
    requires IsOrderlyRun(run, actions) && run[|actions|].loop.FanOut?
    ensures IsOrderlyRun(run', actions') && run <= run' && actions <= actions' && run'[|actions'|].loop.Ready?
    decreases run[|actions|].loop.pending
  {
    var h := run[|actions|];
    if h.loop.pending == {} {
      run', actions' := Extended(run, actions, EndFanOut, Next(h, EndFanOut));
    } else {
      var c :| c in h.loop.pending;
      run', actions' := Extended(run, actions, Send(c), Next(h, Send(c)));
      run', actions' := FanOutEnds(run', actions');
    }
  }

  ghost predicate AllClosed(h: Hub, clients: set<Client>) {
    forall c | c in clients :: PhaseOf(h, c).Closed?
  }

  lemma {:induction false} AllClose(run: seq<Hub>, actions: seq<Action>, clients: set<Client>)
      returns (run': seq<Hub>, actions': seq<Action>)
    requires IsOrderlyRun(run, actions) && clients <= run[|actions|].registered && !run[|actions|].loop.FanOut?
    ensures IsOrderlyRun(run', actions') && run <= run' && actions <= actions'
    ensures run'[|actions'|].loop == run[|actions|].loop && AllClosed(run'[|actions'|], clients)
    decreases clients
  {
    run', actions' := run, actions;
    if clients != {} {
      var c :| c in clients;
      run', actions' := KickCloses(run', actions', c);
      var n := |actions'|;
      run', actions' := AllClose(run', actions', clients - {c});
      ClosedStays(run', actions', n, |actions'|, c);
    }
  }

  /** Wherever the loop stands, whatever cleanups are under way, it is not stuck: it can come back to take the
      next event, or, if it is quitting, to its end. */
  lemma LoopReturns(run: seq<Hub>, actions: seq<Action>) returns (run': seq<Hub>, actions': seq<Action>)
    requires IsOrderlyRun(run, actions)
    ensures IsOrderlyRun(run', actions') && run <= run' && actions <= actions'
    ensures var loop := run[|actions|].loop;
            run'[|actions'|].loop == if loop.Quitting? || loop.Stopped? then Stopped else Ready
  {
    RunKeepsInv(run, actions, |actions|);
    run', actions' := run, actions;
    var h := run[|actions|];
    match h.loop {
      case Evicting(_, former) => run', actions' := EvictionEnds(run, actions);
      case Inserting(_) => run', actions' := Extended(run, actions, Insert, Next(h, Insert));
      case Cleaning(c) =>
        run', actions' := KickCloses(run, actions, c);
        run', actions' := Extended(run', actions', Cleaned, Next(run'[|actions'|], Cleaned));
      case FanOut(_, _) => run', actions' := FanOutEnds(run, actions);
      case Direct(_) => run', actions' := Extended(run, actions, SendDirect, Next(h, SendDirect));
      case Quitting(snapshot) =>
        run', actions' := AllClose(run, actions, snapshot);
        run', actions' := Extended(run', actions', Stop, Next(run'[|actions'|], Stop));
      case _ =>
    }
  }

  lemma EvictionEnds(run: seq<Hub>, actions: seq<Action>) returns (run': seq<Hub>, actions': seq<Action>)
    requires IsOrderlyRun(run, actions) && run[|actions|].loop.Evicting?
    ensures IsOrderlyRun(run', actions') && run <= run' && actions <= actions' && run'[|actions'|].loop.Ready?
    ensures var m, c := run'[|actions'|].maps, run[|actions|].loop.newcomer;
            c.name in m.allClients && m.allClients[c.name] == c
  {
    RunKeepsInv(run, actions, |actions|);
    run', actions' := KickCloses(run, actions, run[|actions|].loop.former);
    run', actions' := Extended(run', actions', Evicted, Next(run'[|actions'|], Evicted));
    run', actions' := Extended(run', actions', Insert, Next(run'[|actions'|], Insert));
  }

  /** A registration that the loop takes can be carried through, whoever holds the name. */
  lemma SessionBegins(run: seq<Hub>, actions: seq<Action>, c: Client) returns (run': seq<Hub>, actions': seq<Action>)
    requires IsOrderlyRun(run, actions) && run[|actions|].loop.Ready? && c !in run[|actions|].registered
    ensures IsOrderlyRun(run', actions') && run <= run' && actions + [TakeRegister(c)] <= actions'
    ensures var h := run'[|actions'|];
            && h.loop.Ready? && c.name in h.maps.allClients && h.maps.allClients[c.name] == c
            && c.room in h.maps.rooms && c in h.maps.rooms[c.room] && c.room in h.maps.activeSubs
  {
    run', actions' := Extended(run, actions, TakeRegister(c), Next(run[|actions|], TakeRegister(c)));
    var h := run'[|actions'|];
    if h.loop.Evicting? {
      run', actions' := EvictionEnds(run', actions');
    } else {
      run', actions' := Extended(run', actions', Insert, Next(h, Insert));
    }
    RunKeepsInv(run', actions', |actions'|);
  }

  /** And so can an unregistration: the client ends up out of the maps, its channel closed. */
  lemma SessionEnds(run: seq<Hub>, actions: seq<Action>, c: Client) returns (run': seq<Hub>, actions': seq<Action>)
    requires IsOrderlyRun(run, actions) && run[|actions|].loop.Ready? && c in run[|actions|].registered
    ensures IsOrderlyRun(run', actions') && run <= run' && actions + [TakeUnregister(c)] <= actions'
    ensures var h := run'[|actions'|];
            h.loop.Ready? && PhaseOf(h, c).Closed? && c !in h.maps.allClients.Values
  {
    run', actions' := Extended(run, actions, TakeUnregister(c), Next(run[|actions|], TakeUnregister(c)));
    run', actions' := KickCloses(run', actions', c);
    run', actions' := Extended(run', actions', Cleaned, Next(run'[|actions'|], Cleaned));
    RunKeepsInv(run', actions', |actions'|);
  }

  /** A client is cleaned up before it is registered... */
  lemma CleanedEarly(c: Client) returns (run: seq<Hub>, actions: seq<Action>)
    ensures IsRun(run, actions) && run[0] == NEW_HUB
    ensures run[|actions|] == Hub(NO_SESSIONS, {}, map[c := Closed], {}, Ready)
  {
    run, actions := [NEW_HUB], [];
    run, actions := Extended(run, actions, TakeUnregister(c), NEW_HUB.(loop := Cleaning(c)));
    run, actions := Extended(run, actions, Begin(c), Hub(NO_SESSIONS, {}, map[c := Begun], {}, Cleaning(c)));
    run, actions := Extended(run, actions, Forget(c), Hub(NO_SESSIONS, {}, map[c := Removed(false)], {}, Cleaning(c)));
    run, actions := Extended(run, actions, Close(c), Hub(NO_SESSIONS, {}, map[c := Closed], {}, Cleaning(c)));
    run, actions := Extended(run, actions, Cleaned, Hub(NO_SESSIONS, {}, map[c := Closed], {}, Ready));
  }

  /** ... and then a message to its room is sent on its closed channel. */
  lemma EarlyUnregisterBreaksFanOut() returns (run: seq<Hub>, actions: seq<Action>, c: Client)
    ensures IsRun(run, actions) && run[0] == NEW_HUB
    ensures |actions| > 0 && actions[|actions| - 1] == Send(c) && PhaseOf(run[|actions| - 1], c).Closed?
  {
    c := Client(0, "ann", "general");
    var some, gone := Inserted(NO_SESSIONS, c), map[c := Closed];
    run, actions := CleanedEarly(c);
    run, actions := Extended(run, actions, TakeRegister(c), Hub(NO_SESSIONS, {}, gone, {}, Inserting(c)));
    run, actions := Extended(run, actions, Insert, Hub(some, {"general"}, gone, {c}, Ready));
    run, actions := Extended(run, actions, TakeRoomMessage("general"),
                             Hub(some, {"general"}, gone, {c}, FanOut("general", {c})));
    run, actions := Extended(run, actions, Send(c), Hub(some, {"general"}, gone, {c}, FanOut("general", {})));
  }

  /** A hub with one client. */
  lemma WithOneClient(c: Client) returns (run: seq<Hub>, actions: seq<Action>)
    ensures IsOrderlyRun(run, actions)
    ensures run[|actions|] == Hub(Inserted(NO_SESSIONS, c), {c.room}, map[], {c}, Ready)
  {
    run, actions := [NEW_HUB], [];
    run, actions := Extended(run, actions, TakeRegister(c), NEW_HUB.(loop := Inserting(c)));
    run, actions := Extended(run, actions, Insert, Hub(Inserted(NO_SESSIONS, c), {c.room}, map[], {c}, Ready));
  }

  lemma OneClientLeaves(c: Client)
    ensures Forgotten(Inserted(NO_SESSIONS, c), c) == (NO_SESSIONS, true)
  {
  }

  /** The loop has looked up the target of a private message, and a kick takes the target out... */
  lemma TargetKicked(c: Client) returns (run: seq<Hub>, actions: seq<Action>)
    ensures IsOrderlyRun(run, actions)
    ensures run[|actions|] == Hub(NO_SESSIONS, {c.room}, map[c := Removed(true)], {c}, Direct(c))
  {
    var some, subs := Inserted(NO_SESSIONS, c), {c.room};
    OneClientLeaves(c);
    run, actions := WithOneClient(c);
    run, actions := Extended(run, actions, TakePrivate(c.name), Hub(some, subs, map[], {c}, Direct(c)));
    run, actions := Extended(run, actions, Begin(c), Hub(some, subs, map[c := Begun], {c}, Direct(c)));
    run, actions := Extended(run, actions, Forget(c), Hub(NO_SESSIONS, subs, map[c := Removed(true)], {c}, Direct(c)));
  }

  /** ... so the message, sent after the lock is released, meets a closed channel even in an orderly run. */
  lemma KickBreaksPrivateSend() returns (run: seq<Hub>, actions: seq<Action>, c: Client)
    ensures IsOrderlyRun(run, actions)
    ensures |actions| > 0 && actions[|actions| - 1] == SendDirect
    ensures run[|actions| - 1].loop == Direct(c) && PhaseOf(run[|actions| - 1], c).Closed?
  {
    c := Client(0, "ann", "general");
    run, actions := TargetKicked(c);
    var late := map[c := Removed(false)];
    run, actions := Extended(run, actions, Unsubscribe(c), Hub(NO_SESSIONS, {}, late, {c}, Direct(c)));
    run, actions := Extended(run, actions, Close(c), Hub(NO_SESSIONS, {}, map[c := Closed], {c}, Direct(c)));
    run, actions := Extended(run, actions, SendDirect, Hub(NO_SESSIONS, {}, map[c := Closed], {c}, Ready));
  }

  // ---------- Redis subscriptions ----------

  /** Every room with clients is subscribed at Redis. */
  ghost predicate Subscribed(h: Hub) {
    h.maps.activeSubs <= h.redisSubs
  }

  /** The unsubscribing of a cleanup runs outside the lock. It comes in time if its room has not come back to
      life in between. */
  predicate IsInTime(h: Hub, a: Action) {
    a.Unsubscribe? ==> a.c.room !in h.maps.activeSubs
  }

  /** No other step takes the subscription of a live room away. */
  lemma StepKeepsSubscribed(h: Hub, a: Action)
    requires Subscribed(h) && Enabled(h, a)
    ensures Subscribed(Next(h, a)) <==> IsInTime(h, a)
  {
  }

  /** In any run, orderly or not, with kicks and without: every live room is subscribed throughout if and only
      if no unsubscribing comes late. */
  lemma {:induction false} SubscribedIff(run: seq<Hub>, actions: seq<Action>, n: nat)
    requires IsRun(run, actions) && run[0] == NEW_HUB && n < |run|
    ensures (forall k | 0 <= k <= n :: Subscribed(run[k])) <==> (forall i | 0 <= i < n :: IsInTime(run[i], actions[i]))
  {
    if n > 0 {
      SubscribedIff(run, actions, n - 1);
      assert Leads(run, actions, n - 1);
      if Subscribed(run[n - 1]) {
        StepKeepsSubscribed(run[n - 1], actions[n - 1]);
      }
      assert (forall k | 0 <= k <= n :: Subscribed(run[k])) <==>
             (forall k | 0 <= k <= n - 1 :: Subscribed(run[k])) && Subscribed(run[n]);
    }
  }

  /** A cleanup has emptied the room and not yet unsubscribed it. */
  ghost predicate IsBeingLeft(h: Hub, room: string) {
    exists c :: c in h.once && c.room == room && h.once[c] == Removed(true)
  }

  /** A subscription that no client needs is about to be ended. */
  ghost predicate NoneInVain(h: Hub) {
    forall r | r in h.redisSubs && r !in h.maps.activeSubs :: IsBeingLeft(h, r)
  }

  lemma StepKeepsNoneInVain(h: Hub, a: Action)
    requires NoneInVain(h) && Enabled(h, a)
    ensures NoneInVain(Next(h, a))
  {
    var h' := Next(h, a);
    forall r | r in h'.redisSubs && r !in h'.maps.activeSubs ensures IsBeingLeft(h', r) {
      if a.Forget? && r == a.c.room && r in h.maps.activeSubs {
        assert h'.once[a.c] == Removed(true);
      } else {
        var c :| c in h.once && c.room == r && h.once[c] == Removed(true);
        assert h'.once[c] == Removed(true);
      }
    }
  }

  /** In any run, orderly or not, a room without clients is subscribed only while the cleanup that has emptied
      it is still to unsubscribe it. */
  lemma {:induction false} NothingSubscribedInVain(run: seq<Hub>, actions: seq<Action>, n: nat)
    requires IsRun(run, actions) && run[0] == NEW_HUB && n < |run|
    ensures NoneInVain(run[n])
  {
    if n > 0 {
      NothingSubscribedInVain(run, actions, n - 1);
      assert Leads(run, actions, n - 1);
      StepKeepsNoneInVain(run[n - 1], actions[n - 1]);
    }
  }

  /** So when no unsubscribing has come late and none is outstanding, the hub is subscribed to exactly the rooms
      that have clients. */
  lemma SubscribedToLiveRooms(run: seq<Hub>, actions: seq<Action>, n: nat)
    requires IsOrderlyRun(run, actions) && n < |run|
    requires forall i | 0 <= i < n :: IsInTime(run[i], actions[i])
    requires forall c | c in run[n].once :: run[n].once[c] != Removed(true)
    ensures run[n].redisSubs == run[n].maps.rooms.Keys
  {
    SubscribedIff(run, actions, n);
    NothingSubscribedInVain(run, actions, n);
    RunKeepsInv(run, actions, n);
    assert Subscribed(run[n]);
  }

  /** A step in which cleanups are begun by the loop itself only: no kick. */
  predicate Unkicked(h: Hub, a: Action) {
    a.Begin? ==> h.loop == Cleaning(a.c) || (h.loop.Evicting? && h.loop.former == a.c) || h.loop.Quitting?
  }

  ghost predicate IsUnkickedRun(run: seq<Hub>, actions: seq<Action>) {
    && IsOrderlyRun(run, actions)
    && forall i {:trigger Unkicked(run[i], actions[i])} | 0 <= i < |actions| :: Unkicked(run[i], actions[i])
  }

  /** While no kicks run, a cleanup under way is one the loop is waiting for. */
  ghost predicate LoopWaits(h: Hub) {
    && Subscribed(h)
    && (forall c | PhaseOf(h, c).Begun? || PhaseOf(h, c).Removed? ::
          h.loop == Cleaning(c) || (h.loop.Evicting? && h.loop.former == c) || h.loop.Quitting?)
    && (forall c | PhaseOf(h, c) == Removed(true) :: c.room !in h.maps.activeSubs)
  }

  lemma StepKeepsLoopWaits(h: Hub, a: Action)
    requires Inv(h) && LoopWaits(h) && Enabled(h, a) && Orderly(h, a) && Unkicked(h, a) && !a.Stop?
    ensures LoopWaits(Next(h, a))
  {
    var h' := Next(h, a);
    match a {
      case Cleaned => ManagedAgree(h.maps, h.loop.client.room);
      case Forget(c) => ForgottenAgree(h.maps, c);
      case _ =>
    }
    forall c | PhaseOf(h', c).Begun? || PhaseOf(h', c).Removed?
      ensures h'.loop == Cleaning(c) || (h'.loop.Evicting? && h'.loop.former == c) || h'.loop.Quitting?
      ensures PhaseOf(h', c) == Removed(true) ==> c.room !in h'.maps.activeSubs
    {
      assert (a.Begin? && a.c == c) || PhaseOf(h, c).Begun? || PhaseOf(h, c).Removed?;
    }
  }

  /** Without kicks every live room stays subscribed, until the hub stops. */
  lemma {:induction false} SubscribedWithoutKicks(run: seq<Hub>, actions: seq<Action>, n: nat)
    requires IsUnkickedRun(run, actions) && n < |run|
    requires forall i | 0 <= i < n :: actions[i] != Stop
    ensures LoopWaits(run[n]) && Subscribed(run[n])
  {
    if n > 0 {
      SubscribedWithoutKicks(run, actions, n - 1);
      RunKeepsInv(run, actions, n - 1);
      assert Leads(run, actions, n - 1) && Orderly(run[n - 1], actions[n - 1]) && Unkicked(run[n - 1], actions[n - 1]);
      StepKeepsLoopWaits(run[n - 1], actions[n - 1]);
    }
  }

  /** The target of a private message about to be sent is registered. */
  predicate TargetLives(h: Hub) {
    h.loop.Direct? ==> h.loop.target in h.maps.allClients.Values
  }

  lemma StepKeepsTarget(h: Hub, a: Action)
    requires LoopWaits(h) && TargetLives(h) && Enabled(h, a)
    ensures TargetLives(Next(h, a))
  {
    if a.Forget? {
      assert PhaseOf(h, a.c).Begun?;
    }
  }

  lemma {:induction false} TargetLivesWithoutKicks(run: seq<Hub>, actions: seq<Action>, n: nat)
    requires IsUnkickedRun(run, actions) && n < |run|
    requires forall i | 0 <= i < n :: actions[i] != Stop
    ensures TargetLives(run[n])
  {
    if n > 0 {
      TargetLivesWithoutKicks(run, actions, n - 1);
      SubscribedWithoutKicks(run, actions, n - 1);
      assert Leads(run, actions, n - 1);
      StepKeepsTarget(run[n - 1], actions[n - 1]);
    }
  }

  /** Without kicks private messages, too, are sent on open channels only. */
  lemma PrivateSendIsSafeWithoutKicks(run: seq<Hub>, actions: seq<Action>, n: nat)
    requires IsUnkickedRun(run, actions) && n < |actions| && actions[n] == SendDirect
    requires forall i | 0 <= i < n :: actions[i] != Stop
    ensures run[n].loop.Direct? && IsUnforgotten(PhaseOf(run[n], run[n].loop.target))
  {
    TargetLivesWithoutKicks(run, actions, n);
    RunKeepsInv(run, actions, n);
    assert Leads(run, actions, n);
  }

  /** A kick has emptied the room of the only client, and is still to unsubscribe it. */
  lemma KickEmpties(c: Client) returns (run: seq<Hub>, actions: seq<Action>)
    ensures IsOrderlyRun(run, actions)
    ensures run[|actions|] == Hub(NO_SESSIONS, {c.room}, map[c := Removed(true)], {c}, Ready)
  {
    var some, subs := Inserted(NO_SESSIONS, c), {c.room};
    OneClientLeaves(c);
    run, actions := WithOneClient(c);
    run, actions := Extended(run, actions, Begin(c), Hub(some, subs, map[c := Begun], {c}, Ready));
    run, actions := Extended(run, actions, Forget(c), Hub(NO_SESSIONS, subs, map[c := Removed(true)], {c}, Ready));
  }

  /** With kicks it fails: a kick empties a room, a newcomer enters it, and the kick's late unsubscribing
      cuts the newcomer off. */
  lemma KickCutsOffNewcomer() returns (run: seq<Hub>, actions: seq<Action>)
    ensures IsOrderlyRun(run, actions)
    ensures run[|actions|].loop.Ready? && !Subscribed(run[|actions|])
  {
    var c, d := Client(0, "ann", "general"), Client(1, "bob", "general");
    var other := Inserted(NO_SESSIONS, d);
    var subs, late := {"general"}, map[c := Removed(true)];
    run, actions := KickEmpties(c);
    run, actions := Extended(run, actions, TakeRegister(d), Hub(NO_SESSIONS, subs, late, {c}, Inserting(d)));
    run, actions := Extended(run, actions, Insert, Hub(other, subs, late, {c, d}, Ready));
    run, actions := Extended(run, actions, Unsubscribe(c), Hub(other, {}, map[c := Removed(false)], {c, d}, Ready));
    assert "general" in other.activeSubs;
  }
}
