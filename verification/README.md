# GoHub, verified

GoHub is a clustered chat server. A user's connection belongs to one server, chosen by consistent
hashing; the servers tell each other over Redis who they are, and every chat message goes through
Redis before any client gets it. This project models that core in Dafny and proves what holds of it
over every input, every interleaving and every run:

- **Routing** (`ring_spec`, `ring`, `crc32`, `crc_remainder`, `routing`, `rooms`, `gossip`, `leaving`, `watcher`,
  `keeper`, `convergence`, `deliveries`, `late_subscription`, `cluster_routing`). Servers hold different rings at different times,
  and yet redirects end: a server is always in its own ring, so each redirect brings the user strictly closer,
  clockwise, to the user's hash. The JOIN gossip comes to rest, and then every server holds the same ring.
- **Sessions** (`sessions`, `hub`). The three maps of a hub agree in every reachable state, although
  cleanups run beside the main loop; the loop is never stuck; room fan-out never sends on a closed
  channel; and exact conditions for the steps where such guarantees end.
- **Delivery** (`slash_commands`, `delivery`, `origin`, `conservation`, `channels`, `one_message`,
  `draining`). Redis-first delivery over a whole cluster: one order for everybody, no echo, rooms kept apart,
  what arrives is what was typed, and nothing lost, from Redis to the WebSocket, for a client that keeps up.
- **Frames** (`framing`, `json`, `message_frames`). However the write pump batches messages, the reader gets them
  back, field by field.
- **Messages at rest** (`store`). The table that the persistence worker builds, and the history replay.
- **Limiter** (`token_bucket`, `limiter`). Tight admission bounds for the token bucket.
- **The earlier hub** (`legacy`, `legacy_hub`). Its 20-message snapshot and the live stream after it
  join without gap or duplicate.

Code that changes state in the repository is modelled twice: a class with the repository's fields and
loops, and a specification as functions on values; the class is proved against the functions and the
theorems are about those. Concurrent code is a state machine whose steps are critical sections, and a
theorem about a run holds for every interleaving of them.

`dafny verify dfyconfig.toml` checks the whole project.

## Assumptions

- No two replicas of the servers in play are hashed to one point (`RingSpec.Distinct`), and every
  server uses the same number of replicas, at least one; the code uses 50. What happens otherwise is
  `RingSpec.AddIsSoundIff`. For CRC-32 the assumption is partly proved: `Crc32.ReplicasApart`.
- Agreement of the rings (module Convergence) is for servers that are subscribed before they announce
  themselves, and for good. Neither is sure: `NewHub` subscribes in a goroutine and announces at once
  (internal/chat/hub.go:109, 115, 199), and `global_signals` passes for the name of a room
  (`Rooms.SignalsAreARoom`), so that a hub whose last client leaves that room unsubscribes from the signals
  (internal/chat/hub.go:357). `LateSubscription.RestIffHeard` says exactly who knows whom in either case, and
  `EarlyAnnouncementBreaksAgreement` and `LostSubscriptionBreaksAgreement` that both do happen.
  The safety of routing does not depend on it.
- Redis keeps the order of what is published and hands it to every subscriber in that order; a failed
  publication is a step that drops the message. Statements on the database succeed.
- Each client is registered once, and not before its registration unregistered (`Sessions.Orderly`).
  `Sessions.EarlyUnregisterBreaksFanOut` shows what happens otherwise.
- A limiter has one caller at a time and a clock that does not run backwards.

## Where the code differs from what is said of it

The model follows the code.

- README.md:199 has heartbeats keep a server in the ring. `LastSeen` is written only when a JOIN adds
  a server (internal/chat/hub.go:216-220), so a healthy peer, too, is dropped 20 seconds after it was
  added, and added again by its next JOIN: `Watcher.HeartbeatsDoNotKeepAPeer`,
  `Watcher.HealthyPeerIsEvicted`.
- The kick of a global login is published as a kick and listened for as an acknowledgement
  (internal/chat/hub.go:237, 421-429). So one session per name is proved per server, not per cluster,
  and acknowledgements never reach a client through Redis.
- A redirect drops the room that the user asked for (cmd/server/main.go:84): `Routing.RoomSurvivesIff`.
- Chat content that begins with `JOIN:` or `LEAVE:` is taken for a signal (internal/chat/hub.go:214,
  227), in any room. It is delivered to nobody (`Conservation.CopiesAre`), and module Gossip has a step for it.
  A slash command can make such content of another (`SlashCommands.CommandsCanSignal`).
- Private sends, the history replay and the answers of a read pump to its own client are made without the
  lock, and so is the unsubscribing of a cleanup (internal/chat/hub.go:291-294, 356-360, 532-555,
  internal/chat/client.go:93-98, 135). A kick can spoil each of them, at any time:
  `Sessions.PrivateSendFailsIff` and `PrivateSendCanFail`, `Sessions.SideSendFailsIff` and
  `SideSendCanFail`, `Sessions.SubscribedIff` and `KickCutsOffNewcomer`.
- The present limiter counts seconds with a rate in nanoseconds (internal/middleware/rateLimiter.go:30-36,
  cmd/server/main.go:110): `TokenBucket.PresentLimiterNeverRefills`.
- In the earlier hub a connection is known by a name made from the clock (legacy/challenge-7/chat.go:380-390,
  411). When two connections get one name, the second takes the place of the first; the end of the first
  then throws out the second (123-129, 200-205), and a rate warning to the first is a send on a closed
  channel (313-321): `Snapshot.LateUnregisterEvictsNewcomer`, `Snapshot.PanicsIff`, `Snapshot.WarningPanics`.

## Model

| member | source | states |
|---|---|---|
| `RingSpec.IdentityInjective` | internal/hashing/consistent.go:31-32 | no two (server, replica) pairs are hashed under one name, even when server names contain `#` and digits |
| `RingSpec.PointIs` | internal/hashing/consistent.go:31-32 | a replica's point is the hash of its server's id, a `#` and its number in decimal without leading zeros |
| `RingSpec.DistinctIfInjective` | internal/hashing/consistent.go:31-34 | a hash without collisions on the names in play gives pairwise distinct points |
| `RingSpec.SortSorts` | internal/hashing/consistent.go:38 | sorting yields a sorted permutation |
| `RingSpec.AddIsSoundIff` | internal/hashing/consistent.go:22-40 | adding a newcomer yields the ring of the larger member set (sorted points, right owners, nothing else) if and only if its points are distinct and not yet on the ring |
| `RingSpec.RemoveIsSound` | internal/hashing/consistent.go:63-84 | removing a member yields the ring of the others, and says so |
| `RingSpec.RepeatsChangeNothing` | internal/hashing/consistent.go:26-28 | adding a member again, or removing a stranger, changes nothing and returns false |
| `RingSpec.Canonical` | internal/hashing/consistent.go:11-16 | points and registry are determined by the member set |
| `RingSpec.AddThenRemove` | internal/hashing/consistent.go:22-84 | adding a newcomer and removing it restores the ring exactly |
| `RingSpec.HistoryIsRing` | internal/hashing/consistent.go:22-84 | after any history of additions and removals the ring is the ring of the survivors |
| `RingSpec.HistoriesAgree` | internal/hashing/consistent.go:22-84 | two histories leave the same ring if and only if they leave the same members |
| `RingSpec.AnswerIsOwner` | internal/hashing/consistent.go:42-61 | what `Get` answers is the member with a point nearest clockwise to the key's hash, modulo 2^32 |
| `RingSpec.OwnerUnique` | internal/hashing/consistent.go:42-61 | there is only one such member |
| `RingSpec.ClockwiseIs` | internal/hashing/consistent.go:42-61 | the distance that "nearest" is about is the one number below 2^32 that takes the key's hash to the point modulo 2^32 |
| `RingSpec.MinimalDisruption` | internal/hashing/consistent.go:22-84 | when x joins, every key keeps its owner or moves to x; when x leaves, only keys of x move |
| `HashRing.Ring.constructor` | internal/chat/hub.go:57-63 | a new ring is empty |
| `HashRing.Ring.Add` | internal/hashing/consistent.go:22-40 | the append-and-sort loop computes the specified addition |
| `HashRing.Ring.Remove` | internal/hashing/consistent.go:63-84 | the nested loops compute the specified removal |
| `HashRing.Ring.RemovePoint` | internal/hashing/consistent.go:75-80 | the inner loop takes out the first occurrence of a point, and no other |
| `HashRing.Ring.Get` | internal/hashing/consistent.go:42-61 | the binary search with wrap-around finds the owner of the point nearest clockwise; "" on an empty ring |
| `Crc32.GeneratorTerms` | internal/hashing/consistent.go:18-20 | the generator has the terms of the CRC-32 of section 8 of RFC 1952 |
| `Crc32.FeedAllInjective` | internal/hashing/consistent.go:18-20 | up to 32 input bits can be recovered from the register's state before and after |
| `Crc32.TailDecides` | internal/hashing/consistent.go:18-20 | strings of one length that differ only within their last four bytes have different checksums |
| `Crc32.ReplicasApart` | internal/hashing/consistent.go:31-36 | of one server, whatever its name, replicas whose numbers have equally many digits are hashed to different points |
| `Crc32.PointsAre` | internal/hashing/consistent.go:31-36 | a server has fifty points, the checksums of its id, a `#` and the numbers from 0 to 49 |
| `CrcRemainder.ChecksumIsRemainder` | internal/hashing/consistent.go:18-20 | the checksum of every string of bytes is the CRC-32 of section 8 of RFC 1952: 32 ones added to the first 32 bits, lowest bit of each byte first, 32 zeros behind, and the remainder by the generator over GF(2) inverted and read backwards |
| `CrcRemainder.RemainderExists` | internal/hashing/consistent.go:18-20 | there is such a remainder, of degree below 32 |
| `CrcRemainder.RemainderUnique` | internal/hashing/consistent.go:18-20 | and only one |
| `Routing.OwnerIsCloser` | cmd/server/main.go:75-76 | the owner that a server's ring names is the server itself or strictly closer to the user |
| `Routing.TrailCloses` | cmd/server/main.go:75-90 | every redirect moves strictly closer to the user's hash, whatever the rings |
| `Routing.RedirectsTerminate` | cmd/server/main.go:75-90 | no server is visited twice, so there are at most (servers - 1) redirects, and a user who has been everywhere is owned by the last server |
| `Routing.ShieldNeverNeeded` | cmd/server/main.go:75-90 | what every server on the way decides: after a redirect the query names the redirecting server and no room, the `from` shield never fires, and a server accepts exactly if its ring names itself, else redirects to the one it names; on the first request the shield fires if the user's `from` names the owner |
| `Routing.RoomSurvivesIff` | cmd/server/main.go:84-95 | a redirected user lands in the default room; the user gets the room asked for if and only if there was no redirect or that room is the default one |
| `Rooms.SanitizedIff` | cmd/server/main.go:41-59 | the user gets the room whose name the parameter spells, in whatever case and with whatever white space around it, and else the default one; always one with a proper name |
| `Rooms.NamesStay` | cmd/server/main.go:29-59 | exactly the strings of 1 to 32 lower-case letters, digits, hyphens and underscores stay as they are, so that sanitizing twice is sanitizing once |
| `Rooms.SignalsAreARoom` | cmd/server/main.go:29 | `global_signals` is a room's name |
| `Routing.OneRedirectWhenRingsAgree` | cmd/server/main.go:75-90 | when all rings agree one redirect is enough |
| `Routing.TwoRedirectsWhileJoining` | cmd/server/main.go:75-90 | while one server joins, old servers knowing it or not and the newcomer knowing any of them, two redirects are enough |
| `Gossip.MembersStep` | internal/chat/hub.go:216 | on a server's own ring, addition and removal change the member set by exactly that server |
| `Gossip.VisitAllOk` | internal/chat/hub.go:140-145 | a watcher pass with nothing in between removes exactly the stale entries it looks at from ring and ledger |
| `Gossip.ReceivedOk` | internal/chat/hub.go:214-235 | a JOIN or LEAVE, whoever sent it, leaves the server in its own ring and the ring sound |
| `Gossip.StepKeepsSafe` | internal/chat/hub.go:95-235 | every step of every server, down to each single entry of a watcher pass, keeps every ring sound, every server in its own ring, and every other member stamped but for the one whose JOIN is being handled |
| `Gossip.RunIsSafe` | internal/chat/hub.go:95-235 | so it is in every state of every run, with joins, leaves, crashes, evictions, late subscriptions and typed signals |
| `Leaving.RingsStep` | internal/chat/hub.go:95-235 | the member set of every server's ring after every step of the cluster: JOINs and LEAVEs taken off the subscription and entries more than 20 s old change it, each by the one server concerned, and nothing else does |
| `Leaving.SignalChangesRing` | internal/chat/hub.go:214-235 | a JOIN adds to the ring exactly the server it names, and a LEAVE takes exactly that server out unless it is the hub's own; the ledger is left alone |
| `Leaving.SignalsReach` | internal/chat/hub.go:173-194 | an announcement, an answer and a departure reach every subscriber, and nobody else, behind what waits there already |
| `Leaving.LeftStaysOut` | internal/chat/hub.go:227-235 | in every run: once a LEAVE of x has been received, and until a JOIN of x is, x is not in the ring |
| `Watcher.WatcherBound` | internal/chat/hub.go:138-147 | when a pass is over, no member but the one whose JOIN is being handled was stamped more than 20 s before the pass began, and the server itself is a member |
| `Watcher.VisitEvictsIff` | internal/chat/hub.go:140-145 | the pass evicts a server if and only if its stamp was more than 20 s old when the pass began, and touches no other |
| `Watcher.VisitsAreAPass` | internal/chat/hub.go:138-147 | the single steps of a pass, with nothing in between, are the loop that `Keeper.RingKeeper.WatcherPass` is the code of |
| `Watcher.PassOrderIrrelevant` | internal/chat/hub.go:140-146 | the outcome of such a pass does not depend on the order in which Go ranges over the map |
| `Watcher.StampIsJoinTime` | internal/chat/hub.go:217-221 | the stamp is the time at which the adding JOIN is handled |
| `Watcher.StampIsFirstJoin` | internal/chat/hub.go:214-225 | while a server stays a member nothing refreshes its stamp |
| `Watcher.HeartbeatsDoNotKeepAPeer` | internal/chat/hub.go:136-148 | the watcher evicts a peer if and only if its pass began more than 20 s after the JOIN that added the peer was stamped, whatever the peer has sent since |
| `Watcher.HealthyPeerIsEvicted` | internal/chat/hub.go:136-148 | for any two servers, a run in which one evicts the other a nanosecond after having heard its heartbeat |
| `Keeper.RingKeeper.constructor` | internal/chat/hub.go:72-95 | a hub starts with a ring of itself |
| `Keeper.RingKeeper.OnJoin` | internal/chat/hub.go:214-217 | the JOIN case up to the ring, the server's own JOIN ignored |
| `Keeper.RingKeeper.HandleJoin` | internal/chat/hub.go:214-226 | the whole JOIN case: exactly a newcomer is added, stamped and answered |
| `Keeper.RingKeeper.OnLeave` | internal/chat/hub.go:227-235 | the LEAVE case; the stamp stays behind |
| `Keeper.RingKeeper.WatcherPass` | internal/chat/hub.go:138-147 | the loop looks at every entry once, in whatever order, deleting while it ranges |
| `Convergence.RunSpreads` | internal/chat/hub.go:173-226 | in every run in which servers only come, subscribed before they announce and for good, any two announced servers know each other or a signal on its way will see to it |
| `Convergence.RestIsAgreement` | internal/chat/hub.go:173-226 | in such a run, when no signal is pending, all servers hold the one ring of all servers |
| `Deliveries.DeliveryLightens` | internal/chat/hub.go:214-226 | every delivery makes (missing members, pending signals) smaller, although it may cause new signals |
| `Deliveries.DeliveriesAreBounded` | internal/chat/hub.go:214-226 | gossip comes to rest after a bounded number of deliveries, however they interleave |
| `Deliveries.RestIffNoDelivery` | internal/chat/hub.go:206-226 | it is at rest if and only if no delivery is possible, watchers being idle |
| `LateSubscription.RestIffHeard` | internal/chat/hub.go:109-115 | whatever the order of subscribing and announcing, and whatever subscriptions are lost: at rest, a server has another in its ring if and only if a JOIN of the other was published while it was subscribed |
| `LateSubscription.EarlyAnnouncementBreaksAgreement` | internal/chat/hub.go:109-115 | for any two servers, a run that comes to rest with one of them ignorant of the other, because it announced itself before it was subscribed |
| `LateSubscription.LostSubscriptionBreaksAgreement` | internal/chat/hub.go:356-360 | and one in which it had been subscribed, but the last client of a room named like the signals' channel had left |
| `ClusterRouting.JourneyIsTrail` | cmd/server/main.go:75-90 | stops met in any states of any run meet the assumptions of module Routing |
| `ClusterRouting.RedirectsTerminateInEveryRun` | cmd/server/main.go:75-90 | redirects end in every run, rings changing between the hops and in the middle of watcher passes |
| `ClusterRouting.OneRedirectAtRest` | cmd/server/main.go:75-90 | once gossip rests, every user is accepted after one redirect at most |
| `ClusterRouting.TwoRedirectsDuringJoin` | cmd/server/main.go:75-90 | from a state of agreement on, while only one server joins, two redirects are enough |
| `Sessions.ForgottenAgree` | internal/chat/hub.go:340-354 | a cleanup's locked block removes exactly that client and keeps the maps in agreement |
| `Sessions.InsertedAgree` | internal/chat/hub.go:436-447 | so does a registration's, which adds exactly that client |
| `Sessions.ManagedAgree` | internal/chat/hub.go:371-384 | when the maps agree, `manageSubscription` has nothing left to do |
| `Sessions.ManagedDrops` | internal/chat/hub.go:371-384 | in any maps it takes away the room's entry of `ActiveSubs`, and only if nobody is in the room |
| `Sessions.StepKeepsInv` | internal/chat/hub.go:332-573 | every step keeps `AllClients`, `Rooms` and `ActiveSubs` in agreement and every listed client's channel open |
| `Sessions.RunKeepsInv` | internal/chat/hub.go:332-573 | so it is in every reachable state, kicks interleaving with the loop |
| `Sessions.OneSessionPerName` | internal/chat/hub.go:407-447 | at most one live session per name |
| `Sessions.FanOutIsSafe` | internal/chat/hub.go:511-529 | room fan-out never sends on a closed channel |
| `Sessions.FanOutReachesAll` | internal/chat/hub.go:510-529 | from taking a room's message to the end of its fan-out exactly the clients that were in the room are sent to, whatever goes on meanwhile |
| `Sessions.FanOutOnce` | internal/chat/hub.go:520-527 | and nobody twice |
| `Sessions.ClosedOnce` | internal/chat/hub.go:332-369 | no channel is closed twice |
| `Sessions.SessionStays` | internal/chat/hub.go:332-369 | a session stays until its own cleanup begins: no late Unregister of the session it replaced touches it |
| `Sessions.QuitEmpties` | internal/chat/hub.go:394-405 | Quit leaves all three maps empty |
| `Sessions.LoopReturns` | internal/chat/hub.go:386-573 | no deadlock: from every state of every orderly run the main loop can come back to take the next event or, if it is quitting, to its end |
| `Sessions.SessionBegins` | internal/chat/hub.go:407-447 | and a registration it takes can be carried through, whoever holds the name: the client is then in all three maps |
| `Sessions.SessionEnds` | internal/chat/hub.go:468-472 | and an unregistration: the client is then out of them and its channel closed |
| `Sessions.InsertIsSafeIff` | cmd/server/main.go:114-117 | a registration leaves nobody in a room whose cleanup has got to the maps, and so is bound to close the channel, if and only if the client's own cleanup has not got there before |
| `Sessions.FanOutIsSafeIfInsertsAre` | cmd/server/main.go:114-117 | in any run, orderly or not: while that holds of every registration, room fan-out never sends on a closed channel |
| `Sessions.LateInsertBreaksFanOut` | cmd/server/main.go:114-117 | and from any state in which it does not, the run can go on to send on one |
| `Sessions.EarlyUnregisterBreaksFanOut` | cmd/server/main.go:114-117 | a run in which it has, and a message is sent on a closed channel |
| `Sessions.PrivateSendFailsIff` | internal/chat/hub.go:531-545 | a private message goes to whom `AllClients` had under the name when it was looked up, and meets a closed channel if and only if that channel has been closed between looking up and sending |
| `Sessions.PrivateSendCanFail` | internal/chat/hub.go:531-555 | any orderly run that is about to send a private message can go on to send it on a closed channel |
| `Sessions.PrivateSendIsSafeWithoutKicks` | internal/chat/hub.go:531-555 | without kicks private messages are sent on open channels only |
| `Sessions.SideSendFailsIff` | internal/chat/hub.go:281-295 | what the replay (or the read pump) of a registered client sends meets a closed channel if and only if the channel has been closed since the registration |
| `Sessions.SideSendCanFail` | internal/chat/client.go:88-136 | any orderly run, but in the middle of a fan-out, can go on to such a send for any registered client |
| `Sessions.KickBreaksPrivateSend` | internal/chat/hub.go:532-545 | a run in which a private message is sent on a closed channel |
| `Sessions.StepKeepsSubscribed` | internal/chat/hub.go:332-573 | no step but an unsubscribing that comes after its room has come back to life takes the subscription of a live room away |
| `Sessions.SubscribedIff` | internal/chat/hub.go:356-360 | in any run, every live room is subscribed throughout if and only if no unsubscribing comes after its room has come back to life |
| `Sessions.SubscribedWithoutKicks` | internal/chat/hub.go:356-360 | without kicks every live room stays subscribed |
| `Sessions.NothingSubscribedInVain` | internal/chat/hub.go:332-384 | in any run, a room without clients is subscribed only while the cleanup that emptied it is still to unsubscribe it |
| `Sessions.SubscribedToLiveRooms` | internal/chat/hub.go:332-384 | so when no unsubscribing has come late and none is outstanding, the hub is subscribed to exactly the rooms that have clients |
| `Sessions.KickCutsOffNewcomer` | internal/chat/hub.go:237-247 | a run in which a kick leaves a live room unsubscribed |
| `ChatHub.Hub.CleanupClient` | internal/chat/hub.go:332-369 | the code of a cleanup, which runs once per client |
| `ChatHub.Hub.ManageSubscription` | internal/chat/hub.go:371-384 | its code |
| `ChatHub.Hub.Register` | internal/chat/hub.go:407-447 | a registration cleans up the name's former session, then inserts; the client gets an empty channel, and subscriptions stay in step |
| `ChatHub.Hub.Unregister` | internal/chat/hub.go:468-472 | it removes exactly that client, and changes nothing if it is already cleaned up |
| `ChatHub.Hub.Quit` | internal/chat/hub.go:394-400 | the loop over a map that shrinks under it reaches every client |
| `ChatHub.Hub.Deliver` | internal/chat/hub.go:510-529 | the fan-out loop puts the payload once into every channel of the room that has space, and reports exactly the others |
| `Delivery.AgreeingIsFiled` | internal/chat/hub.go:436-447 | what delivery takes for granted of a hub's maps is what module Sessions shows |
| `Delivery.StepKeepsOrder` | internal/chat/hub.go:196-573 | every step of every server keeps every client's stream, and what is still to come to its server, in the order of the bus |
| `Delivery.RunKeepsOrder` | internal/chat/hub.go:196-573 | so it is in every run, whatever channels overflow, be it at one of two sends only |
| `Delivery.OrderAgreement` | internal/chat/hub.go:196-573 | two clients anywhere see their common messages in one order |
| `Origin.StepKeepsTrace` | internal/chat/hub.go:474-500 | every step keeps every message, queued, published or persisted, unique and genuine |
| `Origin.RedisIsNeverRepublished` | internal/chat/hub.go:502-573 | handling a message from Redis publishes, persists and queues nothing |
| `SlashCommands.PlainIsSaid` | internal/chat/client.go:117 | a chat message that does not begin with a slash stays as it is |
| `SlashCommands.EmoticonIsSaid` | internal/chat/client.go:117-168 | thirteen commands put their emoticon, after a space, behind the rest of the message |
| `SlashCommands.SpecialIsSaid` | internal/chat/client.go:126-156 | `/help` and `/ping` go nowhere, `/sparkles` puts the trimmed rest between sparkles |
| `SlashCommands.OtherIsSaid` | internal/chat/client.go:117-168 | any other command is a message like any other |
| `SlashCommands.CommandsCanSignal` | internal/chat/client.go:139-140 | for every server id, a message that does not begin with `JOIN:` and that a command turns into one that does, with the id behind it |
| `Origin.NoEcho` | internal/chat/hub.go:476-500 | in the whole cluster each message is published at most once, and persisted at most once and only if published |
| `Origin.RoomIsolation` | internal/chat/client.go:102-115 | a client gets only what a client of its own room typed, kind, target and (slash commands carried out) content as typed, under that client's true name; a private message only as its sender or target; nothing twice but a private message to itself |
| `Origin.PublishedAsTyped` | internal/chat/client.go:102-115 | whatever is published or persisted in any run was typed before, with its kind, target and (slash commands carried out) content, by a client whose name and room it bears, or is the server's own notice |
| `Origin.PersistedIff` | internal/chat/hub.go:494-497 | a published message is persisted exactly if it is a chat message, a private one or an acknowledgement |
| `Conservation.DeliveredCopies` | internal/chat/hub.go:509-555 | delivery gives a client with space in its channel exactly the copies due to it |
| `Conservation.CopiesAre` | internal/chat/hub.go:206-253 | what is due in plain words: one copy of what is said in the client's room, one as target and one as sender of a private message there, and nothing of what begins with `JOIN:` or `LEAVE:` |
| `Conservation.ListenConserves` | internal/chat/hub.go:206-253 | what the Redis listener drops was due to nobody |
| `Conservation.StepConserves` | internal/chat/hub.go:196-573 | received plus still to come grows, step by step, by exactly what is published for the client |
| `Conservation.NothingIsLost` | internal/chat/hub.go:196-573 | so it does over any run in which the client stays and its channel does not fill |
| `Conservation.AllReceivedAtRest` | internal/chat/hub.go:196-573 | between two quiet moments the client has received exactly what was published for it, in order |
| `Conservation.PublishedArrives` | internal/chat/hub.go:196-573 | each single message for the client, published while it stays and its channel does not fill, is in its stream when nothing is on its way |
| `Draining.ServerCanRest` | internal/chat/hub.go:196-573 | such quiet moments are always within reach: from every state of every run a server can get there by steps of its own listener and loop |
| `Channels.ChannelsAreBounded` | internal/chat/hub.go:520-568 | in every run a channel holds what was delivered and not yet written, and never more than 256 live messages |
| `Channels.TakeWrites` | internal/chat/client.go:22-53 | the pump writes the message that has waited longest |
| `Channels.NothingIsLostOnTheWay` | internal/chat/client.go:22-53 | written to the WebSocket, waiting in the channel and still to come grow together by exactly what is published for the client |
| `Channels.AllWrittenAtRest` | internal/chat/client.go:22-53 | between two moments with nothing waiting anywhere exactly that has been written to its WebSocket, in order |
| `OneMessage.MessageArrives` | internal/chat/client.go:102-121 | for any two clients of any room of any server and any chat message that does not read like a signal: a run in which the one types it and the other's WebSocket gets it, persisted once |
| `Framing.RoundTripIff` | internal/chat/client.go:38-49 | for every split of the queue into batches, the reader gets back exactly the queued texts if and only if none contains a newline |
| `Framing.WriteFrame` | internal/chat/client.go:32-49 | the batching loop writes the first n + 1 queued texts, newlines between, and leaves the rest |
| `Framing.WritePump` | internal/chat/client.go:22-53 | over a connection's life the pump loses, doubles and reorders nothing, whenever messages arrive |
| `Json.StringRoundTrip` | internal/chat/hub.go:503 | an encoded JSON string, with the escapes Go writes, reads back as the string, and the reader stops at its end |
| `Json.ObjectRoundTrip` | internal/chat/hub.go:503 | what is marshalled, of any texts and integers, reads back as the same fields in the same order |
| `Json.MarshalledIsSafe` | internal/chat/hub.go:503 | an encoded message has no raw newline nor other control character, no angle bracket or ampersand and no U+2028 or U+2029, whatever the users have typed |
| `MessageFrames.MessageRoundTrip` | internal/chat/hub.go:206-212 | a message that one server marshals another unmarshals as the same message, all nine fields of it, `FromRedis` cleared |
| `MessageFrames.ObjectsArriveWhole` | internal/chat/client.go:24-52 | however objects are batched into frames, the texts that arrive read back as these objects, in order |
| `MessageFrames.MessagesArriveWhole` | internal/chat/client.go:24-52 | and so messages, field by field |
| `Store.MessageRepo.Save` | internal/repository/message_repository.go:30-55 | insert if absent |
| `Store.MessageRepo.UpdateStatus` | internal/repository/message_repository.go:102-122 | raise the status of an existing row |
| `Store.MessageRepo.Fetch` | internal/repository/message_repository.go:57-100 | the newest visible rows before a time, newest first, at most `limit` of them |
| `Store.PersistMessageWorker` | internal/chat/hub.go:256-279 | the worker's loop folds its queue into the table |
| `Store.ReplayHistory` | internal/chat/hub.go:281-295 | the reversing loop sends the last 50 visible messages in ascending order |
| `Store.PersistenceFold` | internal/chat/hub.go:256-279 | after any jobs of any workers a row is there if and only if it was saved, with its first save's contents and the greatest of that save's status and the acknowledgements after it |
| `Store.RowIs` | internal/chat/hub.go:256-279 | the same without the fold's own functions: a row's contents are those of the first chat or private job of its id, its status is no lower than that job's and every later acknowledgement's, and is one of these |
| `Store.StatusNeverFalls` | internal/repository/message_repository.go:102-122 | no job lowers a status or changes contents |
| `Store.AcksCommute` | internal/repository/message_repository.go:102-122 | only the set of acknowledgements matters, not order or repetition |
| `Store.ReplayHasNoGaps` | internal/chat/hub.go:281-295 | of the messages a user may see in a room, what is not replayed is no newer than anything that is, and then 50 are; none of another room, none from the future and no private one of other people is replayed |
| `Store.ReplayIsDetermined` | internal/repository/message_repository.go:62-69 | with distinct timestamps there is only one such replay |
| `TokenBucket.TicksIsDivision` | legacy/challenge-7/chat.go:140 | the model's quotient is integer division |
| `TokenBucket.QuotientTruncates` | legacy/challenge-7/chat.go:140 | of negative numbers, too, it is Go's, which truncates toward zero |
| `TokenBucket.Int32Is` | legacy/challenge-7/chat.go:140-152 | a conversion keeps a number modulo 2^32, in the range of an int32 |
| `TokenBucket.OneCall` | legacy/challenge-7/chat.go:133-168 | while the refill fits an int32, one call admits if and only if there is or has been earned a token, and leaves the rest |
| `TokenBucket.Ledger` | legacy/challenge-7/chat.go:133-168 | for every clock that does not run backwards, overflows included, admissions and remaining tokens never exceed what was there and has been earned |
| `TokenBucket.TotalBound` | legacy/challenge-7/chat.go:133-168 | likewise: since creation at most burst + floor(elapsed / rate) are admitted |
| `TokenBucket.WindowBound` | legacy/challenge-7/chat.go:133-168 | likewise: in any window at most burst + 1 + floor(length / rate) |
| `TokenBucket.WindowBoundAttained` | legacy/challenge-7/chat.go:133-168 | the extra one does occur, for every burst and every rate above one clock unit |
| `TokenBucket.IdleEarnsBurst` | legacy/challenge-7/chat.go:133-168 | after an idle time of k rates the next min(k, burst) calls are all admitted, if their refills fit an int32 |
| `TokenBucket.EmptyAdmitsIff` | legacy/challenge-7/chat.go:138-155 | an empty bucket whose refill fits admits if and only if a whole rate has passed since its last tick |
| `TokenBucket.PresentLimiterNeverRefills` | internal/middleware/rateLimiter.go:29-62 | within 500,000,000 s of its creation a connection is admitted its first five messages and no more |
| `TokenBucket.RefillFitsIff` | legacy/challenge-7/chat.go:140-152 | after any idle time, exactly when the refill adds up although only 32 bits of the tokens earned and of the sum are kept; a sum that does not fit refuses the call |
| `Limiter.RateLimiter.constructor` | legacy/challenge-7/chat.go:82-89 | a new bucket is full |
| `Limiter.RateLimiter.Allow` | internal/middleware/rateLimiter.go:29-62 | the code computes the specified call, in both limiters |
| `Snapshot.StepKeepsInv` | legacy/challenge-7/chat.go:172-249 | every turn keeps the history equal to the end of the log, every client's stream equal to its stretch of the log less what found its channel full, and registered channels open |
| `Snapshot.QueueStep` | legacy/challenge-7/chat.go:172-249 | what each turn puts into each client's channel and takes out: the newcomer gets the last 20 messages of the log, everybody connected with space each chat message and announcement, the two parties each private one |
| `Snapshot.RosterStep` | legacy/challenge-7/chat.go:172-205 | who is registered under which name after each turn; exactly the channels of all others are closed |
| `Snapshot.QuitEmpties` | legacy/challenge-7/chat.go:175-178 | after Quit nobody is registered and every channel is closed |
| `Snapshot.RecordsAreExplained` | legacy/challenge-7/chat.go:180-230 | a client's joining place, the place where its channel was closed and the messages it missed are what happened in the run: a message is missed only with 256 others waiting |
| `Snapshot.NoGapNoDuplicate` | legacy/challenge-7/chat.go:180-230 | a client is sent the log from min(20, n) before its joining place n on, without gap or duplicate, if and only if no chat message found its channel full; what is missed comes after the snapshot |
| `Snapshot.ReplayNeverBlocks` | legacy/challenge-7/chat.go:186-193 | at most 20 messages are replayed, into an empty channel of 256 |
| `Snapshot.PanicsIff` | legacy/challenge-7/chat.go:172-320 | the hub itself never sends on a closed channel nor closes one again; a read pump that warns its client does if and only if the client no longer holds its name |
| `Snapshot.WarningPanics` | legacy/challenge-7/chat.go:313-321 | a run in which it does, for any two connections of one name |
| `Snapshot.UnregisterIsSafeIff` | legacy/challenge-7/chat.go:200-205 | unregistering spares all other clients if and only if nobody else holds the name |
| `Snapshot.LateUnregisterEvictsNewcomer` | legacy/challenge-7/chat.go:123-129 | of two connections that got one name, the end of the former throws out the newcomer |
| `Snapshot.WhisperReachesTwo` | legacy/challenge-7/chat.go:232-242 | a private message is put once into the channels of its sender and its target, and nowhere else |
| `LegacyHub.Hub.CleanupClient` | legacy/challenge-7/chat.go:123-129 | the holder of the name is out, the channel closed |
| `LegacyHub.Hub.Register` | legacy/challenge-7/chat.go:180-195 | the replay loop puts the history, in order, into the newcomer's channel; no send blocks |
| `LegacyHub.Hub.Unregister` | legacy/challenge-7/chat.go:200-205 | the Unregister case |
| `LegacyHub.Hub.Quit` | legacy/challenge-7/chat.go:175-178 | every channel is closed once and the map left empty |
| `LegacyHub.Hub.Announce` | legacy/challenge-7/chat.go:213-223 | the fan-out loop reaches every client with space once and reports exactly the others |
| `LegacyHub.Hub.Handle` | legacy/challenge-7/chat.go:206-245 | the Broadcast case, with its history of 20 |

## Left out

- Redis, Postgres and WebSocket clients: only their meaning is modelled; a connection error is a step that does not happen.
- HTTP handlers, cookies, tokens, passwords, fingerprints, configuration, cron jobs, migrations: plumbing over libraries that are not part of this repository.
- Rooms: case folding outside ASCII is a parameter.
- Ping and pong, deadlines, logging, and the Redis sets of user names.
- Convergence: runs in which a signal is lost (Redis offline for a while), and leaves, crashes and evictions; the safety theorems and module Leaving cover leaves, crashes, evictions and signals that reach only some servers.
- `HashRing.Ring.Get`: one call at a time, as the ring's mutex provides.
- Sessions: `TakeQuit` reads `AllClients` at once, whereas the source ranges over it without the lock (internal/chat/hub.go:398) while kicks may take clients out; a concurrent change of the map during the range is not modelled.
- ChatHub: each method runs without interference; interference is the subject of module Sessions.
- Deadlocks: the hub sends to its own bounded `Broadcast` channel (internal/chat/hub.go:329, 466), so freedom from them does not hold in general. `Sessions.LoopReturns` is about locks and cleanups only. `Broadcast` and the persistence queue are unbounded in the model.
- Shutdown: the persistence queue is never closed, so draining it does not end.
- Delivery: the replay goroutine (internal/chat/hub.go:449) and the rate warnings put other messages between the live ones; live streams leave them out, and a channel may be full of them.
- Snapshot: a private message or a warning to a full channel blocks its sender: it is a step that waits.
- Json: bytes that are not UTF-8, which Go replaces before it writes them; number formats other than integers. Ids and timestamps are the texts that stand for them; the reader of an object takes no white space and no nested values, which the writer does not make.
- TokenBucket: several callers at a time, where a refill may overwrite a decrement; overflow of the 64-bit clock.
- Layouts with no replicas, to which `Add` adds nothing; the code uses 50.
- legacy/challenge-1 to challenge-6: simpler versions of the same loop.
