/**
 Messages at rest: the `messages` table as internal/repository/message_repository.go uses it, the worker
 that fills it and the replay that reads it (internal/chat/hub.go). Every repository call succeeds;
 Postgres itself is not part of this model.
 */
module Store {
  import opened Numbers
  import opened Options

  type Id = nat
  type Time = int

  datatype Kind = Chat | Private | System | UserList | Ack | Typing | Kick

  /** A message, and a row of the table. `created` is its timestamp. */
  datatype Message = Message(id: Id, room: string, sender: string, target: string, content: string, kind: Kind,
                             created: Time, status: int)

  type Table = map<Id, Message>

  // ---------- statements ----------

  /** INSERT ... ON CONFLICT (id) DO NOTHING */
  function Saved(t: Table, m: Message): Table {
    if m.id in t then t else t[m.id := m]
  }

  /** UPDATE ... SET status WHERE id AND status < */
  function Acked(t: Table, id: Id, status: int): Table {
    if id in t && t[id].status < status then t[id := t[id].(status := status)] else t
  }

  predicate IsSave(m: Message) {
    m.kind.Chat? || m.kind.Private?
  }

  /** One turn of `PersistMessageWorker`. */
  function Applied(t: Table, m: Message): Table {
    if IsSave(m) then Saved(t, m) else if m.kind.Ack? then Acked(t, m.id, m.status) else t
  }

  function Fold(t: Table, jobs: seq<Message>): Table {
    if jobs == [] then t else Applied(Fold(t, jobs[..|jobs| - 1]), jobs[|jobs| - 1])
  }

  predicate Visible(m: Message, room: string, user: string, before: Time) {
    m.room == room && m.created < before && (!m.kind.Private? || m.sender == user || m.target == user)
  }

  function VisibleRows(t: Table, room: string, user: string, before: Time): set<Message> {
    set m | m in t.Values && Visible(m, room, user, before)
  }

  /** What ORDER BY created_at DESC LIMIT may return: the newest rows, newest first, ties in any order. */
  ghost predicate IsNewestFirst(rows: set<Message>, limit: nat, page: seq<Message>) {
    && |page| == Min(limit, |rows|)
    && (forall i, j | 0 <= i < j < |page| :: page[i].created >= page[j].created && page[i] != page[j])
    && (forall i | 0 <= i < |page| :: page[i] in rows)
    && (forall m, i | m in rows && m !in page && 0 <= i < |page| :: m.created <= page[i].created)
  }

  /** The same rows, oldest first. */
  ghost predicate IsReplay(rows: set<Message>, limit: nat, sent: seq<Message>) {
    && |sent| == Min(limit, |rows|)
    && (forall i, j | 0 <= i < j < |sent| :: sent[i].created <= sent[j].created && sent[i] != sent[j])
    && (forall i | 0 <= i < |sent| :: sent[i] in rows)
    && (forall m, i | m in rows && m !in sent && 0 <= i < |sent| :: m.created <= sent[i].created)
  }

  predicate IsNewest(rows: set<Message>, m: Message) {
    forall q | q in rows :: q.created <= m.created
  }

  class MessageRepo {
    var rows: Table

    constructor ()
      ensures rows == map[]
    {
      rows := map[];
    }

    method Save(m: Message)
      modifies this
      ensures rows == Saved(old(rows), m)
    {
      if m.id !in rows {
        rows := rows[m.id := m];
      }
    }

    method UpdateStatus(id: Id, status: int)
      modifies this
      ensures rows == Acked(old(rows), id, status)
    {
      if id in rows && rows[id].status < status {
        rows := rows[id := rows[id].(status := status)];
      }
    }

    /** A zero `before` stands for the present. */
    method Fetch(room: string, user: string, limit: nat, before: Option<Time>, now: Time)
        returns (messages: seq<Message>)
      ensures IsNewestFirst(VisibleRows(rows, room, user, if before.Some? then before.value else now), limit, messages)
    {
      var bound := if before.Some? then before.value else now;
      var visible := VisibleRows(rows, room, user, bound);
      var rest := visible;
      messages := [];
      while rest != {} && |messages| < limit
        invariant |messages| <= limit && |messages| + |rest| == |visible|
        invariant forall m :: m in visible <==> m in rest || m in messages
        invariant forall m | m in messages :: m !in rest
        invariant forall i, j | 0 <= i < j < |messages| ::
                    messages[i].created >= messages[j].created && messages[i] != messages[j]
        invariant forall m, i | m in rest && 0 <= i < |messages| :: m.created <= messages[i].created
        decreases rest
      {
        NewestExists(rest);
        var newest :| newest in rest && IsNewest(rest, newest);
        rest := rest - {newest};
        messages := messages + [newest];
      }
    }
  }

  lemma {:induction false} NewestExists(rows: set<Message>)
    requires rows != {}
    ensures exists m :: m in rows && IsNewest(rows, m)
    decreases |rows|
  {
    var m :| m in rows;
    if rows != {m} {
      NewestExists(rows - {m});
      var n :| n in rows - {m} && IsNewest(rows - {m}, n);
      var best := if n.created < m.created then m else n;
      assert forall q | q in rows :: q == m || q in rows - {m};
      assert best in rows && IsNewest(rows, best);
    } else {
      assert IsNewest(rows, m);
    }
  }

  /** `PersistMessageWorker` over all that its queue ever held. */
  method PersistMessageWorker(repo: MessageRepo, queue: seq<Message>)
    modifies repo
    ensures repo.rows == Fold(old(repo.rows), queue)
  {
    var i := 0;
    while i < |queue|
      invariant 0 <= i <= |queue|
      invariant repo.rows == Fold(old(repo.rows), queue[..i])
    {
      var msg := queue[i];
      assert queue[..i + 1][..i] == queue[..i];
      match msg.kind {
        case Chat => repo.Save(msg);
        case Private => repo.Save(msg);
        case Ack => repo.UpdateStatus(msg.id, msg.status);
        case _ =>
      }
      i := i + 1;
    }
    assert queue[..i] == queue;
  }

  /** `replayHistory`: the page backwards, so that the oldest comes first. */
  method ReplayHistory(repo: MessageRepo, room: string, user: string, now: Time) returns (sent: seq<Message>)
    ensures IsReplay(VisibleRows(repo.rows, room, user, now), 50, sent)
  {
    var history := repo.Fetch(room, user, 50, Some(now), now);
    sent := [];
    var i := |history|;
    while i > 0
      invariant 0 <= i <= |history| && |sent| == |history| - i
      invariant forall k | 0 <= k < |sent| :: sent[k] == history[|history| - 1 - k]
    {
      i := i - 1;
      sent := sent + [history[i]];
    }
    assert forall k | 0 <= k < |history| :: history[k] == sent[|history| - 1 - k];
    assert forall m :: m in sent <==> m in history;
  }

  // ---------- persistence ----------

  /** The greatest of `least` and the statuses acknowledged for `id`. */
  function MaxAck(jobs: seq<Message>, id: Id, least: int): int {
    if jobs == [] then least
    else
      var m, last := MaxAck(jobs[..|jobs| - 1], id, least), jobs[|jobs| - 1];
      if last.kind.Ack? && last.id == id && m < last.status then last.status else m
  }

  lemma {:induction false} MaxAckIsGreatest(jobs: seq<Message>, id: Id, least: int)
    ensures least <= MaxAck(jobs, id, least)
    ensures forall j | j in jobs && j.kind.Ack? && j.id == id :: j.status <= MaxAck(jobs, id, least)
    ensures MaxAck(jobs, id, least) == least
            || exists j :: j in jobs && j.kind.Ack? && j.id == id && j.status == MaxAck(jobs, id, least)
  {
    if jobs != [] {
      var front, last := jobs[..|jobs| - 1], jobs[|jobs| - 1];
      assert jobs == front + [last];
      MaxAckIsGreatest(front, id, least);
    }
  }

  /** A row, once there, keeps its contents; acknowledgements raise its status to their maximum. */
  lemma {:induction false} RowIsStable(t: Table, jobs: seq<Message>, id: Id)
    requires id in t
    ensures id in Fold(t, jobs)
    ensures Fold(t, jobs)[id] == t[id].(status := MaxAck(jobs, id, t[id].status))
  {
    if jobs != [] {
      RowIsStable(t, jobs[..|jobs| - 1], id);
    }
  }

  /** Which save of `id` comes first, or the number of jobs if none does. */
  function FirstSave(jobs: seq<Message>, id: Id): nat {
    if jobs == [] then 0
    else if IsSave(jobs[0]) && jobs[0].id == id then 0
    else 1 + FirstSave(jobs[1..], id)
  }

  lemma {:induction false} FirstSaveIsFirst(jobs: seq<Message>, id: Id)
    ensures var k := FirstSave(jobs, id);
            && k <= |jobs|
            && (forall i | 0 <= i < k :: !(IsSave(jobs[i]) && jobs[i].id == id))
            && (k < |jobs| ==> IsSave(jobs[k]) && jobs[k].id == id)
  {
    if jobs != [] && !(IsSave(jobs[0]) && jobs[0].id == id) {
      FirstSaveIsFirst(jobs[1..], id);
      var k := FirstSave(jobs[1..], id);
      assert forall i | 0 < i < 1 + k :: jobs[i] == jobs[1..][i - 1];
    }
  }

  lemma {:induction false} NoSaveNoRow(t: Table, jobs: seq<Message>, id: Id)
    requires id !in t && forall i | 0 <= i < |jobs| :: !(IsSave(jobs[i]) && jobs[i].id == id)
    ensures id !in Fold(t, jobs)
  {
    if jobs != [] {
      var front := jobs[..|jobs| - 1];
      assert forall i | 0 <= i < |front| :: front[i] == jobs[i];
      NoSaveNoRow(t, front, id);
    }
  }

  lemma {:induction false} FoldSplits(t: Table, jobs: seq<Message>, k: nat)
    requires k <= |jobs|
    ensures Fold(t, jobs) == Fold(Fold(t, jobs[..k]), jobs[k..])
  {
    if k == |jobs| {
      assert jobs[..k] == jobs;
    } else {
      var front := jobs[..|jobs| - 1];
      FoldSplits(t, front, k);
      assert front[..k] == jobs[..k];
      assert jobs[k..][..|jobs| - k - 1] == front[k..];
    }
  }

  /** The table after any sequence of jobs, which is to say after any interleaving of any number of
      workers: a row is there exactly if it was saved, with the contents of its first save, and with the
      greatest of that save's status and the acknowledgements applied after it. */
  lemma PersistenceFold(jobs: seq<Message>, id: Id)
    ensures var k, t := FirstSave(jobs, id), Fold(map[], jobs);
            && (id in t <==> exists i :: 0 <= i < |jobs| && jobs[i].kind in {Chat, Private} && jobs[i].id == id)
            && (k < |jobs| <==> id in t)
            && (k < |jobs| ==> t[id] == jobs[k].(status := MaxAck(jobs[k + 1..], id, jobs[k].status)))
  {
    var k := FirstSave(jobs, id);
    FirstSaveIsFirst(jobs, id);
    var before: Table := Fold(map[], jobs[..k]);
    NoSaveNoRow(map[], jobs[..k], id);
    if k < |jobs| {
      assert jobs[..k + 1][..k] == jobs[..k];
      assert Fold(map[], jobs[..k + 1]) == before[id := jobs[k]];
      FoldSplits(map[], jobs, k + 1);
      RowIsStable(before[id := jobs[k]], jobs[k + 1..], id);
    } else {
      assert jobs[..k] == jobs;
    }
  }

  /** Job `k` is the first that saves `id`. */
  ghost predicate SavesFirst(jobs: seq<Message>, id: Id, k: nat) {
    && k < |jobs| && jobs[k].kind in {Chat, Private} && jobs[k].id == id
    && forall i | 0 <= i < k && jobs[i].id == id :: jobs[i].kind !in {Chat, Private}
  }

  /** So a row has the contents of its first save, a status no lower than that save's and than any
      acknowledgement's after it, and one that it or such an acknowledgement gave. */
  lemma RowIs(jobs: seq<Message>, id: Id, k: nat)
    requires SavesFirst(jobs, id, k)
    ensures id in Fold(map[], jobs)
    ensures var row, last := Fold(map[], jobs)[id], |jobs|;
            && row == jobs[k].(status := row.status) && jobs[k].status <= row.status
            && (forall i | k < i < last && jobs[i].kind == Ack && jobs[i].id == id :: jobs[i].status <= row.status)
            && (row.status == jobs[k].status
                || exists i :: k < i < last && jobs[i].kind == Ack && jobs[i].id == id && jobs[i].status == row.status)
  {
    PersistenceFold(jobs, id);
    FirstSaveIs(jobs, id, k);
    var rest, status := jobs[k + 1..], Fold(map[], jobs)[id].status;
    MaxAckIsGreatest(rest, id, jobs[k].status);
    forall i | k < i < |jobs| && jobs[i].kind == Ack && jobs[i].id == id ensures jobs[i].status <= status {
      assert rest[i - k - 1] == jobs[i];
    }
    if status != jobs[k].status {
      var j :| j in rest && j.kind.Ack? && j.id == id && j.status == status;
      var n :| 0 <= n < |rest| && rest[n] == j;
      assert jobs[k + 1 + n] == j;
    }
  }

  lemma FirstSaveIs(jobs: seq<Message>, id: Id, k: nat)
    requires SavesFirst(jobs, id, k)
    ensures FirstSave(jobs, id) == k
  {
    FirstSaveIsFirst(jobs, id);
  }

  /** No job ever lowers a status or changes a row's contents. */
  lemma StatusNeverFalls(t: Table, jobs: seq<Message>, id: Id)
    requires id in t
    ensures id in Fold(t, jobs) && t[id].status <= Fold(t, jobs)[id].status
    ensures Fold(t, jobs)[id].(status := t[id].status) == t[id]
  {
    RowIsStable(t, jobs, id);
    MaxAckIsGreatest(jobs, id, t[id].status);
  }

  /** Acknowledgements may come in any order and any number of times: what counts is which came. */
  lemma AcksCommute(t: Table, acks: seq<Message>, acks': seq<Message>)
    requires forall j | j in acks + acks' :: j.kind.Ack?
    requires forall j :: j in acks <==> j in acks'
    ensures Fold(t, acks) == Fold(t, acks')
  {
    AcksAddNoRows(t, acks);
    AcksAddNoRows(t, acks');
    forall id | id in t ensures Fold(t, acks)[id] == Fold(t, acks')[id] {
      RowIsStable(t, acks, id);
      RowIsStable(t, acks', id);
      MaxAckIsGreatest(acks, id, t[id].status);
      MaxAckIsGreatest(acks', id, t[id].status);
    }
  }

  lemma {:induction false} AcksAddNoRows(t: Table, acks: seq<Message>)
    requires forall i | 0 <= i < |acks| :: acks[i].kind.Ack?
    ensures Fold(t, acks).Keys == t.Keys
  {
    if acks != [] {
      AcksAddNoRows(t, acks[..|acks| - 1]);
    }
  }

  // ---------- replay ----------

  /** No two rows bear one timestamp. */
  ghost predicate TimesDiffer(rows: set<Message>) {
    forall m, q | m in rows && q in rows && m.created == q.created :: m == q
  }

  /** What is not replayed of the messages a user may see in a room is older than all that is, and then 50
      are replayed. Nothing else slips in: no message of another room, none from the future, no private message
      of other people. */
  lemma ReplayHasNoGaps(t: Table, room: string, user: string, now: Time, sent: seq<Message>, m: Message)
    requires IsReplay(VisibleRows(t, room, user, now), 50, sent)
    ensures var seen := m in t.Values && m.room == room && m.created < now
                        && (m.kind == Private ==> user in {m.sender, m.target});
            && (m in sent ==> seen)
            && (seen && m !in sent ==> |sent| == 50 && forall i | 0 <= i < 50 :: m.created <= sent[i].created)
  {
    var rows := VisibleRows(t, room, user, now);
    if |rows| <= 50 {
      AllReplayed(rows, sent);
    }
  }

  lemma AllReplayed(rows: set<Message>, sent: seq<Message>)
    requires |sent| == |rows|
    requires forall i, j | 0 <= i < j < |sent| :: sent[i] != sent[j]
    requires forall i | 0 <= i < |sent| :: sent[i] in rows
    ensures forall m :: m in sent <==> m in rows
  {
    var all := set m | m in sent;
    DistinctSize(sent);
    assert all <= rows;
    assert rows == all + (rows - all);
    assert |rows - all| == 0;
  }

  lemma {:induction false} DistinctSize(s: seq<Message>)
    requires forall i, j | 0 <= i < j < |s| :: s[i] != s[j]
    ensures |set m | m in s| == |s|
  {
    if s != [] {
      var front, last := s[..|s| - 1], s[|s| - 1];
      assert s == front + [last];
      DistinctSize(front);
      assert (set m | m in s) == (set m | m in front) + {last};
    }
  }

  lemma ProperlySmaller(b: set<Message>, a: set<Message>, m: Message)
    requires b <= a && m in a && m !in b
    ensures |b| < |a|
  {
    assert a == b + (a - b);
    assert m in a - b;
  }

  lemma AnotherOne(a: set<Message>, b: set<Message>, m: Message) returns (q: Message)
    requires |a| == |b| && m in a && m !in b
    ensures q in b && q !in a
  {
    if b <= a {
      ProperlySmaller(b, a, m);
    }
    q :| q in b && q !in a;
  }

  /** A message in the one replay only is as old as one in the other only. */
  lemma Crossing(rows: set<Message>, limit: nat, sent: seq<Message>, sent': seq<Message>, m: Message, q: Message)
    requires IsReplay(rows, limit, sent) && IsReplay(rows, limit, sent')
    requires m in sent && m !in sent' && q in sent' && q !in sent
    ensures m in rows && q in rows && m.created == q.created
  {
    var i :| 0 <= i < |sent| && sent[i] == m;
    var j :| 0 <= j < |sent'| && sent'[j] == q;
  }

  lemma SameMessages(rows: set<Message>, limit: nat, sent: seq<Message>, sent': seq<Message>, m: Message)
    requires TimesDiffer(rows) && IsReplay(rows, limit, sent) && IsReplay(rows, limit, sent')
    requires m in sent
    ensures m in sent'
  {
    DistinctSize(sent);
    DistinctSize(sent');
    if m !in sent' {
      var q := AnotherOne((set x | x in sent), (set x | x in sent'), m);
      Crossing(rows, limit, sent, sent', m, q);
    }
  }

  /** With distinct timestamps the replay is determined: it is the last 50 visible messages, or all of
      them, in ascending order. */
  lemma ReplayIsDetermined(rows: set<Message>, limit: nat, sent: seq<Message>, sent': seq<Message>)
    requires TimesDiffer(rows) && IsReplay(rows, limit, sent) && IsReplay(rows, limit, sent')
    ensures sent == sent'
  {
    forall m ensures m in sent <==> m in sent' {
      if m in sent { SameMessages(rows, limit, sent, sent', m); }
      if m in sent' { SameMessages(rows, limit, sent', sent, m); }
    }
    AscendingUnique(sent, sent');
  }

  lemma {:induction false} AscendingUnique(s: seq<Message>, t: seq<Message>)
    requires forall i, j | 0 <= i < j < |s| :: s[i].created < s[j].created
    requires forall i, j | 0 <= i < j < |t| :: t[i].created < t[j].created
    requires forall m :: m in s <==> m in t
    ensures s == t
  {
    assert s != [] ==> s[0] in t;
    assert t != [] ==> t[0] in s;
    if s != [] {
      assert s[0] == t[0];
      assert s == [s[0]] + s[1..] && t == [t[0]] + t[1..];
      forall m ensures m in s[1..] <==> m in t[1..] {
        assert m in s[1..] ==> m in t && m != t[0];
        assert m in t[1..] ==> m in s && m != s[0];
      }
      AscendingUnique(s[1..], t[1..]);
    }
  }
}
