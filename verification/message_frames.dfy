/** The two together: messages (internal/types/message_types.go:29-41) survive being marshalled and put into
    frames. */
module MessageFrames {
  import opened Framing
  import opened Json
  import opened Options

  /** types.Message, its id and its timestamp as the texts that stand for them. */
  datatype Message = Message(id: string, roomID: string, sender: string, content: string, kind: string,
                             target: string, timestamp: string, status: int, senderServerID: string,
                             fromRedis: bool)

  const BLANK := Message("", "", "", "", "", "", "", 0, "", false)

  /** The fields under their JSON names; an empty target is left out, and `FromRedis` always. */
  function ObjectOf(m: Message): Object {
    [Text("id", m.id), Text("roomID", m.roomID), Text("sender", m.sender), Text("content", m.content),
     Text("type", m.kind)]
    + (if m.target == "" then [] else [Text("target", m.target)])
    + [Text("timestamp", m.timestamp), Number("status", m.status), Text("sender_server_id", m.senderServerID)]
  }

  function Marshal(m: Message): string {
    Marshalled(ObjectOf(m))
  }

  // ---------- reading a message back ----------

  predicate IsTextName(name: string) {
    name in ["id", "roomID", "sender", "content", "type", "target", "timestamp", "sender_server_id"]
  }

  /** `m` with one more field read; fields of other names are ignored, and values of the wrong type refused. */
  function With(m: Message, f: Field): Option<Message> {
    match f
    case Text(name, text) =>
      if name == "status" then None
      else if name == "id" then Some(m.(id := text))
      else if name == "roomID" then Some(m.(roomID := text))
      else if name == "sender" then Some(m.(sender := text))
      else if name == "content" then Some(m.(content := text))
      else if name == "type" then Some(m.(kind := text))
      else if name == "target" then Some(m.(target := text))
      else if name == "timestamp" then Some(m.(timestamp := text))
      else if name == "sender_server_id" then Some(m.(senderServerID := text))
      else Some(m)
    case Number(name, n) =>
      if name == "status" then Some(m.(status := n)) else if IsTextName(name) then None else Some(m)
  }

  function WithAll(m: Message, o: Object): Option<Message>
    decreases |o|
  {
    if o == [] then Some(m)
    else
      match With(m, o[0])
      case Some(m') => WithAll(m', o[1..])
      case None => None
  }

  function Unmarshal(s: string): Option<Message> {
    match ReadObject(s)
    case Some(o) => WithAll(BLANK, o)
    case None => None
  }

  lemma WithOneMore(m: Message, f: Field, rest: Object)
    requires With(m, f).Some?
    ensures WithAll(m, [f] + rest) == WithAll(With(m, f).value, rest)
  {
    assert ([f] + rest)[1..] == rest;
  }

  /** A message from the wire is the message that was sent, `FromRedis` cleared. */
  lemma MessageRoundTrip(m: Message)
    ensures Unmarshal(Marshal(m)) == Some(m.(fromRedis := false))
  {
    ObjectRoundTrip(ObjectOf(m));
    FieldsRoundTrip(m);
  }

  /** The fields from the timestamp on. */
  function LastFields(m: Message): Object {
    [Text("timestamp", m.timestamp), Number("status", m.status), Text("sender_server_id", m.senderServerID)]
  }

  lemma LastFieldsRoundTrip(start: Message, m: Message)
    ensures WithAll(start, LastFields(m))
            == Some(start.(timestamp := m.timestamp, status := m.status, senderServerID := m.senderServerID))
  {
    var id := [Text("sender_server_id", m.senderServerID)];
    var status := [Number("status", m.status)] + id;
    assert LastFields(m) == [Text("timestamp", m.timestamp)] + status && id == id + [];
    var stamped := start.(timestamp := m.timestamp);
    WithOneMore(start, Text("timestamp", m.timestamp), status);
    WithOneMore(stamped, Number("status", m.status), id);
    WithOneMore(stamped.(status := m.status), Text("sender_server_id", m.senderServerID), []);
  }

  lemma FieldsRoundTrip(m: Message)
    ensures WithAll(BLANK, ObjectOf(m)) == Some(m.(fromRedis := false))
  {
    var target := if m.target == "" then LastFields(m) else [Text("target", m.target)] + LastFields(m);
    var kind := [Text("type", m.kind)] + target;
    var content := [Text("content", m.content)] + kind;
    var sender := [Text("sender", m.sender)] + content;
    var room := [Text("roomID", m.roomID)] + sender;
    assert ObjectOf(m) == [Text("id", m.id)] + room;
    var m1 := BLANK.(id := m.id);
    var m2 := m1.(roomID := m.roomID);
    var m3 := m2.(sender := m.sender);
    var m4 := m3.(content := m.content);
    var m5 := m4.(kind := m.kind);
    WithOneMore(BLANK, Text("id", m.id), room);
    WithOneMore(m1, Text("roomID", m.roomID), sender);
    WithOneMore(m2, Text("sender", m.sender), content);
    WithOneMore(m3, Text("content", m.content), kind);
    WithOneMore(m4, Text("type", m.kind), target);
    if m.target != "" {
      WithOneMore(m5, Text("target", m.target), LastFields(m));
    }
    LastFieldsRoundTrip(m5.(target := m.target), m);
  }

  // ---------- in frames ----------

  /** However the pump batches the objects queued for a client, the reader gets them back, in order. */
  lemma ObjectsArriveWhole(batches: seq<seq<string>>, objects: seq<Object>)
    requires NoneEmpty(batches) && |Flat(batches)| == |objects|
    requires forall i | 0 <= i < |objects| :: Flat(batches)[i] == Marshalled(objects[i])
    ensures |Received(Frames(batches))| == |objects|
    ensures forall i | 0 <= i < |objects| :: ReadObject(Received(Frames(batches))[i]) == Some(objects[i])
  {
    forall i | 0 <= i < |objects| ensures IsClean(Flat(batches)[i]) {
      MarshalledIsSafe(objects[i]);
    }
    RoundTripIff(batches);
    forall i | 0 <= i < |objects| ensures ReadObject(Flat(batches)[i]) == Some(objects[i]) {
      ObjectRoundTrip(objects[i]);
    }
  }

  /** And so with messages. */
  lemma MessagesArriveWhole(batches: seq<seq<string>>, messages: seq<Message>)
    requires NoneEmpty(batches) && |Flat(batches)| == |messages|
    requires forall i | 0 <= i < |messages| :: Flat(batches)[i] == Marshal(messages[i])
    ensures |Received(Frames(batches))| == |messages|
    ensures forall i | 0 <= i < |messages| ::
              Unmarshal(Received(Frames(batches))[i]) == Some(messages[i].(fromRedis := false))
  {
    var objects := seq(|messages|, i requires 0 <= i < |messages| => ObjectOf(messages[i]));
    ObjectsArriveWhole(batches, objects);
    forall i | 0 <= i < |messages|
      ensures Unmarshal(Received(Frames(batches))[i]) == Some(messages[i].(fromRedis := false))
    {
      FieldsRoundTrip(messages[i]);
    }
  }
}
