/**
 Frames (internal/chat/client.go): the write pump puts whatever is queued in a client's `Send` channel
 into one WebSocket message, JSON texts separated by newlines. The reader can take the frames apart
 again because no JSON text has a newline of its own (section 7 of RFC 8259).
 */
module Framing {
  // ---------- frames ----------

  /** One frame: the texts of a batch with a newline between each two. */
  function Frame(batch: seq<string>): string {
    if |batch| == 0 then ""
    else if |batch| == 1 then batch[0]
    else batch[0] + "\n" + Frame(batch[1..])
  }

  /** The reader's side: the texts between newlines. */
  function Split(text: string): (parts: seq<string>)
    ensures parts != []
  {
    if text == "" then [""] else Extended(text[0], Split(text[1..]))
  }

  function Extended(c: char, parts: seq<string>): seq<string>
    requires parts != []
  {
    if c == '\n' then [""] + parts else [[c] + parts[0]] + parts[1..]
  }

  function Frames(batches: seq<seq<string>>): seq<string> {
    if batches == [] then [] else [Frame(batches[0])] + Frames(batches[1..])
  }

  function Received(frames: seq<string>): seq<string> {
    if frames == [] then [] else Split(frames[0]) + Received(frames[1..])
  }

  /** The stream a split into batches is a split of. */
  function Flat(batches: seq<seq<string>>): seq<string> {
    if batches == [] then [] else batches[0] + Flat(batches[1..])
  }

  predicate NoneEmpty<T>(batches: seq<seq<T>>) {
    forall i | 0 <= i < |batches| :: batches[i] != []
  }

  predicate IsClean(text: string) {
    '\n' !in text
  }

  lemma {:induction false} SplitIsOneIff(text: string)
    ensures Split(text) == [text] <==> IsClean(text)
    ensures |Split(text)| > 1 <==> !IsClean(text)
  {
    if text != "" {
      SplitIsOneIff(text[1..]);
      assert text == [text[0]] + text[1..];
    }
  }

  lemma ExtendedAppends(c: char, a: seq<string>, b: seq<string>)
    requires a != []
    ensures Extended(c, a + b) == Extended(c, a) + b
  {
  }

  lemma {:induction false} SplitAtNewline(a: string, b: string)
    ensures Split(a + "\n" + b) == Split(a) + Split(b)
  {
    var text := a + "\n" + b;
    if a == "" {
      assert text[0] == '\n' && text[1..] == b;
    } else {
      assert text[0] == a[0] && text[1..] == a[1..] + "\n" + b;
      SplitAtNewline(a[1..], b);
      ExtendedAppends(a[0], Split(a[1..]), Split(b));
    }
  }

  /** Splitting a frame splits each of its texts. */
  lemma {:induction false} SplitFrame(batch: seq<string>)
    requires batch != []
    ensures Split(Frame(batch)) == Received(batch)
  {
    if |batch| == 1 {
      assert Received(batch[1..]) == [];
    } else {
      SplitAtNewline(batch[0], Frame(batch[1..]));
      SplitFrame(batch[1..]);
    }
  }

  lemma ReceivedOne(text: string, rest: seq<string>)
    ensures Received([text] + rest) == Split(text) + Received(rest)
  {
    assert ([text] + rest)[1..] == rest;
  }

  lemma {:induction false} ReceivedAppends(a: seq<string>, b: seq<string>)
    ensures Received(a + b) == Received(a) + Received(b)
  {
    if a == [] {
      assert a + b == b;
    } else {
      var text, rest := a[0], a[1..];
      assert a == [text] + rest && a + b == [text] + (rest + b);
      ReceivedAppends(rest, b);
      ReceivedOne(text, rest);
      ReceivedOne(text, rest + b);
    }
  }

  /** How the stream is split into frames makes no difference to what is received. */
  lemma {:induction false} FramesDoNotMatter(batches: seq<seq<string>>)
    requires NoneEmpty(batches)
    ensures Received(Frames(batches)) == Received(Flat(batches))
  {
    if batches != [] {
      SplitFrame(batches[0]);
      FramesDoNotMatter(batches[1..]);
      ReceivedAppends(batches[0], Flat(batches[1..]));
    }
  }

  lemma {:induction false} ReceivedIsSame(texts: seq<string>)
    ensures |Received(texts)| >= |texts|
    ensures Received(texts) == texts <==> forall t | t in texts :: IsClean(t)
    ensures |Received(texts)| == |texts| <==> forall t | t in texts :: IsClean(t)
  {
    if texts != [] {
      SplitIsOneIff(texts[0]);
      ReceivedIsSame(texts[1..]);
      assert texts == [texts[0]] + texts[1..];
    }
  }

  /** The reader gets back exactly the queued texts, in order, however the pump has batched them, if and
      only if none of them contains a newline. */
  lemma RoundTripIff(batches: seq<seq<string>>)
    requires NoneEmpty(batches)
    ensures Received(Frames(batches)) == Flat(batches) <==> forall t | t in Flat(batches) :: IsClean(t)
  {
    FramesDoNotMatter(batches);
    ReceivedIsSame(Flat(batches));
  }

  // ---------- the pump ----------

  lemma {:induction false} FrameGrows(batch: seq<string>, text: string)
    requires batch != []
    ensures Frame(batch + [text]) == Frame(batch) + "\n" + text
  {
    if |batch| > 1 {
      FrameGrows(batch[1..], text);
      assert (batch + [text])[1..] == batch[1..] + [text];
      assert [batch[0]] + batch[1..] == batch;
    }
  }

  /** One turn of `WritePump` in which `queue` is what its receives yield and `n` what `len(c.Send)` was
      after the first: the frame written, and what is left in the channel. */
  method WriteFrame(queue: seq<string>, n: nat) returns (w: string, rest: seq<string>)
    requires n < |queue|
    ensures w == Frame(queue[..n + 1])
    ensures rest == queue[n + 1..]
  {
    w := queue[0];
    rest := queue[1..];
    for i := 0 to n
      invariant w == Frame(queue[..i + 1])
      invariant rest == queue[i + 1..]
    {
      assert queue[..i + 2] == queue[..i + 1] + [rest[0]];
      FrameGrows(queue[..i + 1], rest[0]);
      w := w + "\n";
      w := w + rest[0];
      rest := rest[1..];
    }
  }

  lemma FramesFirst(first: seq<string>, rest: seq<seq<string>>)
    ensures Frames([first] + rest) == [Frame(first)] + Frames(rest)
    ensures Flat([first] + rest) == first + Flat(rest)
  {
    assert ([first] + rest)[1..] == rest;
  }

  lemma {:induction false} FramesGrow(batches: seq<seq<string>>, batch: seq<string>)
    ensures Frames(batches + [batch]) == Frames(batches) + [Frame(batch)]
    ensures Flat(batches + [batch]) == Flat(batches) + batch
  {
    if batches == [] {
      FramesFirst(batch, []);
      assert batches + [batch] == [batch] + [];
    } else {
      FramesGrow(batches[1..], batch);
      FramesFirst(batches[0], batches[1..] + [batch]);
      assert batches + [batch] == [batches[0]] + (batches[1..] + [batch]);
    }
  }

  /** The pump over the life of a connection. `arrived[i]` is how much of `stream` the hub has queued when
      the pump looks at the channel's length for the `i`th time. It stops when the channel is closed and
      empty, and meanwhile has lost, doubled and reordered nothing. */
  method WritePump(stream: seq<string>, arrived: seq<nat>) returns (frames: seq<string>, sent: nat)
    requires forall i | 0 <= i < |arrived| :: arrived[i] <= |stream|
    ensures sent <= |stream| && Received(frames) == Received(stream[..sent])
    ensures (forall t | t in stream :: IsClean(t)) ==> Received(frames) == stream[..sent]
    ensures |arrived| >= |stream| ==> sent == |stream|
  {
    frames, sent := [], 0;
    ghost var batches: seq<seq<string>> := [];
    for i := 0 to |arrived|
      invariant sent <= |stream| && (sent < |stream| ==> i <= sent)
      invariant frames == Frames(batches) && Flat(batches) == stream[..sent]
      invariant NoneEmpty(batches)
    {
      if sent < |stream| {
        var n := if arrived[i] > sent + 1 then arrived[i] - sent - 1 else 0;
        var w, rest := WriteFrame(stream[sent..], n);
        ghost var batch := stream[sent..][..n + 1];
        FramesGrow(batches, batch);
        assert stream[..sent] + batch == stream[..sent + n + 1];
        frames, batches := frames + [w], batches + [batch];
        sent := sent + n + 1;
      }
    }
    FramesDoNotMatter(batches);
    ReceivedIsSame(stream[..sent]);
  }
}
