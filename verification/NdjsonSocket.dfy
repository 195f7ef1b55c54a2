/** JSON-RPC frames over a byte stream, one line each (`createNdjsonSocket`): the frame reassembler with its
    cap, and the outbound queue over a stream that takes as many bytes as it likes. */
module NdjsonSocket {
  import opened Bytes
  import opened Utf8

  // ---- Receiving, a byte at a time ----

  /** The frame cap, and when the socket's owner closes it: after a message, given every one delivered so far. */
  datatype Receiver = Receiver(maxFrameBytes: nat, closesAfter: seq<Text> -> bool)

  datatype Inbound = Inbound(partial: seq<Byte>, delivered: seq<Text>, closed: bool)

  const NOTHING_RECEIVED := Inbound([], [], false)

  function Shut(st: Inbound): Inbound {
    Inbound([], st.delivered, true)
  }

  function ReceiveByte(r: Receiver, st: Inbound, b: Byte): Inbound {
    if st.closed then st
    else if b == NEWLINE then Frame(r, st, st.partial)
    else if |st.partial| + 1 > r.maxFrameBytes then Shut(st)
    else st.(partial := st.partial + [b])
  }

  /** A whole frame: delivered, or the close of a socket whose peer sent what is not UTF-8. */
  function Frame(r: Receiver, st: Inbound, frame: seq<Byte>): Inbound {
    match Decode(frame)
    case None => Shut(st)
    case Some(text) =>
      var delivered := st.delivered + [text];
      Inbound([], delivered, r.closesAfter(delivered))
  }

  function ReceiveAll(r: Receiver, st: Inbound, bytes: seq<Byte>): Inbound
    decreases |bytes|
  {
    if bytes == [] then st else ReceiveAll(r, ReceiveByte(r, st, bytes[0]), bytes[1..])
  }

  /** The chunks the stream's data callback is given. */
  function ReceiveChunks(r: Receiver, st: Inbound, chunks: seq<seq<Byte>>): Inbound
    decreases |chunks|
  {
    if chunks == [] then st else ReceiveChunks(r, ReceiveAll(r, st, chunks[0]), chunks[1..])
  }

  lemma {:induction false} ReceiveConcat(r: Receiver, st: Inbound, a: seq<Byte>, b: seq<Byte>)
    ensures ReceiveAll(r, st, a + b) == ReceiveAll(r, ReceiveAll(r, st, a), b)
    decreases |a|
  {
    if a == [] {
      assert a + b == b;
    } else {
      ReceiveConcat(r, ReceiveByte(r, st, a[0]), a[1..], b);
      assert (a + b)[1..] == a[1..] + b;
    }
  }

  /** What is delivered and whether the socket closed depend on the bytes alone, never on how they were cut. */
  lemma {:induction false} ChunkingIsIrrelevant(r: Receiver, st: Inbound, chunks: seq<seq<Byte>>)
    ensures ReceiveChunks(r, st, chunks) == ReceiveAll(r, st, Flatten(chunks))
    decreases |chunks|
  {
    if chunks != [] {
      ReceiveConcat(r, st, chunks[0], Flatten(chunks[1..]));
      ChunkingIsIrrelevant(r, ReceiveAll(r, st, chunks[0]), chunks[1..]);
    }
  }

  lemma {:induction false} ClosedStaysClosed(r: Receiver, st: Inbound, bytes: seq<Byte>)
    requires st.closed
    ensures ReceiveAll(r, st, bytes) == st
    decreases |bytes|
  {
    if bytes != [] {
      ClosedStaysClosed(r, st, bytes[1..]);
    }
  }

  /** Bytes without a newline: kept whole, or over the cap. */
  lemma {:induction false} ReceivePiece(r: Receiver, st: Inbound, piece: seq<Byte>)
    requires !st.closed && NEWLINE !in piece && |st.partial| <= r.maxFrameBytes
    ensures ReceiveAll(r, st, piece)
         == if |st.partial| + |piece| > r.maxFrameBytes then Shut(st) else st.(partial := st.partial + piece)
    decreases |piece|
  {
    if piece == [] {
      assert st.partial + piece == st.partial;
    } else {
      var st' := ReceiveByte(r, st, piece[0]);
      if st'.closed {
        ClosedStaysClosed(r, st', piece[1..]);
      } else {
        ReceivePiece(r, st', piece[1..]);
        assert st'.partial + piece[1..] == st.partial + piece;
      }
    }
  }

  /** One line: a frame within the cap is delivered, a longer one closes. */
  lemma ReceiveLine(r: Receiver, st: Inbound, piece: seq<Byte>)
    requires !st.closed && NEWLINE !in piece && |st.partial| <= r.maxFrameBytes
    ensures ReceiveAll(r, st, piece + [NEWLINE])
         == if |st.partial| + |piece| > r.maxFrameBytes then Shut(st) else Frame(r, st, st.partial + piece)
  {
    ReceiveConcat(r, st, piece, [NEWLINE]);
    ReceivePiece(r, st, piece);
    var st' := ReceiveAll(r, st, piece);
    assert ReceiveAll(r, st', [NEWLINE]) == ReceiveByte(r, st', NEWLINE);
  }

  /** However long the peer's line, no more than the cap is held. */
  lemma {:induction false} PartialIsBounded(r: Receiver, st: Inbound, bytes: seq<Byte>)
    requires |st.partial| <= r.maxFrameBytes
    ensures |ReceiveAll(r, st, bytes).partial| <= r.maxFrameBytes
    decreases |bytes|
  {
    if bytes != [] {
      PartialIsBounded(r, ReceiveByte(r, st, bytes[0]), bytes[1..]);
    }
  }

  // ---- End to end ----

  function Line(text: Text): seq<Byte> {
    Encode(text) + [NEWLINE]
  }

  /** The bytes of the messages sent. */
  function Wire(texts: seq<Text>): seq<Byte> {
    if texts == [] then [] else Line(texts[0]) + Wire(texts[1..])
  }

  /** The owner leaves the socket open as it is handed `texts` after `before`. */
  predicate StaysOpen(r: Receiver, before: seq<Text>, texts: seq<Text>)
    decreases |texts|
  {
    texts != [] ==> !r.closesAfter(before + [texts[0]]) && StaysOpen(r, before + [texts[0]], texts[1..])
  }

  /** What `send` accepts: `JSON.stringify` writes no raw newline. */
  predicate AllSendable(texts: seq<Text>) {
    forall i :: 0 <= i < |texts| ==> LINE_FEED !in texts[i]
  }

  predicate AllFit(r: Receiver, texts: seq<Text>) {
    forall i :: 0 <= i < |texts| ==> |Encode(texts[i])| <= r.maxFrameBytes
  }

  /** A message of the sender arrives as it was sent, unless it is over the receiver's cap. */
  lemma ReceiveMessage(r: Receiver, st: Inbound, text: Text)
    requires !st.closed && st.partial == [] && LINE_FEED !in text
    ensures ReceiveAll(r, st, Line(text))
         == if |Encode(text)| > r.maxFrameBytes then Shut(st)
            else Inbound([], st.delivered + [text], r.closesAfter(st.delivered + [text]))
  {
    NewlineIsLineFeed(text);
    DecodeEncode(text);
    ReceiveLine(r, st, Encode(text));
    assert [] + Encode(text) == Encode(text);
  }

  /** Every message is delivered and the socket stays open, exactly when none is over the receiver's cap. */
  lemma {:induction false} AllDeliveredIffFit(r: Receiver, st: Inbound, texts: seq<Text>)
    requires !st.closed && st.partial == [] && AllSendable(texts) && StaysOpen(r, st.delivered, texts)
    ensures ReceiveAll(r, st, Wire(texts)) == Inbound([], st.delivered + texts, false) <==> AllFit(r, texts)
    ensures !AllFit(r, texts) ==> ReceiveAll(r, st, Wire(texts)).closed
    decreases |texts|
  {
    if texts == [] {
      assert st.delivered + texts == st.delivered;
    } else {
      var st' := ReceiveAll(r, st, Line(texts[0]));
      ReceiveMessage(r, st, texts[0]);
      ReceiveConcat(r, st, Line(texts[0]), Wire(texts[1..]));
      if st'.closed {
        ClosedStaysClosed(r, st', Wire(texts[1..]));
      } else {
        AllDeliveredIffFit(r, st', texts[1..]);
        assert st'.delivered + texts[1..] == st.delivered + texts;
        assert AllFit(r, texts) <==> AllFit(r, texts[1..]) by {
          assert forall i :: 1 <= i < |texts| ==> texts[i] == texts[1..][i - 1];
        }
      }
    }
  }

  /** Where a cut of the wire falls: in the line of message `k`, after `j` of its bytes. */
  lemma {:induction false} CutFallsIn(texts: seq<Text>, cut: nat) returns (k: nat, j: nat)
    requires cut < |Wire(texts)|
    ensures k < |texts| && j < |Line(texts[k])|
    ensures Wire(texts)[..cut] == Wire(texts[..k]) + Line(texts[k])[..j]
    decreases |texts|
  {
    var line, rest := Line(texts[0]), Wire(texts[1..]);
    if cut < |line| {
      k, j := 0, cut;
      assert (line + rest)[..cut] == [] + line[..cut];
    } else {
      k, j := CutFallsIn(texts[1..], cut - |line|);
      assert texts[..k + 1][0] == texts[0] && texts[..k + 1][1..] == texts[1..][..k];
      assert (line + rest)[..cut] == line + rest[..cut - |line|];
      k := k + 1;
      Associate(line, Wire(texts[1..k]), Line(texts[k])[..j]);
    }
  }

  /** From the bytes of a prefix of the wire, whatever their chunks: the messages whose lines are complete, in
      order, and the bytes of the next so far. */
  lemma DeliversPrefix(r: Receiver, texts: seq<Text>, chunks: seq<seq<Byte>>) returns (k: nat)
    requires Flatten(chunks) <= Wire(texts) && AllSendable(texts) && AllFit(r, texts) && StaysOpen(r, [], texts)
    ensures k <= |texts|
    ensures var st := ReceiveChunks(r, NOTHING_RECEIVED, chunks);
            && st.delivered == texts[..k] && !st.closed
            && Flatten(chunks) == Wire(texts[..k]) + st.partial
            && (Flatten(chunks) == Wire(texts) ==> k == |texts|)
  {
    var bytes := Flatten(chunks);
    ChunkingIsIrrelevant(r, NOTHING_RECEIVED, chunks);
    assert bytes == Wire(texts)[..|bytes|];
    if |bytes| == |Wire(texts)| {
      k := |texts|;
      AllDeliveredIffFit(r, NOTHING_RECEIVED, texts);
      assert bytes == Wire(texts);
      assert texts[..k] == texts && [] + texts == texts;
      assert ReceiveAll(r, NOTHING_RECEIVED, bytes) == Inbound([], texts, false);
    } else {
      var j;
      k, j := CutFallsIn(texts, |bytes|);
      ReceiveCut(r, texts, k, j);
    }
  }

  lemma ReceiveCut(r: Receiver, texts: seq<Text>, k: nat, j: nat)
    requires AllSendable(texts) && AllFit(r, texts) && StaysOpen(r, [], texts)
    requires k < |texts| && j < |Line(texts[k])|
    ensures ReceiveAll(r, NOTHING_RECEIVED, Wire(texts[..k]) + Line(texts[k])[..j])
         == Inbound(Line(texts[k])[..j], texts[..k], false)
  {
    StaysOpenPrefix(r, [], texts, k);
    AllDeliveredIffFit(r, NOTHING_RECEIVED, texts[..k]);
    var piece, st := Line(texts[k])[..j], Inbound([], texts[..k], false);
    assert [] + texts[..k] == texts[..k];
    assert AllFit(r, texts[..k]);
    assert ReceiveAll(r, NOTHING_RECEIVED, Wire(texts[..k])) == st;
    ReceiveConcat(r, NOTHING_RECEIVED, Wire(texts[..k]), piece);
    NewlineIsLineFeed(texts[k]);
    assert piece == Encode(texts[k])[..j];
    assert forall i :: 0 <= i < j ==> piece[i] == Encode(texts[k])[i];
    ReceivePiece(r, st, piece);
    assert [] + piece == piece;
  }

  lemma {:induction false} StaysOpenPrefix(r: Receiver, before: seq<Text>, texts: seq<Text>, k: nat)
    requires k <= |texts| && StaysOpen(r, before, texts)
    ensures StaysOpen(r, before, texts[..k])
    decreases |texts|
  {
    if k > 0 {
      StaysOpenPrefix(r, before + [texts[0]], texts[1..], k - 1);
      assert texts[..k][1..] == texts[1..][..k - 1];
    }
  }

  lemma OneMore(delivered: seq<Text>, texts: seq<Text>, k: nat)
    requires k < |texts|
    ensures delivered + [texts[0]] + texts[1..][..k] == delivered + texts[..k + 1]
  {
  }

  /** Whatever the caps, the cut and the owner's closes: what was delivered is a prefix of what was sent. */
  lemma {:induction false} NothingInvented(r: Receiver, st: Inbound, texts: seq<Text>, bytes: seq<Byte>)
    requires !st.closed && st.partial == [] && AllSendable(texts) && bytes <= Wire(texts)
    ensures exists k :: 0 <= k <= |texts| && ReceiveAll(r, st, bytes).delivered == st.delivered + texts[..k]
    decreases |texts|
  {
    assert st.delivered + texts[..0] == st.delivered;
    if texts != [] {
      var line := Line(texts[0]);
      if |bytes| < |line| {
        NewlineIsLineFeed(texts[0]);
        assert bytes == Wire(texts)[..|bytes|] == Encode(texts[0])[..|bytes|];
        ReceivePiece(r, st, bytes);
      } else {
        var rest := bytes[|line|..];
        assert bytes == line + rest && rest <= Wire(texts[1..]);
        ReceiveConcat(r, st, line, rest);
        ReceiveMessage(r, st, texts[0]);
        hide ReceiveAll, Wire, Line;
        var st' := ReceiveAll(r, st, line);
        assert st.delivered + texts[..1] == st.delivered + [texts[0]];
        if st'.closed {
          ClosedStaysClosed(r, st', rest);
        } else {
          NothingInvented(r, st', texts[1..], rest);
          var k :| 0 <= k <= |texts[1..]| && ReceiveAll(r, st', rest).delivered == st'.delivered + texts[1..][..k];
          OneMore(st.delivered, texts, k);
        }
      }
    }
  }

  // ---- The socket ----

  lemma {:induction false} WireAppend(texts: seq<Text>, text: Text)
    ensures Wire(texts + [text]) == Wire(texts) + Line(text)
    decreases |texts|
  {
    if texts == [] {
      assert Wire([text]) == Line(text) + Wire([]);
    } else {
      WireAppend(texts[1..], text);
      assert (texts + [text])[1..] == texts[1..] + [text];
      Associate(Line(texts[0]), Wire(texts[1..]), Line(text));
    }
  }

  /** What the stream makes of a write: it throws, takes so many bytes, or answers negative once closed. */
  datatype WriteAnswer = Throws | Takes(n: int)

  function Taken(answers: seq<WriteAnswer>, data: seq<Byte>): Option<int> {
    if answers == [] then Some(0)
    else
      match answers[0]
      case Throws => None
      case Takes(n) => Some(if n < |data| then n else |data|)
  }

  /** Whether a write throws or fails before the stream takes only a part of one. */
  predicate WriteFails(answers: seq<WriteAnswer>, queue: seq<seq<Byte>>) {
    if answers == [] || queue == [] then false
    else
      match answers[0]
      case Throws => true
      case Takes(n) => n < 0 || (n >= |queue[0]| && WriteFails(answers[1..], queue[1..]))
  }

  /** The byte stream under the socket. Its answers are any: it takes a part of each write, or none. */
  class ByteStream {
    var answers: seq<WriteAnswer>
    var written: seq<Byte>
    var ended: bool
    /** A write was cut short and the drain callback is still to come. */
    var owesDrain: bool

    method Write(data: seq<Byte>) returns (n: Option<int>)
      modifies this`answers, this`written, this`owesDrain
      ensures n == Taken(old(answers), data)
      ensures answers == if old(answers) == [] then [] else old(answers)[1..]
      ensures written == old(written) + if n.Some? && n.value > 0 then data[..n.value] else []
      ensures owesDrain <==> n.Some? && 0 <= n.value < |data|
    {
      n := Taken(answers, data);
      answers := if answers == [] then [] else answers[1..];
      owesDrain := n.Some? && 0 <= n.value < |data|;
      if n.Some? && n.value > 0 {
        written := written + data[..n.value];
      }
    }

    method End()
      modifies this`ended
      ensures ended
    {
      ended := true;
    }
  }

  datatype SendResult = Sent | SocketClosed | HasNewline | TooLarge

  class Socket {
    const receiver: Receiver
    const stream: ByteStream
    var closed: bool
    var parts: seq<seq<Byte>>
    var partBytes: nat
    var queue: seq<seq<Byte>>
    var queuedBytes: nat
    /** How many callers of `drained` wait. */
    var drainWaiters: nat
    /** How often `onclose` was scheduled. */
    var closeNotices: nat
    /** Every message handed to `onmessage`. */
    var delivered: seq<Text>
    ghost var sent: seq<Text>

    ghost function Received(): Inbound
      reads this
    {
      Inbound(Flatten(parts), delivered, closed)
    }

    ghost predicate ValidInbound()
      reads this
    {
      && partBytes == |Flatten(parts)| <= receiver.maxFrameBytes
      && (closed ==> parts == [])
      && closeNotices == if closed then 1 else 0
    }

    /** Bytes written and bytes queued are everything accepted, in order, until the socket closes. */
    ghost predicate ValidOutbound()
      reads this, stream
    {
      && AllSendable(sent) && AllFit(receiver, sent)
      && queuedBytes == |Flatten(queue)|
      && (forall i :: 0 <= i < |queue| ==> queue[i] != [])
      && stream.ended == closed
      && if closed then queue == [] && drainWaiters == 0 && stream.written <= Wire(sent)
         else stream.written + Flatten(queue) == Wire(sent)
    }

    /** Between callbacks: bytes are queued only while the stream owes a drain, and only then does a caller wait. */
    ghost predicate Valid()
      reads this, stream
    {
      && ValidInbound() && ValidOutbound()
      && (queue != [] ==> stream.owesDrain)
      && (drainWaiters > 0 ==> queue != [])
    }

    constructor (stream: ByteStream, receiver: Receiver)
      requires stream.written == [] && !stream.ended
      ensures Valid() && Received() == NOTHING_RECEIVED && sent == []
      ensures this.stream == stream && this.receiver == receiver
    {
      this.stream, this.receiver := stream, receiver;
      closed, parts, partBytes, queue, queuedBytes := false, [], 0, [], 0;
      drainWaiters, closeNotices := 0, 0;
      delivered, sent := [], [];
    }

    /** `close` and `ended`: once, whatever called it and however often. */
    method Close()
      requires ValidInbound() && ValidOutbound()
      modifies this`closed, this`queue, this`queuedBytes, this`parts, this`partBytes, this`drainWaiters,
          this`closeNotices, stream`ended
      ensures Valid() && closed
      ensures Received() == if old(closed) then old(Received()) else Shut(old(Received()))
    {
      if closed {
        return;
      }
      closed := true;
      queue, queuedBytes, parts, partBytes := [], 0, [], 0;
      drainWaiters := 0;
      stream.End();
      closeNotices := closeNotices + 1;
    }

    /** Writes queued bytes until the stream stops taking them: from the queue's start, and from its drain
        callback, which settles what the stream owed. */
    method Flush()
      requires ValidInbound() && ValidOutbound()
      modifies this, stream
      ensures Valid() && sent == old(sent)
      ensures closed <==> old(closed) || WriteFails(old(stream.answers), old(queue))
      ensures Received() == if closed && !old(closed) then Shut(old(Received())) else old(Received())
    {
      hide Encode, Wire;
      while queue != [] && !closed
        invariant ValidInbound() && ValidOutbound()
        invariant sent == old(sent) && delivered == old(delivered)
        invariant closed == old(closed) && parts == old(parts)
        invariant WriteFails(stream.answers, queue) == WriteFails(old(stream.answers), old(queue))
        decreases |queue|
      {
        var head, rest := queue[0], queue[1..];
        ghost var before := stream.written;
        var written := stream.Write(head);
        if written == None || written.value < 0 {
          Close();
          return;
        }
        MoveBytes(before, head, Flatten(rest), written.value);
        queuedBytes := queuedBytes - written.value;
        if written.value < |head| {
          queue := [head[written.value..]] + rest;
          assert queue[1..] == rest;
          return;
        }
        queue := rest;
      }
      if queue == [] {
        drainWaiters := 0;
      }
    }

    /** Queues one message and writes what the stream takes, unless earlier bytes already wait. */
    method Send(data: Text) returns (r: SendResult)
      requires Valid()
      modifies this, stream
      ensures Valid()
      ensures r == if old(closed) then SocketClosed else if LINE_FEED in data then HasNewline
                   else if |Encode(data)| > receiver.maxFrameBytes then TooLarge else Sent
      ensures sent == if r == Sent then old(sent) + [data] else old(sent)
      ensures r == Sent ==>
        (closed <==> old(queue) == [] && WriteFails(old(stream.answers), [Encode(data) + [NEWLINE]]))
      ensures Received() == if closed && !old(closed) then Shut(old(Received())) else old(Received())
      ensures r != Sent ==> unchanged(this) && unchanged(stream)
    {
      hide Encode, Wire;
      if closed {
        return SocketClosed;
      }
      if LINE_FEED in data {
        return HasNewline;
      }
      var bytes := Encode(data) + [NEWLINE];
      if |bytes| - 1 > receiver.maxFrameBytes {
        return TooLarge;
      }
      FlattenLast(queue, bytes);
      WireAppend(sent, data);
      Associate(stream.written, Flatten(queue), bytes);
      var first := queue == [];
      queue := queue + [bytes];
      queuedBytes := queuedBytes + |bytes|;
      sent := sent + [data];
      if first {
        Flush();
      }
      return Sent;
    }

    /** Whether the queue is empty already; else the caller waits until it is, or the socket closes. */
    method Drained() returns (now: bool)
      requires Valid()
      modifies this`drainWaiters
      ensures Valid() && now == (closed || queue == [])
      ensures drainWaiters == old(drainWaiters) + if now then 0 else 1
    {
      now := closed || queue == [];
      if !now {
        drainWaiters := drainWaiters + 1;
      }
    }

    /** A chunk of the stream, split on newlines. */
    method Receive(chunk: seq<Byte>)
      requires Valid()
      modifies this, stream`ended
      ensures Valid() && sent == old(sent)
      ensures Received() == ReceiveAll(receiver, old(Received()), chunk)
    {
      hide ReceiveByte, Decode, Wire, Frame;
      var start := 0;
      assert chunk[0..] == chunk;
      while !closed && start < |chunk|
        invariant Valid() && sent == old(sent) && start <= |chunk|
        invariant ReceiveAll(receiver, Received(), chunk[start..]) == ReceiveAll(receiver, old(Received()), chunk)
        decreases |chunk| - start
      {
        ghost var st := Received();
        var end := start + FirstNewline(chunk[start..]);
        var piece := chunk[start..end];
        PieceFirst(receiver, st, chunk, start);
        if partBytes + |piece| > receiver.maxFrameBytes {
          Close();
          return;
        }
        if end == |chunk| {
          FlattenLast(parts, piece);
          parts := parts + [piece];
          partBytes := partBytes + |piece|;
          return;
        }
        start := end + 1;
        TakeFrame(piece);
      }
      if closed {
        ClosedStaysClosed(receiver, Received(), chunk[start..]);
      } else {
        assert chunk[start..] == [];
      }
    }

    /** The bytes up to a newline: with the parts before them, a frame. */
    method TakeFrame(piece: seq<Byte>)
      requires Valid() && !closed
      modifies this, stream`ended
      ensures Valid() && sent == old(sent)
      ensures Received() == Frame(receiver, old(Received()), old(Received()).partial + piece)
    {
      hide Wire, Decode;
      var frame := if parts == [] then piece else Flatten(parts + [piece]);
      FlattenLast(parts, piece);
      assert frame == old(Received()).partial + piece;
      parts, partBytes := [], 0;
      var text := Decode(frame);
      if text == None {
        Close();
      } else {
        Deliver(text.value);
      }
    }

    /** `onmessage`: the owner may close the socket as it takes the message. */
    method Deliver(text: Text)
      requires Valid() && !closed && parts == []
      modifies this, stream`ended
      ensures Valid() && sent == old(sent)
      ensures Received() == Inbound([], old(delivered) + [text], receiver.closesAfter(old(delivered) + [text]))
    {
      delivered := delivered + [text];
      if receiver.closesAfter(delivered) {
        Close();
      }
    }
  }

  /** From `send` at one end to `onmessage` at the other, whatever the stream took of each write and however it
      cut the bytes: only messages sent arrive, in order, none twice; and once the queue has drained and its
      bytes arrived, all of them, when the sender's cap is at most the receiver's. */
  lemma EndToEnd(sender: Socket, r: Receiver, chunks: seq<seq<Byte>>)
    requires sender.Valid() && Flatten(chunks) <= sender.stream.written
    ensures exists k ::
        0 <= k <= |sender.sent| && ReceiveChunks(r, NOTHING_RECEIVED, chunks).delivered == sender.sent[..k]
    ensures !sender.closed && sender.queue == [] && Flatten(chunks) == sender.stream.written
         && sender.receiver.maxFrameBytes <= r.maxFrameBytes && StaysOpen(r, [], sender.sent)
         ==> ReceiveChunks(r, NOTHING_RECEIVED, chunks) == Inbound([], sender.sent, false)
  {
    hide Encode, Decode, ReceiveByte;
    ChunkingIsIrrelevant(r, NOTHING_RECEIVED, chunks);
    NothingInvented(r, NOTHING_RECEIVED, sender.sent, Flatten(chunks));
    var k :| 0 <= k <= |sender.sent| && ReceiveAll(r, NOTHING_RECEIVED, Flatten(chunks)).delivered
      == [] + sender.sent[..k];
    assert [] + sender.sent[..k] == sender.sent[..k];
    if !sender.closed && sender.queue == [] && Flatten(chunks) == sender.stream.written
      && sender.receiver.maxFrameBytes <= r.maxFrameBytes && StaysOpen(r, [], sender.sent)
    {
      assert sender.stream.written + [] == sender.stream.written;
      AllDeliveredIffFit(r, NOTHING_RECEIVED, sender.sent);
      assert [] + sender.sent == sender.sent;
    }
  }

  /** The chunk from `start`: its first line's bytes, then what the newline makes of them, then the rest. */
  lemma PieceFirst(r: Receiver, st: Inbound, chunk: seq<Byte>, start: nat)
    requires !st.closed && start <= |chunk| && |st.partial| <= r.maxFrameBytes
    ensures var end := start + FirstNewline(chunk[start..]);
            var piece := chunk[start..end];
            if |st.partial| + |piece| > r.maxFrameBytes then ReceiveAll(r, st, chunk[start..]) == Shut(st)
            else if end == |chunk| then ReceiveAll(r, st, chunk[start..]) == st.(partial := st.partial + piece)
            else ReceiveAll(r, st, chunk[start..]) == ReceiveAll(r, Frame(r, st, st.partial + piece), chunk[end + 1..])
  {
    hide Decode, Frame;
    var end := start + FirstNewline(chunk[start..]);
    var piece := chunk[start..end];
    assert chunk[start..] == piece + chunk[end..];
    assert forall i :: 0 <= i < |piece| ==> piece[i] == chunk[start..][i];
    ReceiveConcat(r, st, piece, chunk[end..]);
    ReceivePiece(r, st, piece);
    if |st.partial| + |piece| > r.maxFrameBytes {
      ClosedStaysClosed(r, Shut(st), chunk[end..]);
    } else if end < |chunk| {
      assert chunk[end] == NEWLINE;
      assert chunk[end..][1..] == chunk[end + 1..];
      assert ReceiveByte(r, st.(partial := st.partial + piece), NEWLINE)
          == Frame(r, st.(partial := st.partial + piece), st.partial + piece);
      SameFrame(r, st, st.(partial := st.partial + piece), st.partial + piece);
    }
  }

  lemma SameFrame(r: Receiver, st: Inbound, st': Inbound, frame: seq<Byte>)
    requires st.delivered == st'.delivered
    ensures Frame(r, st, frame) == Frame(r, st', frame)
  {
  }

  lemma MoveBytes(before: seq<Byte>, head: seq<Byte>, rest: seq<Byte>, n: nat)
    requires n <= |head|
    ensures before + head[..n] + (head[n..] + rest) == before + (head + rest)
    ensures n == |head| ==> before + head[..n] + rest == before + (head + rest)
  {
  }
}
