/** What a resumed command keeps over every run: the server shows a prefix of the command's one history. */
module ExecRefinement {
  import opened Bytes
  import opened ExecRecords
  import opened ExecTail
  import opened ExecReader
  import opened ExecSession

  // ---- What the server was given, against the history ----

  /** The view `onUpdate` built: every update, and an attach's view in place of the ones it skips. */
  function Shows(given: seq<Given>): Option<View> {
    if given == [] then None
    else
      match given[|given| - 1]
      case Took(value) => ShowRecord(Shows(given[..|given| - 1]), value)
      case Replaced(view) => Some(ApplyUpdate(Shows(given[..|given| - 1]), Replace(view)))
  }

  /** `given` is records `0..k` in order, none twice, and none left out but under a view that covers it. */
  ghost predicate Explains(given: seq<Given>, history: seq<Record>, k: nat) {
    k <= |history| &&
    if given == [] then k == 0
    else
      var before := given[..|given| - 1];
      match given[|given| - 1]
      case Took(value) => k > 0 && value == history[k - 1].value && Explains(before, history, k - 1)
      case Replaced(view) => Fold(history[..k]) == Some(view) && exists j: nat :: j <= k && Explains(before, history, j)
  }

  lemma {:induction false} ExplainedShows(given: seq<Given>, history: seq<Record>, k: nat)
    requires Explains(given, history, k)
    ensures Shows(given) == Fold(history[..k])
  {
    if given != [] {
      var before := given[..|given| - 1];
      if given[|given| - 1].Took? {
        ExplainedShows(before, history, k - 1);
        assert history[..k][..k - 1] == history[..k - 1];
      }
    }
  }

  lemma {:induction false} ExplainsStable(given: seq<Given>, history: seq<Record>, r: Record, k: nat)
    requires Explains(given, history, k)
    ensures Explains(given, history + [r], k)
  {
    if given != [] {
      var before := given[..|given| - 1];
      if given[|given| - 1].Took? {
        ExplainsStable(before, history, r, k - 1);
      } else {
        var j: nat :| j <= k && Explains(before, history, j);
        ExplainsStable(before, history, r, j);
        assert (history + [r])[..k] == history[..k];
      }
    }
  }

  /** Taking records `k..k'` extends what is explained. */
  lemma {:induction false} ExplainsTaken(given: seq<Given>, history: seq<Record>, k: nat, k': nat, taken: seq<Given>)
    requires Explains(given, history, k) && k <= k' <= |history|
    requires |taken| == k' - k && forall i :: 0 <= i < |taken| ==> taken[i] == Took(history[k + i].value)
    ensures Explains(given + taken, history, k')
    decreases |taken|
  {
    if taken == [] {
      assert given + taken == given;
    } else {
      var front := taken[..|taken| - 1];
      ExplainsTaken(given, history, k, k' - 1, front);
      assert (given + taken)[..|given + taken| - 1] == given + front;
    }
  }

  /** The updates given are those of a prefix of the records taken: of all of them unless `onUpdate` threw. */
  ghost predicate Shown(given: seq<Given>, history: seq<Record>, k: nat, failed: bool) {
    exists j: nat :: j <= k && Explains(given, history, j) && (failed || j == k)
  }

  // ---- The invariant ----

  ghost predicate NodeOk(cfg: Config, s: System) {
    && (forall i :: 0 <= i < |s.history| ==> Printed(cfg.parse, s.history[i]))
    && ExitLast(s.history)
    && s.starts <= 1
    && (s.starts == 0 ==> s.history == [] && s.exec == None && s.streams == map[])
    && (s.kept ==> s.exec.Some?)
    && (s.exec.Some? ==> ExecOk(cfg, s.exec.value, s.history, s.kept, s.streams))
  }

  ghost predicate ExecOk(cfg: Config, e: Exec, history: seq<Record>, kept: bool, streams: map<StreamId, Stream>) {
    && Faithful(e.tail, history, cfg.tailBytes)
    && (kept ==> (e.consumer.Some? <==> !e.graceArmed))
    && (e.consumer.Some? ==> e.consumer.value in streams && streams[e.consumer.value].phase.Serving?)
  }

  ghost predicate StreamOk(history: seq<Record>, exec: Option<Exec>, stream: Stream) {
    && Boundary(history, stream.offset)
    && IsAt(Text(history), stream.offset, stream.sent)
    && (stream.phase.Created? ==> stream.sent == [])
    && (stream.phase.Serving? ==>
          && exec.Some?
          && (stream.phase.next < exec.value.tail.dropped
                || NextRecord(history, stream.phase.next, stream.offset + |stream.sent|)))
  }

  predicate NextRecord(history: seq<Record>, next: int, offset: nat) {
    0 <= next <= |history| && Offset(history, next) == offset
  }

  predicate ShownAt(history: seq<Record>, offset: nat, view: View) {
    exists k :: 0 <= k <= |history| && Offset(history, k) == offset && Fold(history[..k]) == Some(view)
  }

  ghost predicate ReplyOk(history: seq<Record>, streams: map<StreamId, Stream>, id: StreamId, reply: Reply) {
    match reply
    case Started => id in streams && streams[id].offset == 0
    case Attached(offset, view) =>
      id in streams && streams[id].offset == offset && (view.Some? ==> ShownAt(history, offset, view.value))
    case Pausing => true
    case NotFound => true
    case Rejected => true
    case Garbled => true
    case AlreadyStarted => false
    case Refused => false
  }

  ghost predicate StreamsOk(s: System) {
    forall id :: id in s.streams ==> id < s.nextId && StreamOk(s.history, s.exec, s.streams[id])
  }

  ghost predicate RequestsOk(s: System) {
    && (forall id :: id in s.requests ==> id < s.nextId && id !in s.replies && id !in s.streams)
    && (forall id :: id in s.requests && s.requests[id].AttachFrom? ==> Boundary(s.history, s.requests[id].offset))
    && (forall a, b :: a in s.requests && b in s.requests && s.requests[a].Start? && s.requests[b].Start? ==> a == b)
    && (s.starts == 1 ==> NoStart(s.requests))
  }

  ghost predicate RepliesOk(s: System) {
    forall id :: id in s.replies ==> id < s.nextId && ReplyOk(s.history, s.streams, id, s.replies[id])
  }

  predicate NoStart(requests: map<StreamId, Request>) {
    forall id :: id in requests ==> !requests[id].Start?
  }

  ghost predicate ClientAt(s: System, k: nat) {
    && k <= |s.history|
    && s.client.taken == Offset(s.history, k)
    && Shown(s.client.given, s.history, k, s.client.callbackFailed)
  }

  ghost predicate PhaseOk(s: System) {
    match s.client.phase
    case ToStart => s.client == NEW_CALL && s.starts == 0 && NoStart(s.requests)
    case Starting(id) =>
      && s.client == NEW_CALL.(phase := s.client.phase) && id < s.nextId
      && (forall a :: a in s.requests && s.requests[a].Start? ==> a == id)
      && (id in s.requests ==> s.requests[id].Start?)
      && (id in s.replies ==> NoStart(s.requests) && AnswersStart(s.replies[id], s.starts))
    case Attaching(id) =>
      && id < s.nextId
      && (id in s.requests ==> s.requests[id] == AttachFrom(s.client.taken))
      && (id in s.replies ==> AnswersFrom(s.replies[id], s.client.taken))
    case Reading(id, got) =>
      && id in s.streams && got <= |s.streams[id].sent|
      && s.streams[id].offset + got == s.client.taken + |s.client.pending|
      && Slice(s.history, s.client.taken, s.client.pending)
    case Done(ExitSeen(exit)) =>
      HasExit(s.history) && s.history[|s.history| - 1].value == Exited(exit) && s.client.taken == |Text(s.history)|
    case Done(SpawnError) => NoStart(s.requests)
    case Done(MalformedOutput) => false
    case _ => true
  }

  predicate AnswersFrom(reply: Reply, taken: nat) {
    match reply
    case Attached(offset, view) => taken <= offset && (view.None? ==> offset == taken)
    case _ => reply.NotFound? || reply.Rejected? || reply.Garbled?
  }

  /** Only an answer that was garbled leaves open whether the command started. */
  predicate AnswersStart(reply: Reply, starts: nat) {
    match reply
    case Started => starts == 1
    case Pausing => starts == 0
    case Rejected => starts == 0
    case Garbled => true
    case _ => false
  }

  ghost predicate Inv(cfg: Config, s: System) {
    && NodeOk(cfg, s) && StreamsOk(s) && RequestsOk(s) && RepliesOk(s)
    && PhaseOk(s) && exists k: nat :: ClientAt(s, k)
  }

  // ---- The history grows ----

  lemma GrowText(history: seq<Record>, r: Record)
    ensures forall at: nat, bytes :: IsAt(Text(history), at, bytes) ==> IsAt(Text(history + [r]), at, bytes)
    ensures forall offset :: Boundary(history, offset) ==> Boundary(history + [r], offset)
    ensures forall next, offset :: NextRecord(history, next, offset) ==> NextRecord(history + [r], next, offset)
    ensures forall offset, view :: ShownAt(history, offset, view) ==> ShownAt(history + [r], offset, view)
  {
    AppendRecord(history, r);
    var row := r.line + [NEWLINE];
    assert Text(history + [r]) == Text(history) + row;
    forall k | 0 <= k <= |history|
      ensures Offset(history + [r], k) == Offset(history, k) && (history + [r])[..k] == history[..k]
    {
      OffsetStable(history, r, k);
    }
  }

  lemma RecordKeepsNetwork(cfg: Config, s: System, r: Record)
    requires s.exec.Some? && StreamsOk(s) && RequestsOk(s) && RepliesOk(s) && !s.exec.value.tail.exited
    ensures var s' := OnRecord(cfg, s, r); StreamsOk(s') && RequestsOk(s') && RepliesOk(s')
  {
    TrimKeepsDropped(Pushed(s.exec.value.tail, r), cfg.tailBytes);
    GrowText(s.history, r);
    hide Text, Fold, Offset, Boundary, NextRecord, ShownAt, IsAt, Recorded;
    var s' := OnRecord(cfg, s, r);
    assert s'.exec.value.tail == Recorded(s.exec.value.tail, r, cfg.tailBytes);
    assert RequestsOk(s') && RepliesOk(s');
    assert StreamsOk(s');
  }

  lemma RecordKeepsNode(cfg: Config, s: System, r: Record)
    requires s.exec.Some? && NodeOk(cfg, s) && !s.exec.value.tail.exited && Printed(cfg.parse, r)
    ensures NodeOk(cfg, OnRecord(cfg, s, r))
  {
    RecordKeepsFaithful(s.exec.value.tail, s.history, r, cfg.tailBytes);
    hide Text, Fold, Offset, Faithful, Printed, Recorded;
  }

  lemma RecordKeepsClient(cfg: Config, s: System, r: Record)
    requires s.exec.Some? && !s.exec.value.tail.exited && !HasExit(s.history) && PhaseOk(s)
    requires exists k: nat :: ClientAt(s, k)
    ensures PhaseOk(OnRecord(cfg, s, r)) && exists k: nat :: ClientAt(OnRecord(cfg, s, r), k)
  {
    hide Text, Fold, Offset, IsAt, Recorded;
    var s' := OnRecord(cfg, s, r);
    GrowText(s.history, r);
    var k: nat :| ClientAt(s, k);
    OffsetStable(s.history, r, k);
    var j: nat :| j <= k && Explains(s.client.given, s.history, j) && (s.client.callbackFailed || j == k);
    ExplainsStable(s.client.given, s.history, r, j);
    assert ClientAt(s', k);
  }

  lemma RecordKeeps(cfg: Config, s: System, r: Record)
    requires Inv(cfg, s) && Printed(cfg.parse, r)
    ensures Inv(cfg, OnRecord(cfg, s, r))
  {
    if s.exec.Some? && !s.exec.value.tail.exited {
      assert !HasExit(s.history);
      hide Text, Fold, Offset, Boundary, NextRecord, ShownAt, Faithful, Printed, IsAt, Recorded, PhaseOk, StreamsOk,
        RequestsOk, RepliesOk;
      RecordKeepsNetwork(cfg, s, r);
      RecordKeepsNode(cfg, s, r);
      RecordKeepsClient(cfg, s, r);
    }
  }

  lemma {:induction false} TrimKeepsDropped(t: Tail, tailBytes: nat)
    ensures Trim(t, tailBytes).dropped >= t.dropped
    decreases |t.lines|
  {
    if |t.lines| > 1 && t.end - t.lines[0].offset > tailBytes {
      TrimKeepsDropped(t.(lines := t.lines[1..], dropped := t.dropped + 1), tailBytes);
    }
  }

  // ---- The node's events ----

  lemma ServeStartKeepsNetwork(s: System, id: StreamId, pausing: bool)
    requires id in s.requests && s.requests[id].Start? && s.starts == 0 && !s.kept && s.history == []
    requires s.streams == map[] && RequestsOk(s) && RepliesOk(s)
    ensures var s' := OnServe(s, id, pausing); StreamsOk(s') && RequestsOk(s') && RepliesOk(s') && NoStart(s'.requests)
  {
    var s' := OnServe(s, id, pausing);
    assert Offset([], 0) == 0;
    NewStreamOk([], s'.exec, 0);
    hide Text, Offset, Boundary, StreamOk;
    assert NoStart(s'.requests);
    assert RequestsOk(s');
    assert RepliesOk(s');
  }

  lemma ServeStartKeeps(cfg: Config, s: System, id: StreamId, pausing: bool)
    requires Inv(cfg, s) && id in s.requests && s.requests[id].Start?
    ensures Inv(cfg, OnServe(s, id, pausing))
    ensures OnServe(s, id, pausing).starts == s.starts + (if pausing then 0 else 1)
  {
    assert s.starts == 0 && s.history == [] && s.streams == map[];
    ServeStartKeepsNetwork(s, id, pausing);
    NothingRecorded(cfg.tailBytes);
    var s' := OnServe(s, id, pausing);
    SameClient(s, s');
    hide Text, Offset, Boundary, Faithful, StreamsOk, RequestsOk, RepliesOk, Printed, Shown, ClientAt;
    assert NodeOk(cfg, s');
  }

  /** A reply with the stream it opened. */
  function Answered(s: System, id: StreamId, stream: Stream, reply: Reply): System {
    s.(requests := s.requests - {id}, streams := s.streams[id := stream], replies := s.replies[id := reply])
  }

  lemma AnsweredKeeps(cfg: Config, s: System, id: StreamId, stream: Stream, reply: Reply)
    requires Inv(cfg, s) && id in s.requests && s.requests[id].AttachFrom? && s.starts == 1
    requires StreamOk(s.history, s.exec, stream) && !stream.phase.Serving?
    requires reply.Attached? && reply.offset == stream.offset && AnswersFrom(reply, s.requests[id].offset)
    requires reply.view.Some? ==> ShownAt(s.history, reply.offset, reply.view.value)
    ensures Inv(cfg, Answered(s, id, stream, reply))
  {
    hide NodeOk, StreamsOk, RequestsOk, RepliesOk, PhaseOk, ClientAt, StreamOk, ShownAt, AnswersFrom;
    var s' := Answered(s, id, stream, reply);
    SameClient(s, s');
    AnsweredKeepsPhase(s, id, stream, reply);
    AnsweredKeepsNode(cfg, s, id, stream, reply);
    AnsweredKeepsNetwork(s, id, stream, reply);
  }

  lemma AnsweredKeepsNode(cfg: Config, s: System, id: StreamId, stream: Stream, reply: Reply)
    requires NodeOk(cfg, s) && RequestsOk(s) && id in s.requests && s.starts == 1
    ensures NodeOk(cfg, Answered(s, id, stream, reply))
  {
    hide Text, Faithful, Printed;
  }

  lemma AnsweredKeepsNetwork(s: System, id: StreamId, stream: Stream, reply: Reply)
    requires StreamsOk(s) && RequestsOk(s) && RepliesOk(s) && id in s.requests && s.starts == 1
    requires StreamOk(s.history, s.exec, stream)
    requires reply.Attached? && reply.offset == stream.offset
    requires reply.view.Some? ==> ShownAt(s.history, reply.offset, reply.view.value)
    ensures var s' := Answered(s, id, stream, reply); StreamsOk(s') && RequestsOk(s') && RepliesOk(s')
  {
    hide StreamOk, ShownAt, Boundary;
    var s' := Answered(s, id, stream, reply);
    assert StreamsOk(s') && RequestsOk(s');
    assert RepliesOk(s');
  }

  lemma AnsweredKeepsPhase(s: System, id: StreamId, stream: Stream, reply: Reply)
    requires PhaseOk(s) && StreamsOk(s) && RequestsOk(s) && id in s.requests && s.requests[id].AttachFrom?
    requires AnswersFrom(reply, s.requests[id].offset)
    ensures PhaseOk(Answered(s, id, stream, reply))
  {
    hide Text, Slice, HasExit, StreamOk;
  }

  lemma UnansweredKeeps(cfg: Config, s: System, id: StreamId)
    requires Inv(cfg, s) && id in s.requests && s.requests[id].AttachFrom?
    ensures Inv(cfg, s.(requests := s.requests - {id}, replies := s.replies[id := NotFound]))
  {
    hide Text, Fold, Offset, Boundary, NextRecord, ShownAt, Shown, Faithful, Printed, IsAt;
    var s' := s.(requests := s.requests - {id}, replies := s.replies[id := NotFound]);
    SameClient(s, s');
    assert NodeOk(cfg, s') && StreamsOk(s');
    assert RequestsOk(s');
    assert RepliesOk(s');
    assert PhaseOk(s');
  }

  lemma SameClient(s: System, s': System)
    requires s'.history == s.history && s'.client == s.client
    ensures (exists k: nat :: ClientAt(s, k)) ==> exists k: nat :: ClientAt(s', k)
  {
    if k: nat :| ClientAt(s, k) {
      assert ClientAt(s', k);
    }
  }

  lemma ServeAttachKeeps(cfg: Config, s: System, id: StreamId, pausing: bool)
    requires Inv(cfg, s) && id in s.requests && s.requests[id].AttachFrom?
    ensures Inv(cfg, OnServe(s, id, pausing))
  {
    hide Text, Fold, Offset, Boundary, NextRecord, ShownAt, Shown, Faithful, Printed, IsAt;
    var offset := s.requests[id].offset;
    assert Boundary(s.history, offset);
    if s.kept {
      var t := s.exec.value.tail;
      AttachAtBoundary(t, s.history, cfg.tailBytes, offset);
      AttachedIsAhead(cfg, s, offset);
      if offset < FirstKept(t) {
        EndShows(cfg, s);
        NewStreamOk(s.history, s.exec, t.end);
        AnsweredKeeps(cfg, s, id, Stream(t.end, Created, []), Attached(t.end, t.view));
      } else {
        NewStreamOk(s.history, s.exec, offset);
        AnsweredKeeps(cfg, s, id, Stream(offset, Created, []), Attached(offset, None));
      }
    } else {
      UnansweredKeeps(cfg, s, id);
    }
  }

  lemma EndShows(cfg: Config, s: System)
    requires NodeOk(cfg, s) && s.kept
    ensures Boundary(s.history, s.exec.value.tail.end)
    ensures s.exec.value.tail.view.Some? ==> ShownAt(s.history, s.exec.value.tail.end, s.exec.value.tail.view.value)
  {
    OffsetEnd(s.history);
    assert s.history[..|s.history|] == s.history;
    assert Offset(s.history, |s.history|) == s.exec.value.tail.end;
  }

  lemma NewStreamOk(history: seq<Record>, exec: Option<Exec>, offset: nat)
    requires Boundary(history, offset)
    ensures StreamOk(history, exec, Stream(offset, Created, []))
  {
    var k :| 0 <= k <= |history| && Offset(history, k) == offset;
    OffsetBound(history, k);
  }

  lemma AttachedIsAhead(cfg: Config, s: System, offset: nat)
    requires NodeOk(cfg, s) && s.kept && Boundary(s.history, offset)
    ensures AnswersFrom(
              match Attach(s.exec.value.tail, offset)
              case NotARecordStart => Refused
              case Resume(from) => Attached(from, None)
              case ShowView(from, view) => Attached(from, view), offset)
  {
    AttachAtBoundary(s.exec.value.tail, s.history, cfg.tailBytes, offset);
    var k :| 0 <= k <= |s.history| && Offset(s.history, k) == offset;
    BoundaryIsKept(s.exec.value.tail, s.history, cfg.tailBytes, k);
  }

  /** A stream of the node moves on, the records staying as they are. */
  lemma StreamMoves(cfg: Config, s: System, id: StreamId, exec: Option<Exec>, stream: Stream)
    requires Inv(cfg, s) && id in s.streams
    requires stream.offset == s.streams[id].offset && s.streams[id].sent <= stream.sent
    requires exec.Some? <==> s.exec.Some?
    requires exec.Some? ==> exec.value.tail == s.exec.value.tail
    requires exec.Some? ==> ExecOk(cfg, exec.value, s.history, s.kept, s.streams[id := stream])
    requires StreamOk(s.history, exec, stream)
    ensures Inv(cfg, s.(exec := exec, streams := s.streams[id := stream]))
  {
    hide Text, Fold, Offset, Boundary, NextRecord, ShownAt, Shown, Faithful, Printed, IsAt;
    var s' := s.(exec := exec, streams := s.streams[id := stream]);
    SameClient(s, s');
    assert NodeOk(cfg, s') && RequestsOk(s');
    assert StreamsOk(s');
    assert RepliesOk(s');
    assert PhaseOk(s');
  }

  lemma StreamStartKeeps(cfg: Config, s: System, id: StreamId)
    requires Inv(cfg, s)
    ensures Inv(cfg, OnStreamStart(s, id))
  {
    if s.exec.Some? && id in s.streams && s.streams[id].phase.Created? {
      var stream, e := s.streams[id], s.exec.value;
      StreamStartsRight(cfg, s, id);
      StreamMoves(cfg, s, id, Some(e.(consumer := Some(id), graceArmed := false)),
        stream.(phase := Serving(StartIndex(e.tail, stream.offset))));
    }
  }

  lemma StreamStartsRight(cfg: Config, s: System, id: StreamId)
    requires NodeOk(cfg, s) && StreamsOk(s) && s.exec.Some? && id in s.streams && s.streams[id].phase.Created?
    ensures var next := StartIndex(s.exec.value.tail, s.streams[id].offset);
            next < s.exec.value.tail.dropped || NextRecord(s.history, next, s.streams[id].offset)
  {
    assert StreamOk(s.history, s.exec, s.streams[id]);
    var k :| 0 <= k <= |s.history| && Offset(s.history, k) == s.streams[id].offset;
    BoundaryIsKept(s.exec.value.tail, s.history, cfg.tailBytes, k);
  }

  lemma EndStreamKeeps(cfg: Config, s: System, id: StreamId)
    requires Inv(cfg, s) && id in s.streams
    ensures Inv(cfg, EndStream(s, id))
  {
    var exec := if s.exec.Some? then Some(Released(s.exec.value, id, s.kept)) else None;
    StreamMoves(cfg, s, id, exec, s.streams[id].(phase := Ended));
  }

  lemma YieldKeeps(cfg: Config, s: System, id: StreamId)
    requires Inv(cfg, s) && s.exec.Some? && id in s.streams && s.streams[id].phase.Serving?
    requires StepStream(s.exec.value, id, s.streams[id].phase.next).Yield?
    ensures Inv(cfg, OnStreamStep(s, id))
  {
    InvParts(cfg, s);
    YieldedIsOk(cfg, s, id);
    hide *;
    var stream := Yielded(s, id);
    StreamMoves(cfg, s, id, s.exec, stream);
    YieldIs(s, id);
  }

  /** A stream that yielded its next record. */
  function Yielded(s: System, id: StreamId): Stream
    requires s.exec.Some? && id in s.streams && s.streams[id].phase.Serving?
    requires StepStream(s.exec.value, id, s.streams[id].phase.next).Yield?
  {
    var stream := s.streams[id];
    var row := StepStream(s.exec.value, id, stream.phase.next).record.line + [NEWLINE];
    Stream(stream.offset, Serving(stream.phase.next + 1), stream.sent + row)
  }

  lemma YieldIs(s: System, id: StreamId)
    requires s.exec.Some? && id in s.streams && s.streams[id].phase.Serving?
    requires StepStream(s.exec.value, id, s.streams[id].phase.next).Yield?
    ensures OnStreamStep(s, id) == s.(exec := s.exec, streams := s.streams[id := Yielded(s, id)])
  {
    hide StepStream;
  }

  lemma YieldedIsOk(cfg: Config, s: System, id: StreamId)
    requires NodeOk(cfg, s) && StreamsOk(s) && s.exec.Some? && id in s.streams && s.streams[id].phase.Serving?
    requires StepStream(s.exec.value, id, s.streams[id].phase.next).Yield?
    ensures var stream := Yielded(s, id);
            && stream.offset == s.streams[id].offset && s.streams[id].sent <= stream.sent
            && StreamOk(s.history, s.exec, stream)
            && ExecOk(cfg, s.exec.value, s.history, s.kept, s.streams[id := stream])
  {
    hide Text, Fold, Boundary, ShownAt, Printed;
    var stream := s.streams[id];
    var next := stream.phase.next;
    assert StreamOk(s.history, s.exec, stream);
    KeptLine(s.exec.value.tail, s.history, cfg.tailBytes, next);
    YieldFollows(s.history, stream.offset, stream.sent, next);
  }

  lemma YieldFollows(history: seq<Record>, offset: nat, sent: seq<Byte>, next: nat)
    requires next < |history| && IsAt(Text(history), offset, sent) && NextRecord(history, next, offset + |sent|)
    ensures var row := history[next].line + [NEWLINE];
            IsAt(Text(history), offset, sent + row) && NextRecord(history, next + 1, offset + |sent + row|)
  {
    RowAt(history, next);
    AppendRow(Text(history), offset, sent, history[next].line + [NEWLINE]);
  }

  lemma AppendRow(text: seq<Byte>, at: nat, sent: seq<Byte>, row: seq<Byte>)
    requires IsAt(text, at, sent) && IsAt(text, at + |sent|, row)
    ensures IsAt(text, at, sent + row)
  {
    forall i | 0 <= i < |sent + row|
      ensures (sent + row)[i] == text[at + i]
    {
      if i >= |sent| {
        assert row[i - |sent|] == text[at + |sent| + (i - |sent|)];
      }
    }
  }

  lemma StreamEventKeeps(cfg: Config, s: System, e: Event)
    requires Inv(cfg, s)
    requires e.StreamStarts? || e.StreamSteps? || e.StreamStops?
    ensures Inv(cfg, Step(cfg, s, e))
  {
    hide Text, Fold, Offset, Boundary, NextRecord, ShownAt, Shown, Faithful, Printed, IsAt;
    match e
    case StreamStarts(id) => StreamStartKeeps(cfg, s, id);
    case StreamSteps(id) =>
      if s.exec.Some? && id in s.streams && s.streams[id].phase.Serving? {
        match StepStream(s.exec.value, id, s.streams[id].phase.next)
        case Yield(_) => YieldKeeps(cfg, s, id);
        case Wait =>
        case _ => EndStreamKeeps(cfg, s, id);
      }
    case StreamStops(id) =>
      if id in s.streams {
        EndStreamKeeps(cfg, s, id);
      }
  }

  lemma ServeKeeps(cfg: Config, s: System, id: StreamId, pausing: bool)
    requires Inv(cfg, s)
    ensures Inv(cfg, OnServe(s, id, pausing))
  {
    hide Text, Fold, Offset, Boundary, NextRecord, ShownAt, Shown, Faithful, Printed, IsAt;
    if id in s.requests {
      if s.requests[id].Start? {
        ServeStartKeeps(cfg, s, id, pausing);
      } else {
        ServeAttachKeeps(cfg, s, id, pausing);
      }
    }
  }

  lemma FailKeeps(cfg: Config, s: System, id: StreamId)
    requires Inv(cfg, s)
    ensures Inv(cfg, OnFail(s, id))
  {
    hide Text, Fold, Offset, Boundary, NextRecord, ShownAt, Shown, Faithful, Printed, IsAt;
    if id in s.requests {
      var s' := OnFail(s, id);
      SameClient(s, s');
      assert NodeOk(cfg, s') && StreamsOk(s');
      assert RequestsOk(s');
      assert RepliesOk(s');
      assert PhaseOk(s');
    }
  }

  lemma GraceKeeps(cfg: Config, s: System)
    requires Inv(cfg, s)
    ensures Inv(cfg, OnGraceEnd(s))
  {
    hide Text, Fold, Offset, Boundary, NextRecord, ShownAt, Shown, Faithful, Printed, IsAt;
    var s' := OnGraceEnd(s);
    SameClient(s, s');
    assert NodeOk(cfg, s') && StreamsOk(s');
  }

  lemma NodeRestartKeeps(cfg: Config, s: System)
    requires Inv(cfg, s)
    ensures Inv(cfg, OnNodeRestart(s))
  {
    hide Text, Fold, Offset, Boundary, NextRecord, ShownAt, Shown, Faithful, Printed, IsAt;
    var s' := OnNodeRestart(s);
    SameClient(s, s');
    assert NodeOk(cfg, s') && StreamsOk(s');
    assert RepliesOk(s') && RequestsOk(s');
  }

  // ---- The server's events ----

  lemma CallKeepsNetwork(s: System, sent: bool)
    requires StreamsOk(s) && RequestsOk(s) && RepliesOk(s) && PhaseOk(s) && Boundary(s.history, s.client.taken)
    ensures var s' := OnCall(s, sent); StreamsOk(s') && RequestsOk(s') && RepliesOk(s') && PhaseOk(s')
  {
    CallKeepsReplies(s, sent);
    CallKeepsRequests(s, sent);
    CallKeepsPhase(s, sent);
    hide StreamsOk, RequestsOk, RepliesOk, PhaseOk;
  }

  lemma CallKeepsReplies(s: System, sent: bool)
    requires StreamsOk(s) && RepliesOk(s)
    ensures StreamsOk(OnCall(s, sent)) && RepliesOk(OnCall(s, sent))
  {
    hide StreamOk, ReplyOk;
  }

  lemma CallKeepsRequests(s: System, sent: bool)
    requires StreamsOk(s) && RequestsOk(s) && RepliesOk(s) && PhaseOk(s) && Boundary(s.history, s.client.taken)
    ensures RequestsOk(OnCall(s, sent))
  {
    hide Text, Boundary, StreamOk, ReplyOk;
  }

  lemma CallKeepsPhase(s: System, sent: bool)
    requires RequestsOk(s) && RepliesOk(s) && PhaseOk(s)
    ensures PhaseOk(OnCall(s, sent))
  {
    hide Text, Offset, Boundary, ReplyOk;
  }

  lemma CallKeeps(cfg: Config, s: System, sent: bool)
    requires Inv(cfg, s)
    ensures Inv(cfg, OnCall(s, sent))
  {
    var k: nat :| ClientAt(s, k);
    TakenIsBoundary(s, k);
    assert ClientAt(OnCall(s, sent), k);
    CallKeepsNetwork(s, sent);
    hide Text, Offset, Boundary, PhaseOk, StreamsOk, RequestsOk, RepliesOk, Shown;
  }

  lemma TakenIsBoundary(s: System, k: nat)
    requires ClientAt(s, k)
    ensures Boundary(s.history, s.client.taken)
  {
  }

  lemma HearKeeps(cfg: Config, s: System)
    requires Inv(cfg, s)
    ensures Inv(cfg, OnHear(s))
  {
    hide Text, Fold, Offset, Boundary, NextRecord, ShownAt, Shown, Faithful, Printed, IsAt;
    if s.client.phase.Attaching? && s.client.phase.id in s.replies && s.replies[s.client.phase.id].Attached? {
      AttachedKeeps(cfg, s, s.client.phase.id);
    } else {
      var k: nat :| ClientAt(s, k);
      assert ClientAt(OnHear(s), k);
      if s.client.phase.Starting? && s.client.phase.id in s.streams {
        AttachedInText(s, s.client.phase.id);
      }
    }
  }

  lemma AttachedKeeps(cfg: Config, s: System, id: StreamId)
    requires Inv(cfg, s) && s.client.phase == Attaching(id) && id in s.replies && s.replies[id].Attached?
    ensures Inv(cfg, OnHear(s))
  {
    var k := HeardClient(cfg, s, id);
    InvParts(cfg, s);
    AttachedKeepsPhase(s, id);
    hide *;
    var after := Hears(s.client, id, s.replies[id]);
    HeardIs(s, id);
    ClientSet(cfg, s, after, k);
  }

  lemma HeardIs(s: System, id: StreamId)
    requires s.client.phase == Attaching(id) && id in s.replies
    ensures OnHear(s) == s.(client := Hears(s.client, id, s.replies[id]))
  {
  }

  lemma AttachedKeepsPhase(s: System, id: StreamId)
    requires PhaseOk(s) && StreamsOk(s) && RepliesOk(s)
    requires s.client.phase == Attaching(id) && id in s.replies && s.replies[id].Attached?
    ensures PhaseOk(s.(client := Hears(s.client, id, s.replies[id])))
  {
    assert ReplyOk(s.history, s.streams, id, s.replies[id]);
    AttachedInText(s, id);
    hide Text, Offset, Boundary, StreamOk, ShownAt;
  }

  /** Up to which record the server is shown the command once it hears the attach's answer. */
  lemma HeardClient(cfg: Config, s: System, id: StreamId) returns (k: nat)
    requires Inv(cfg, s) && s.client.phase == Attaching(id) && id in s.replies && s.replies[id].Attached?
    ensures ClientAt(s.(client := Hears(s.client, id, s.replies[id])), k)
  {
    hide NodeOk, StreamsOk, RequestsOk, IsAt, Printed, Shown;
    var reply := s.replies[id];
    assert ReplyOk(s.history, s.streams, id, reply);
    k :| ClientAt(s, k);
    if reply.view.Some? {
      var k' :| 0 <= k' <= |s.history| && Offset(s.history, k') == reply.offset && Fold(s.history[..k']) == reply.view;
      if k' < k {
        OffsetMonotone(s.history, k', k);
      }
      ReplacedIsShown(s, k, k', reply.view.value);
      k := k';
    }
  }

  /** The server in another state that the records explain. */
  lemma ClientSet(cfg: Config, s: System, after: Client, k: nat)
    requires Inv(cfg, s) && PhaseOk(s.(client := after)) && ClientAt(s.(client := after), k)
    ensures Inv(cfg, s.(client := after))
  {
    hide Text, Fold, Offset, Boundary, NextRecord, ShownAt, Shown, Faithful, Printed, IsAt, ClientAt, PhaseOk;
    var s' := s.(client := after);
    assert NodeOk(cfg, s') && StreamsOk(s') && RequestsOk(s') && RepliesOk(s');
  }

  lemma OffsetBound(history: seq<Record>, k: nat)
    requires k <= |history|
    ensures Offset(history, k) <= |Text(history)|
  {
    OffsetMonotone(history, k, |history|);
    OffsetEnd(history);
  }

  lemma AttachedInText(s: System, id: StreamId)
    requires StreamsOk(s) && id in s.streams
    ensures Slice(s.history, s.streams[id].offset, [])
  {
  }

  lemma ReplacedIsShown(s: System, k: nat, k': nat, view: View)
    requires ClientAt(s, k) && k <= k' <= |s.history| && Fold(s.history[..k']) == Some(view)
    ensures Shown(if s.client.callbackFailed then s.client.given
        else s.client.given + [Replaced(view)], s.history, k', s.client.callbackFailed)
  {
    var j: nat :| j <= k && Explains(s.client.given, s.history, j) && (s.client.callbackFailed || j == k);
    if !s.client.callbackFailed {
      var given := s.client.given + [Replaced(view)];
      assert given[..|given| - 1] == s.client.given;
      assert Explains(given, s.history, k');
    }
  }

  lemma ReadKeeps(cfg: Config, s: System, n: nat)
    requires Inv(cfg, s)
    ensures Inv(cfg, OnRead(cfg, s, n))
  {
    hide Text, Fold, Boundary, ShownAt, Faithful, Printed;
    if s.client.phase.Reading? && s.client.phase.id in s.streams
      && s.client.phase.got + n <= |s.streams[s.client.phase.id].sent| {
      var got, stream := s.client.phase.got, s.streams[s.client.phase.id];
      ChunkFollows(s.history, s.client.taken, s.client.pending, stream.offset, stream.sent, got, n);
      ReadChunkKeeps(cfg, s, stream.sent[got..got + n]);
    }
  }

  lemma ReadChunkKeeps(cfg: Config, s: System, chunk: seq<Byte>)
    requires Inv(cfg, s) && s.client.phase.Reading?
    requires s.client.phase.got + |chunk| <= |s.streams[s.client.phase.id].sent|
    requires Slice(s.history, s.client.taken, s.client.pending + chunk)
    ensures Inv(cfg, ReadChunk(cfg, s, chunk))
  {
    var k: nat :| ClientAt(s, k);
    var k' := ReadTakes(cfg, s, chunk, k);
    ReadAssembles(cfg, s, chunk, Reads(cfg, s.client, chunk), k');
  }

  lemma ReadTakes(cfg: Config, s: System, chunk: seq<Byte>, k: nat) returns (k': nat)
    requires NodeOk(cfg, s) && ClientAt(s, k) && s.client.phase.Reading?
    requires Slice(s.history, s.client.taken, s.client.pending + chunk)
    ensures ClientAt(s.(client := Reads(cfg, s.client, chunk)), k')
    ensures ReadPhaseOk(s.history, s.client, chunk, Reads(cfg, s.client, chunk))
  {
    k' := TakesRecords(cfg.parse, s.history, k, s.client.pending + chunk);
    TakenIsShown(s, k, k', TakeLines(cfg.parse, s.client.pending + chunk).values);
    ReadClientOk(cfg, s.history, s.client, chunk, k, k');
  }

  lemma ReadAssembles(cfg: Config, s: System, chunk: seq<Byte>, after: Client, k': nat)
    requires Inv(cfg, s) && s.client.phase.Reading?
    requires s.client.phase.got + |chunk| <= |s.streams[s.client.phase.id].sent|
    requires ReadPhaseOk(s.history, s.client, chunk, after) && ClientAt(s.(client := after), k')
    ensures Inv(cfg, s.(client := after))
  {
    hide Text, Fold, Offset, Boundary, NextRecord, ShownAt, Shown, Faithful, Printed, IsAt;
    var s' := s.(client := after);
    assert NodeOk(cfg, s') && StreamsOk(s') && RequestsOk(s') && RepliesOk(s');
    assert PhaseOk(s');
  }

  /** Where a read leaves the server: between records, at the exit, never at a malformed line. */
  ghost predicate ReadPhaseOk(history: seq<Record>, client: Client, chunk: seq<Byte>, after: Client)
    requires client.phase.Reading?
  {
    match after.phase
    case Reading(id, got) =>
      && id == client.phase.id && got == client.phase.got + |chunk|
      && after.taken + |after.pending| == client.taken + |client.pending| + |chunk|
      && Slice(history, after.taken, after.pending)
    case Done(ExitSeen(exit)) =>
      HasExit(history) && history[|history| - 1].value == Exited(exit) && after.taken == |Text(history)|
    case Done(outcome) => outcome == GivenUp
    case _ => false
  }

  lemma ReadClientOk(cfg: Config, history: seq<Record>, client: Client, chunk: seq<Byte>, k: nat, k': nat)
    requires ExitLast(history) && k <= k' <= |history| && client.taken == Offset(history, k) && client.phase.Reading?
    requires var taken := TakeLines(cfg.parse, client.pending + chunk);
             TakenFrom(history, k, k', taken) && |taken.rest| + taken.bytes == |client.pending + chunk|
    ensures Reads(cfg, client, chunk).taken == Offset(history, k')
    ensures ReadPhaseOk(history, client, chunk, Reads(cfg, client, chunk))
  {
    OffsetEnd(history);
    if TakeLines(cfg.parse, client.pending + chunk).stop.AtExit? {
      assert history[k' - 1].value.Exited?;
      assert k' == |history|;
    }
  }

  lemma ChunkFollows(history: seq<Record>, taken: nat, pending: seq<Byte>, offset: nat, sent: seq<Byte>, got: nat,
    n: nat)
    requires Slice(history, taken, pending) && IsAt(Text(history), offset, sent)
    requires got + n <= |sent| && offset + got == taken + |pending|
    ensures Slice(history, taken, pending + sent[got..got + n])
  {
    var chunk := sent[got..got + n];
    assert forall i :: 0 <= i < n ==> chunk[i] == sent[got + i] == Text(history)[offset + (got + i)];
    AppendRow(Text(history), taken, pending, chunk);
  }

  lemma TakenIsShown(s: System, k: nat, k': nat, values: seq<Value>)
    requires ClientAt(s, k) && k <= k' <= |s.history| && values == Values(s.history[k..k'])
    ensures Shown(if s.client.callbackFailed then s.client.given else s.client.given + TookAll(values),
                  s.history, k', s.client.callbackFailed)
  {
    if !s.client.callbackFailed {
      ExplainsTaken(s.client.given, s.history, k, k', TookAll(values));
    }
  }

  lemma RequestLossKeeps(cfg: Config, s: System, id: StreamId)
    requires Inv(cfg, s)
    ensures Inv(cfg, s.(requests := s.requests - {id}))
  {
    hide Text, Fold, Offset, Boundary, NextRecord, ShownAt, Shown, Faithful, Printed, IsAt;
    var s' := s.(requests := s.requests - {id});
    SameClient(s, s');
    assert NodeOk(cfg, s') && StreamsOk(s') && RepliesOk(s');
    assert RequestsOk(s');
  }

  lemma ReplyLossKeeps(cfg: Config, s: System, id: StreamId)
    requires Inv(cfg, s)
    ensures Inv(cfg, s.(replies := s.replies - {id}))
  {
    hide Text, Fold, Offset, Boundary, NextRecord, ShownAt, Shown, Faithful, Printed, IsAt;
    var s' := s.(replies := s.replies - {id});
    SameClient(s, s');
    assert NodeOk(cfg, s') && StreamsOk(s') && RequestsOk(s');
    assert RepliesOk(s');
  }

  lemma GarbleKeeps(cfg: Config, s: System, id: StreamId)
    requires Inv(cfg, s)
    ensures Inv(cfg, Step(cfg, s, ReplyGarbled(id)))
  {
    hide Text, Fold, Offset, Boundary, NextRecord, ShownAt, Shown, Faithful, Printed, IsAt;
    if id in s.replies {
      var s' := s.(replies := s.replies[id := Garbled]);
      SameClient(s, s');
      assert NodeOk(cfg, s') && StreamsOk(s') && RequestsOk(s');
      assert RepliesOk(s');
      assert PhaseOk(s');
    }
  }

  /** The server moves on without taking or giving anything. */
  lemma ClientMoves(cfg: Config, s: System, after: Client)
    requires Inv(cfg, s) && PhaseOk(s.(client := after))
    requires after.taken == s.client.taken && after.given == s.client.given
    requires s.client.callbackFailed ==> after.callbackFailed
    ensures Inv(cfg, s.(client := after))
  {
    hide NodeOk, StreamsOk, RequestsOk, RepliesOk, PhaseOk;
    var k: nat :| ClientAt(s, k);
    assert ClientAt(s.(client := after), k);
    hide Inv, ClientAt;
    ClientSet(cfg, s, after, k);
  }

  lemma ServerEventKeeps(cfg: Config, s: System, e: Event)
    requires Inv(cfg, s)
    requires e.ServerLosesReply? || e.ServerLosesStream? || e.CallbackThrows? || e.ServerGivesUp? || e.ServerDropsStart?
    ensures Inv(cfg, Step(cfg, s, e))
  {
    hide *;
    InvParts(cfg, s);
    ServerEventKeepsPhase(cfg, s, e);
    ServerEventMoves(cfg, s, e);
    ClientMoves(cfg, s, Step(cfg, s, e).client);
  }

  lemma InvParts(cfg: Config, s: System)
    requires Inv(cfg, s)
    ensures NodeOk(cfg, s) && StreamsOk(s) && RequestsOk(s) && RepliesOk(s) && PhaseOk(s)
  {
    hide NodeOk, StreamsOk, RequestsOk, RepliesOk, PhaseOk, ClientAt;
  }

  lemma ServerEventMoves(cfg: Config, s: System, e: Event)
    requires e.ServerLosesReply? || e.ServerLosesStream? || e.CallbackThrows? || e.ServerGivesUp? || e.ServerDropsStart?
    ensures var after := Step(cfg, s, e).client;
            && Step(cfg, s, e) == s.(client := after) && after.taken == s.client.taken && after.given == s.client.given
            && (s.client.callbackFailed ==> after.callbackFailed)
  {
    match e
    case ServerLosesReply =>
    case ServerLosesStream =>
    case CallbackThrows =>
    case ServerGivesUp =>
    case ServerDropsStart =>
  }

  lemma ServerEventKeepsPhase(cfg: Config, s: System, e: Event)
    requires PhaseOk(s)
    requires e.ServerLosesReply? || e.ServerLosesStream? || e.CallbackThrows? || e.ServerGivesUp? || e.ServerDropsStart?
    ensures PhaseOk(Step(cfg, s, e))
  {
    hide Slice, HasExit, NoStart, AnswersStart, AnswersFrom;
  }

  lemma ServerRestartKeeps(cfg: Config, s: System)
    requires Inv(cfg, s)
    ensures Inv(cfg, Step(cfg, s, ServerRestarts))
  {
    assert Explains([], s.history, 0);
    assert Offset(s.history, 0) == 0;
    assert ClientAt(Step(cfg, s, ServerRestarts), 0);
  }

  lemma StepKeeps(cfg: Config, s: System, e: Event)
    requires Inv(cfg, s) && Legal(cfg, e)
    ensures Inv(cfg, Step(cfg, s, e))
  {
    hide Text, Fold, Offset, Boundary, NextRecord, ShownAt, Shown, Faithful, Printed, IsAt;
    match e
    case CommandRecords(record) => RecordKeeps(cfg, s, record);
    case NodeServes(id, pausing) => ServeKeeps(cfg, s, id, pausing);
    case NodeFails(id) => FailKeeps(cfg, s, id);
    case StreamStarts(_) => StreamEventKeeps(cfg, s, e);
    case StreamSteps(_) => StreamEventKeeps(cfg, s, e);
    case StreamStops(_) => StreamEventKeeps(cfg, s, e);
    case GraceEnds => GraceKeeps(cfg, s);
    case NodeRestarts => NodeRestartKeeps(cfg, s);
    case RequestLost(id) => RequestLossKeeps(cfg, s, id);
    case ReplyLost(id) => ReplyLossKeeps(cfg, s, id);
    case ReplyGarbled(id) => GarbleKeeps(cfg, s, id);
    case ServerCalls(sent) => CallKeeps(cfg, s, sent);
    case ServerHears => HearKeeps(cfg, s);
    case ServerReads(n) => ReadKeeps(cfg, s, n);
    case ServerRestarts => ServerRestartKeeps(cfg, s);
    case _ => ServerEventKeeps(cfg, s, e);
  }

  lemma {:induction false} RunKeeps(cfg: Config, events: seq<Event>)
    requires forall i :: 0 <= i < |events| ==> Legal(cfg, events[i])
    ensures Inv(cfg, Run(cfg, FRESH, events))
  {
    if events == [] {
      assert Offset([], 0) == 0;
      assert Explains([], [], 0);
      assert ClientAt(FRESH, 0);
    } else {
      RunKeeps(cfg, events[..|events| - 1]);
      StepKeeps(cfg, Run(cfg, FRESH, events[..|events| - 1]), events[|events| - 1]);
    }
  }
}
