/** When the server that attaches again to a command that exited is given its exit, and when it never is. */
module ExecExit {
  import opened Bytes
  import opened ExecRecords
  import opened ExecTail
  import opened ExecReader
  import opened ExecSession
  import opened ExecRefinement
  import opened ExecTheorems

  lemma RunMore(cfg: Config, s: System, events: seq<Event>, e: Event)
    ensures Run(cfg, s, events + [e]) == Step(cfg, Run(cfg, s, events), e)
  {
    assert (events + [e])[..|events|] == events;
  }

  lemma {:induction false} RunFromKeeps(cfg: Config, s: System, events: seq<Event>)
    requires Inv(cfg, s) && AllLegal(cfg, events)
    ensures Inv(cfg, Run(cfg, s, events))
  {
    hide Inv, Step;
    if events != [] {
      RunFromKeeps(cfg, s, events[..|events| - 1]);
      StepKeeps(cfg, Run(cfg, s, events[..|events| - 1]), events[|events| - 1]);
    }
  }

  lemma RunOfNone(cfg: Config, s: System)
    ensures Run(cfg, s, []) == s
  {
  }

  // ---- Attaching at or past the tail ----

  /** The attach's request is waiting at a node that has the command, which has exited. */
  predicate AttachesAfterExit(s: System, id: StreamId) {
    && s.client.phase == Attaching(id) && id in s.requests && !s.client.callbackFailed
    && s.kept && s.exec.Some? && s.exec.value.tail.exited
  }

  function Steps(id: StreamId, n: nat): seq<Event> {
    if n == 0 then [] else Steps(id, n - 1) + [StreamSteps(id)]
  }

  function Stepped(s: System, id: StreamId, n: nat): System
    decreases n
  {
    if n == 0 then s else Stepped(OnStreamStep(s, id), id, n - 1)
  }

  lemma {:induction false} SteppedOnceMore(s: System, id: StreamId, n: nat)
    ensures OnStreamStep(Stepped(s, id, n), id) == Stepped(s, id, n + 1)
    decreases n
  {
    hide OnStreamStep;
    if n > 0 {
      SteppedOnceMore(OnStreamStep(s, id), id, n - 1);
    }
  }

  lemma {:induction false} RunOfSteps(cfg: Config, s: System, events: seq<Event>, id: StreamId, n: nat)
    ensures Run(cfg, s, events + Steps(id, n)) == Stepped(Run(cfg, s, events), id, n)
  {
    hide OnStreamStep, Run;
    if n == 0 {
      assert events + [] == events;
    } else {
      RunOfSteps(cfg, s, events, id, n - 1);
      Associate(events, Steps(id, n - 1), [StreamSteps(id)]);
      RunMore(cfg, s, events + Steps(id, n - 1), StreamSteps(id));
      SteppedOnceMore(Run(cfg, s, events), id, n - 1);
    }
  }

  /** The consumer, stepped once for each record left, sends them all. */
  lemma {:induction false} SteppedServes(s: System, id: StreamId, next: nat, n: nat)
    requires s.exec.Some? && s.exec.value.consumer == Some(id) && id in s.streams
        && s.streams[id].phase == Serving(next)
    requires s.exec.value.tail.dropped <= next && next + n == s.exec.value.tail.dropped + |s.exec.value.tail.lines|
    ensures Stepped(s, id, n) ==
            s.(streams := s.streams[id := Stream(s.streams[id].offset, Serving(next + n), s.streams[id].sent
              + Served(s.exec.value, id, next))])
    decreases n
  {
    var stream := s.streams[id];
    if n == 0 {
      assert Served(s.exec.value, id, next) == [];
      assert stream.sent + [] == stream.sent;
      assert s.streams[id := Stream(stream.offset, Serving(next), stream.sent + [])] == s.streams;
    } else {
      var row := s.exec.value.tail.lines[next - s.exec.value.tail.dropped].record.line + [NEWLINE];
      var s' := OnStreamStep(s, id);
      assert s' == s.(streams := s.streams[id := Stream(stream.offset, Serving(next + 1), stream.sent + row)]);
      SteppedServes(s', id, next + 1, n - 1);
      Associate(stream.sent, row, Served(s.exec.value, id, next + 1));
      SameUpdate(s.streams, id, Stream(stream.offset, Serving(next + 1), stream.sent + row),
                 Stream(stream.offset, Serving(next + n), stream.sent + Served(s.exec.value, id, next)));
    }
  }

  lemma SameUpdate(streams: map<StreamId, Stream>, id: StreamId, x: Stream, y: Stream)
    ensures streams[id := x][id := y] == streams[id := y]
  {
  }

  /** The attach is answered and heard, its stream starts, sends what is left, and all of it is read. */
  function Uninterrupted(id: StreamId, n: nat, size: nat): seq<Event> {
    [NodeServes(id, false)] + [ServerHears] + [StreamStarts(id)] + Steps(id, n) + [ServerReads(size)]
  }

  /** Up to where the stream has started. */
  lemma AttachStarts(cfg: Config, s: System, id: StreamId, k: nat)
    requires Inv(cfg, s) && AttachesAfterExit(s, id)
    requires k < |s.history| && s.client.taken == Offset(s.history, k) && FirstKept(s.exec.value.tail) <= s.client.taken
    ensures Run(cfg, s, [NodeServes(id, false)] + [ServerHears] + [StreamStarts(id)]) == Started3(s, id, k)
    ensures s.exec.value.tail.dropped <= k && s.exec.value.tail.dropped + |s.exec.value.tail.lines| == |s.history|
  {
    AttachResumes(cfg, s, id, k);
    AttachSteps(cfg, s, id, k);
    hide *;
    RunOfThree(cfg, s, NodeServes(id, false), ServerHears, StreamStarts(id));
  }

  lemma RunOfThree(cfg: Config, s: System, a: Event, b: Event, c: Event)
    ensures Run(cfg, s, [a] + [b] + [c]) == Step(cfg, Step(cfg, Step(cfg, s, a), b), c)
  {
    hide Run, Step;
    var none: seq<Event> := [];
    RunOfNone(cfg, s);
    assert none + [a] == [a];
    RunMore(cfg, s, none, a);
    RunMore(cfg, s, [a], b);
    RunMore(cfg, s, [a] + [b], c);
  }

  lemma AttachSteps(cfg: Config, s: System, id: StreamId, k: nat)
    requires AttachesAfterExit(s, id) && s.requests[id] == AttachFrom(s.client.taken)
    requires Attach(s.exec.value.tail, s.client.taken) == Resume(s.client.taken)
        && StartIndex(s.exec.value.tail, s.client.taken) == k
    ensures Step(cfg, Step(cfg, Step(cfg, s, NodeServes(id, false)), ServerHears), StreamStarts(id))
        == Started3(s, id, k)
  {
    hide Attach, StartIndex;
    var served := Step(cfg, s, NodeServes(id, false));
    assert served == s.(requests := s.requests - {id}, streams := s.streams[id := Stream(s.client.taken, Created, [])],
                        replies := s.replies[id := Attached(s.client.taken, None)]);
    var heard := Step(cfg, served, ServerHears);
    assert heard == served.(client := s.client.(pending := [], phase := Reading(id, 0)));
    SameUpdate(s.streams, id, Stream(s.client.taken, Created, []), Stream(s.client.taken, Serving(k), []));
  }

  function Started3(s: System, id: StreamId, k: nat): System
    requires s.exec.Some?
  {
    s.(requests := s.requests - {id}, replies := s.replies[id := Attached(s.client.taken, None)],
       streams := s.streams[id := Stream(s.client.taken, Serving(k), [])],
       exec := Some(Consumed(s, id)),
       client := s.client.(pending := [], phase := Reading(id, 0)))
  }

  lemma AttachResumes(cfg: Config, s: System, id: StreamId, k: nat)
    requires Inv(cfg, s) && AttachesAfterExit(s, id)
    requires k < |s.history| && s.client.taken == Offset(s.history, k) && FirstKept(s.exec.value.tail) <= s.client.taken
    ensures s.requests[id] == AttachFrom(s.client.taken)
    ensures Attach(s.exec.value.tail, s.client.taken) == Resume(s.client.taken)
    ensures StartIndex(s.exec.value.tail, s.client.taken) == k
    ensures s.exec.value.tail.dropped <= k && s.exec.value.tail.dropped + |s.exec.value.tail.lines| == |s.history|
  {
    hide StreamsOk, RepliesOk, Explains, Printed;
    assert Boundary(s.history, s.client.taken);
    AttachAtBoundary(s.exec.value.tail, s.history, cfg.tailBytes, s.client.taken);
    BoundaryIsKept(s.exec.value.tail, s.history, cfg.tailBytes, k);
  }

  /** What is left to take begins at a record the node still keeps. */
  predicate AttachesWithin(s: System)
    requires s.exec.Some?
  {
    FirstKept(s.exec.value.tail) <= s.client.taken < |Text(s.history)|
  }

  /** A call attaches within the tail after the exit, the record `k` the first it has still to take. */
  predicate AttachesAt(s: System, id: StreamId, k: nat) {
    AttachesAfterExit(s, id) && AttachesWithin(s) && k < |s.history| && s.client.taken == Offset(s.history, k)
  }

  lemma AtMeans(s: System, id: StreamId, k: nat)
    requires AttachesAt(s, id, k)
    ensures AttachesAfterExit(s, id) && s.exec.Some? && !s.client.callbackFailed
    ensures k < |s.history| && s.client.taken == Offset(s.history, k)
    ensures FirstKept(s.exec.value.tail) <= s.client.taken < |Text(s.history)|
  {
  }

  predicate IsExitOf(history: seq<Record>, phase: Phase) {
    && phase.Done? && phase.outcome.ExitSeen?
    && history != [] && history[|history| - 1].value == Exited(phase.outcome.exit)
  }

  /** With nothing in its way, a call that attaches ends with the command's own exit. */
  predicate EndsWithItsExit(cfg: Config, s: System, id: StreamId, k: nat) {
    && k < |s.history| && s.client.taken <= |Text(s.history)|
    && var events := Uninterrupted(id, |s.history| - k, |Text(s.history)| - s.client.taken);
       IsExitOf(s.history, Run(cfg, s, events).client.phase)
  }

  lemma EndsSo(cfg: Config, s: System, id: StreamId, k: nat, n: nat, size: nat)
    requires k + n == |s.history| && 0 < n && s.client.taken + size == |Text(s.history)|
    requires IsExitOf(s.history, Run(cfg, s, Uninterrupted(id, n, size)).client.phase)
    ensures EndsWithItsExit(cfg, s, id, k)
  {
  }

  lemma EndsInTheExit(cfg: Config, s: System, id: StreamId, k: nat)
    requires Inv(cfg, s) && AttachesAt(s, id, k)
    ensures EndsWithItsExit(cfg, s, id, k)
  {
    hide *;
    AtMeans(s, id, k);
    AttachStarts(cfg, s, id, k);
    ServesTheRest(cfg, s, Consumed(s, id), id, k);
    var n, size := |s.history| - k, |Text(s.history)| - s.client.taken;
    RunToTheRead(cfg, s, id, k, n, size);
    StartedSteps(s, id, k);
    ReadsTheExit(cfg, s, Stepped(Started3(s, id, k), id, n), id, Served(Consumed(s, id), id, k));
    EndsSo(cfg, s, id, k, n, size);
  }

  lemma RunToTheRead(cfg: Config, s: System, id: StreamId, k: nat, n: nat, size: nat)
    requires s.exec.Some? && Run(cfg, s, [NodeServes(id, false)] + [ServerHears] + [StreamStarts(id)])
        == Started3(s, id, k)
    ensures Run(cfg, s, Uninterrupted(id, n, size)) == OnRead(cfg, Stepped(Started3(s, id, k), id, n), size)
  {
    hide Run, Started3, Stepped, Steps, OnRead;
    var opening := [NodeServes(id, false)] + [ServerHears] + [StreamStarts(id)];
    RunOfSteps(cfg, s, opening, id, n);
    RunMore(cfg, s, opening + Steps(id, n), ServerReads(size));
  }

  /** The command with the stream as its consumer. */
  function Consumed(s: System, id: StreamId): Exec
    requires s.exec.Some?
  {
    s.exec.value.(consumer := Some(id), graceArmed := false)
  }

  lemma StartedSteps(s: System, id: StreamId, k: nat)
    requires s.exec.Some? && s.exec.value.tail.dropped <= k
    requires s.exec.value.tail.dropped + |s.exec.value.tail.lines| == |s.history| && k < |s.history|
    ensures var started := Started3(s, id, k);
            var end := Stepped(started, id, |s.history| - k);
            && end.client == s.client.(pending := [], phase := Reading(id, 0)) && id in end.streams
            && end.streams[id].sent == Served(Consumed(s, id), id, k)
  {
    hide Served;
    var started := Started3(s, id, k);
    SteppedServes(started, id, k, |s.history| - k);
    assert [] + Served(started.exec.value, id, k) == Served(started.exec.value, id, k);
  }

  lemma ServesTheRest(cfg: Config, s: System, e: Exec, id: StreamId, k: nat)
    requires Inv(cfg, s) && AttachesAfterExit(s, id) && e == Consumed(s, id)
    requires k < |s.history| && s.client.taken == Offset(s.history, k) && s.exec.value.tail.dropped <= k
    ensures s.client.taken <= |Text(s.history)| && |Served(e, id, k)| == |Text(s.history)| - s.client.taken
    ensures var taken := TakeLines(cfg.parse, Served(e, id, k));
            taken.stop.AtExit? && s.history[|s.history| - 1].value == Exited(taken.stop.exit)
  {
    hide StreamsOk, RepliesOk, RequestsOk, Explains, TakeLines;
    ServedToTheEnd(e, s.history, cfg.tailBytes, id, k);
    SliceToTheEnd(s.history, k, Served(e, id, k));
    TakesToTheEnd(cfg, s.history, k, Served(e, id, k));
  }

  lemma SliceToTheEnd(history: seq<Record>, k: nat, bytes: seq<Byte>)
    requires k <= |history| && Offset(history, k) <= |Text(history)| && bytes == Text(history)[Offset(history, k)..]
    ensures Slice(history, Offset(history, k), bytes)
  {
    hide Text, Offset;
  }

  lemma ReadsTheExit(cfg: Config, s: System, end: System, id: StreamId, bytes: seq<Byte>)
    requires end.client == s.client.(pending := [], phase := Reading(id, 0)) && !s.client.callbackFailed
    requires id in end.streams && end.streams[id].sent == bytes
    requires s.history != [] && var taken := TakeLines(cfg.parse, bytes);
             taken.stop.AtExit? && s.history[|s.history| - 1].value == Exited(taken.stop.exit)
    ensures IsExitOf(s.history, OnRead(cfg, end, |bytes|).client.phase)
  {
    hide TakeLines;
    assert bytes[0..|bytes|] == bytes && [] + bytes == bytes;
  }

  // ---- Attaching below the tail ----

  /** The server is to attach, or has its attach answered with the end of the records, or gave up: below the tail of
      what the node still has, if anything. */
  ghost predicate WaitsBelow(s: System) {
    && HasExit(s.history)
    && (s.exec.Some? ==> s.client.taken < FirstKept(s.exec.value.tail))
    && match s.client.phase
       case ToAttach => true
       case Attaching(id) =>
         id in s.replies ==>
           s.replies[id].NotFound? || s.replies[id].Rejected? || s.replies[id].Garbled?
           || (s.replies[id].Attached? && s.replies[id].offset == |Text(s.history)|)
       case Done(outcome) => outcome.GivenUp? || outcome.OutcomeUnknown?
       case _ => false
  }

  ghost predicate Doomed(s: System) {
    ExitMissed(s) || WaitsBelow(s)
  }

  lemma ServingKeepsBelow(cfg: Config, s: System, id: StreamId, pausing: bool)
    requires Inv(cfg, s) && WaitsBelow(s)
    ensures WaitsBelow(OnServe(s, id, pausing))
  {
    if id in s.requests {
      StartNeedsNoHistory(cfg, s, id);
      assert s.requests[id].AttachFrom?;
      if s.kept && s.client.phase == Attaching(id) {
        AnswersWithTheEnd(cfg, s, id);
      }
      hide Inv, Text, FirstKept, HasExit;
      ServedBelow(s, id, pausing);
    }
  }

  /** The answer to this call's attach gives the end of the records, or that there is no command. */
  lemma ServedBelow(s: System, id: StreamId, pausing: bool)
    requires WaitsBelow(s) && id in s.requests && s.requests[id].AttachFrom?
    requires s.kept && s.client.phase == Attaching(id) ==>
               s.exec.Some? && s.requests[id] == AttachFrom(s.client.taken)
               && Attach(s.exec.value.tail, s.client.taken) == ShowView(|Text(s.history)|, s.exec.value.tail.view)
    ensures WaitsBelow(OnServe(s, id, pausing))
  {
    hide Text, Attach, FirstKept, HasExit;
  }

  lemma AnswersWithTheEnd(cfg: Config, s: System, id: StreamId)
    requires Inv(cfg, s) && WaitsBelow(s) && id in s.requests && s.kept && s.client.phase == Attaching(id)
    ensures s.exec.Some? && s.requests[id] == AttachFrom(s.client.taken)
    ensures Attach(s.exec.value.tail, s.client.taken) == ShowView(|Text(s.history)|, s.exec.value.tail.view)
  {
    hide StreamsOk, RepliesOk, Explains, Printed;
  }

  lemma HearingBelowMisses(cfg: Config, s: System)
    requires Inv(cfg, s) && WaitsBelow(s)
    ensures Doomed(OnHear(s))
  {
    hide Text, Inv, FirstKept, HasExit;
  }

  lemma CallingKeepsBelow(cfg: Config, s: System, sent: bool)
    requires Inv(cfg, s) && WaitsBelow(s)
    ensures WaitsBelow(OnCall(s, sent))
  {
    assert s.nextId !in s.replies;
    hide Text, Inv, FirstKept, HasExit;
  }

  lemma OtherEventsKeepBelow(cfg: Config, s: System, e: Event)
    requires WaitsBelow(s) && (s.exec.Some? ==> s.exec.value.tail.exited)
    requires !e.ServerRestarts? && !e.NodeServes? && !e.ServerHears? && !e.ServerCalls?
    ensures WaitsBelow(Step(cfg, s, e))
  {
    hide Text, HasExit, StartIndex;
  }

  lemma StaysDoomed(cfg: Config, s: System, e: Event)
    requires Inv(cfg, s) && Doomed(s) && Legal(cfg, e) && !e.ServerRestarts?
    ensures Doomed(Step(cfg, s, e))
  {
    if ExitMissed(s) {
      MissedExitIsNeverSeen(cfg, s, e);
    } else {
      ExitedIsExited(cfg, s);
      hide Inv, WaitsBelow, ExitMissed;
      match e
      case NodeServes(id, pausing) => ServingKeepsBelow(cfg, s, id, pausing);
      case ServerHears => HearingBelowMisses(cfg, s);
      case ServerCalls(sent) => CallingKeepsBelow(cfg, s, sent);
      case _ => OtherEventsKeepBelow(cfg, s, e);
    }
  }

  lemma ExitedIsExited(cfg: Config, s: System)
    requires Inv(cfg, s) && HasExit(s.history)
    ensures s.exec.Some? ==> s.exec.value.tail.exited
  {
  }

  predicate NoServerRestart(events: seq<Event>) {
    forall i :: 0 <= i < |events| ==> !events[i].ServerRestarts?
  }

  /** Once the exit was missed, or is to be, no run of this call reports it. */
  lemma {:induction false} ExitIsNeverSeen(cfg: Config, s: System, events: seq<Event>)
    requires Inv(cfg, s) && Doomed(s) && AllLegal(cfg, events) && NoServerRestart(events)
    ensures Doomed(Run(cfg, s, events))
    ensures !ReportsExit(Run(cfg, s, events))
  {
    hide Inv, Step;
    if events != [] {
      var init := events[..|events| - 1];
      hide Doomed;
      ExitIsNeverSeen(cfg, s, init);
      RunFromKeeps(cfg, s, init);
      StaysDoomed(cfg, Run(cfg, s, init), events[|events| - 1]);
    }
    DoomedReportsNone(Run(cfg, s, events));
  }

  predicate ReportsExit(s: System) {
    s.client.phase.Done? && s.client.phase.outcome.ExitSeen?
  }

  lemma DoomedReportsNone(s: System)
    requires Doomed(s)
    ensures !ReportsExit(s)
  {
    hide Text;
  }

  // ---- The exact condition ----

  ghost predicate LeadsToExit(cfg: Config, s: System, events: seq<Event>) {
    AllLegal(cfg, events) && NoServerRestart(events) && ReportsExit(Run(cfg, s, events))
  }

  lemma {:induction false} StepsAreLegal(cfg: Config, id: StreamId, n: nat)
    ensures AllLegal(cfg, Steps(id, n)) && NoServerRestart(Steps(id, n))
  {
    if n > 0 {
      StepsAreLegal(cfg, id, n - 1);
    }
  }

  lemma UninterruptedIsLegal(cfg: Config, id: StreamId, n: nat, size: nat)
    ensures AllLegal(cfg, Uninterrupted(id, n, size)) && NoServerRestart(Uninterrupted(id, n, size))
  {
    StepsAreLegal(cfg, id, n);
  }

  /** In every run: a call that attaches within the tail after the exit ends, uninterrupted, with the command's own
      exit. */
  lemma UninterruptedAttachEndsInTheExit(cfg: Config, before: seq<Event>, id: StreamId, k: nat)
    requires AllLegal(cfg, before) && AttachesAt(Run(cfg, FRESH, before), id, k)
    ensures EndsWithItsExit(cfg, Run(cfg, FRESH, before), id, k)
  {
    RunKeeps(cfg, before);
    hide *;
    EndsInTheExit(cfg, Run(cfg, FRESH, before), id, k);
  }

  /** Over every run: a call that attaches to a command that exited and that the node has can still report the exit
      exactly when it attaches neither below the node's tail nor past the end of the records. */
  lemma ExitIsSeenIffWithinTheTail(cfg: Config, before: seq<Event>, id: StreamId)
    requires AllLegal(cfg, before) && AttachesAfterExit(Run(cfg, FRESH, before), id)
    ensures var s := Run(cfg, FRESH, before);
            AttachesWithin(s) <==> exists events :: LeadsToExit(cfg, s, events)
  {
    RunKeeps(cfg, before);
    ExitIsSeenFrom(cfg, Run(cfg, FRESH, before), id);
  }

  lemma ExitIsSeenFrom(cfg: Config, s: System, id: StreamId)
    requires Inv(cfg, s) && AttachesAfterExit(s, id)
    ensures AttachesWithin(s) <==> exists events :: LeadsToExit(cfg, s, events)
  {
    hide Inv, Run, Text;
    if AttachesWithin(s) {
      SeenAtTheTail(cfg, s, id);
    } else {
      NeverSeenOutside(cfg, s, id);
    }
  }

  lemma WithinMeans(s: System, id: StreamId)
    requires AttachesAfterExit(s, id) && AttachesWithin(s)
    ensures s.exec.Some? && FirstKept(s.exec.value.tail) <= s.client.taken < |Text(s.history)|
  {
  }

  lemma SeenAtTheTail(cfg: Config, s: System, id: StreamId)
    requires Inv(cfg, s) && AttachesAfterExit(s, id) && AttachesWithin(s)
    ensures exists events :: LeadsToExit(cfg, s, events)
  {
    hide *;
    WithinMeans(s, id);
    var k := WhereTaken(cfg, s);
    AttachesThere(s, id, k);
    EndsInTheExit(cfg, s, id, k);
    var events := ReportsItsExit(cfg, s, id, k);
    Leads(cfg, s, events);
  }

  lemma AttachesThere(s: System, id: StreamId, k: nat)
    requires AttachesAfterExit(s, id) && AttachesWithin(s) && k < |s.history| && s.client.taken == Offset(s.history, k)
    ensures AttachesAt(s, id, k)
  {
  }

  lemma ReportsItsExit(cfg: Config, s: System, id: StreamId, k: nat) returns (events: seq<Event>)
    requires EndsWithItsExit(cfg, s, id, k)
    ensures AllLegal(cfg, events) && NoServerRestart(events) && ReportsExit(Run(cfg, s, events))
  {
    events := Uninterrupted(id, |s.history| - k, |Text(s.history)| - s.client.taken);
    hide Run, Uninterrupted, Text;
    UninterruptedIsLegal(cfg, id, |s.history| - k, |Text(s.history)| - s.client.taken);
  }

  lemma Leads(cfg: Config, s: System, events: seq<Event>)
    requires AllLegal(cfg, events) && NoServerRestart(events) && ReportsExit(Run(cfg, s, events))
    ensures LeadsToExit(cfg, s, events)
  {
  }

  lemma NeverSeenOutside(cfg: Config, s: System, id: StreamId)
    requires Inv(cfg, s) && AttachesAfterExit(s, id) && !AttachesWithin(s)
    ensures forall events :: !LeadsToExit(cfg, s, events)
  {
    OutsideIsDoomed(cfg, s, id);
    hide Inv, Doomed, AttachesAfterExit, AttachesWithin, Run;
    forall events
      ensures !LeadsToExit(cfg, s, events)
    {
      if AllLegal(cfg, events) && NoServerRestart(events) {
        ExitIsNeverSeen(cfg, s, events);
      }
    }
  }

  lemma WhereTaken(cfg: Config, s: System) returns (k: nat)
    requires Inv(cfg, s) && s.client.taken < |Text(s.history)|
    ensures k < |s.history| && s.client.taken == Offset(s.history, k)
  {
    k :| ClientAt(s, k);
    OffsetEnd(s.history);
  }

  lemma OutsideIsDoomed(cfg: Config, s: System, id: StreamId)
    requires Inv(cfg, s) && AttachesAfterExit(s, id) && !AttachesWithin(s)
    ensures Doomed(s)
  {
    var k: nat :| ClientAt(s, k);
    OffsetMonotone(s.history, k, |s.history|);
    OffsetEnd(s.history);
    assert id !in s.replies;
    assert HasExit(s.history);
  }

  // ---- The boundary is reached ----

  /** A command whose two records do not both fit the tail exits, its stream is lost unread, and the server attaches. */
  function BoundaryRun(update: Record, exit: Record): seq<Event> {
    [ServerCalls(true)] + [NodeServes(0, false)] + [ServerHears] + [CommandRecords(update)] + [CommandRecords(exit)]
    + [ServerLosesStream] + [ServerCalls(true)]
  }

  /** From a fresh `execId`, that run attaches below the tail, and the answer makes the server miss the exit. */
  lemma TheBoundaryIsReached(cfg: Config, update: Record, exit: Record)
    requires Printed(cfg.parse, update) && Printed(cfg.parse, exit) && update.value.Updated? && exit.value.Exited?
    requires cfg.tailBytes < Size(update) + Size(exit)
    ensures AllLegal(cfg, BoundaryRun(update, exit))
    ensures var s := Run(cfg, FRESH, BoundaryRun(update, exit));
            AttachesAfterExit(s, 1) && s.client.taken < FirstKept(s.exec.value.tail)
    ensures ExitMissed(Run(cfg, FRESH, BoundaryRun(update, exit) + [NodeServes(1, false)] + [ServerHears]))
  {
    BoundaryStarts(cfg);
    BoundaryRecords(cfg, update, exit);
    BoundaryReattaches(cfg, update, exit);
    hide Run, Step, OutputUnread, FirstKept, ExitMissed, Printed, AllLegal;
    RunOfFour(cfg, FRESH, [ServerCalls(true)] + [NodeServes(0, false)] + [ServerHears],
              CommandRecords(update), CommandRecords(exit), ServerLosesStream, ServerCalls(true));
    BoundaryIsMissed(cfg, update, exit);
  }

  lemma RunOfFour(cfg: Config, s: System, before: seq<Event>, a: Event, b: Event, c: Event, d: Event)
    ensures Run(cfg, s, before + [a] + [b] + [c] + [d])
        == Step(cfg, Step(cfg, Step(cfg, Step(cfg, Run(cfg, s, before), a), b), c), d)
  {
    hide Run, Step;
    RunMore(cfg, s, before, a);
    RunMore(cfg, s, before + [a], b);
    RunMore(cfg, s, before + [a] + [b], c);
    RunMore(cfg, s, before + [a] + [b] + [c], d);
  }

  /** The command as it starts, its reply heard. */
  function JustStarted(): System {
    System([], 1, Some(Exec(NO_RECORDS, None, true)), true, map[0 := Stream(0, Created, [])],
           map[], map[0 := Started], 1, NEW_CALL.(phase := Reading(0, 0)))
  }

  lemma BoundaryStarts(cfg: Config)
    ensures Run(cfg, FRESH, [ServerCalls(true)] + [NodeServes(0, false)] + [ServerHears]) == JustStarted()
  {
    hide Run;
    var none: seq<Event> := [];
    RunOfNone(cfg, FRESH);
    assert none + [ServerCalls(true)] == [ServerCalls(true)];
    RunMore(cfg, FRESH, none, ServerCalls(true));
    RunMore(cfg, FRESH, [ServerCalls(true)], NodeServes(0, false));
    RunMore(cfg, FRESH, [ServerCalls(true)] + [NodeServes(0, false)], ServerHears);
    var requested: map<StreamId, Request> := map[0 := Start];
    assert requested - {0} == map[];
  }

  /** Both records recorded, none of the stream's bytes read. */
  function OutputUnread(cfg: Config, update: Record, exit: Record): System {
    OnRecord(cfg, OnRecord(cfg, JustStarted(), update), exit)
  }

  lemma BoundaryRecords(cfg: Config, update: Record, exit: Record)
    requires update.value.Updated? && exit.value.Exited? && cfg.tailBytes < Size(update) + Size(exit)
    ensures var s := OutputUnread(cfg, update, exit);
            && s == JustStarted().(history := [update, exit], exec := s.exec)
            && s.exec.Some? && s.exec.value.tail.exited && FirstKept(s.exec.value.tail) == Size(update)
  {
    assert NO_RECORDS.lines + [Line(0, update)] == [Line(0, update)];
    var first := Recorded(NO_RECORDS, update, cfg.tailBytes);
    assert first == Tail([Line(0, update)], 0, Size(update), Some(ApplyUpdate(None, update.value.update)), false);
    var pushed := Pushed(first, exit);
    assert pushed.lines == [Line(0, update), Line(Size(update), exit)];
    var kept := pushed.(lines := [Line(Size(update), exit)], dropped := 1);
    assert pushed.lines[1..] == kept.lines;
    assert Trim(kept, cfg.tailBytes) == kept;
    assert Recorded(first, exit, cfg.tailBytes) == kept;
    assert [] + [update] + [exit] == [update, exit];
  }

  /** The stream lost and the attach sent. */
  lemma BoundaryReattaches(cfg: Config, update: Record, exit: Record)
    requires OutputUnread(cfg, update, exit) == JustStarted().(history := [update, exit],
        exec := OutputUnread(cfg, update, exit).exec)
    ensures Step(cfg, Step(cfg, Step(cfg, Step(cfg, JustStarted(), CommandRecords(update)), CommandRecords(exit)),
        ServerLosesStream), ServerCalls(true))
            == OutputUnread(cfg, update, exit).(
                 nextId := 2, requests := map[1 := AttachFrom(0)], client := NEW_CALL.(phase := Attaching(1)))
  {
    hide OnRecord;
  }

  lemma BoundaryIsMissed(cfg: Config, update: Record, exit: Record)
    requires Printed(cfg.parse, update) && Printed(cfg.parse, exit)
    requires var s := Run(cfg, FRESH, BoundaryRun(update, exit));
             AttachesAfterExit(s, 1) && s.client.taken < FirstKept(s.exec.value.tail)
    ensures AllLegal(cfg, BoundaryRun(update, exit))
    ensures ExitMissed(Run(cfg, FRESH, BoundaryRun(update, exit) + [NodeServes(1, false)] + [ServerHears]))
  {
    var run := BoundaryRun(update, exit);
    hide Run, ExitMissed, Attach, FirstKept, OnServe, OnHear, Printed;
    RunKeeps(cfg, run);
    RunMore(cfg, FRESH, run, NodeServes(1, false));
    RunMore(cfg, FRESH, run + [NodeServes(1, false)], ServerHears);
    hide Inv;
    AttachBelowTailMissesExit(cfg, Run(cfg, FRESH, run), 1, false);
  }
}
