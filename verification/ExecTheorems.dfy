/** What every run of a resumed command gives its caller, from a fresh `execId` on. */
module ExecTheorems {
  import opened Bytes
  import opened ExecRecords
  import opened ExecTail
  import opened ExecReader
  import opened ExecSession
  import opened ExecRefinement

  ghost predicate AllLegal(cfg: Config, events: seq<Event>) {
    forall i :: 0 <= i < |events| ==> Legal(cfg, events[i])
  }

  /** Resume refinement. However outputs, drops, evictions, hand-overs and reattaches interleave, the server has
      taken exactly the bytes of some first records of the one history, it was given those records in order (an
      attach's view standing for the ones it skips), and what it shows is the window of the command's output that they
      describe. */
  lemma ResumeRefinement(cfg: Config, events: seq<Event>) returns (k: nat)
    requires AllLegal(cfg, events)
    ensures var s := Run(cfg, FRESH, events);
            && k <= |s.history|
            && s.client.taken == Offset(s.history, k)
            && (!s.client.callbackFailed ==>
                 Explains(s.client.given, s.history, k) && Shows(s.client.given) == Window(s.history[..k]))
            && (s.client.callbackFailed ==> exists j: nat :: j <= k && Shows(s.client.given) == Window(s.history[..j]))
  {
    RunKeeps(cfg, events);
    var s := Run(cfg, FRESH, events);
    k :| ClientAt(s, k);
    var j: nat :| j <= k && Explains(s.client.given, s.history, j) && (s.client.callbackFailed || j == k);
    ExplainedShows(s.client.given, s.history, j);
    FoldIsWindow(s.history[..j]);
    hide Window, Fold;
  }

  /** At-most-once start: whatever became of each attempt, and after the node forgot the command too. */
  lemma StartedAtMostOnce(cfg: Config, events: seq<Event>)
    requires AllLegal(cfg, events)
    ensures Run(cfg, FRESH, events).starts <= 1
  {
    hide Text, Fold, Offset, Boundary, NextRecord, ShownAt, Shown, Faithful, Printed;
    RunKeeps(cfg, events);
  }

  /** The node never refuses this client's offset, and the client never meets a line it cannot read. */
  lemma NeverRefused(cfg: Config, events: seq<Event>)
    requires AllLegal(cfg, events)
    ensures var s := Run(cfg, FRESH, events);
            && (forall id :: id in s.replies ==> !s.replies[id].Refused? && !s.replies[id].AlreadyStarted?)
            && s.client.phase != Done(MalformedOutput)
  {
    hide Text, Fold, Offset, Boundary, NextRecord, ShownAt, Shown, Faithful, Printed;
    RunKeeps(cfg, events);
    var s := Run(cfg, FRESH, events);
    forall id | id in s.replies
      ensures !s.replies[id].Refused? && !s.replies[id].AlreadyStarted?
    {
      assert ReplyOk(s.history, s.streams, id, s.replies[id]);
    }
  }

  /** A result is the command's own exit, and all its output was shown by then. */
  lemma ResultIsTheExit(cfg: Config, events: seq<Event>, exit: Exit)
    requires AllLegal(cfg, events) && Run(cfg, FRESH, events).client.phase == Done(ExitSeen(exit))
    ensures var s := Run(cfg, FRESH, events);
            && HasExit(s.history) && s.history[|s.history| - 1].value == Exited(exit)
            && s.client.taken == |Text(s.history)|
            && (!s.client.callbackFailed ==> Shows(s.client.given) == Window(s.history))
  {
    hide Run, Fold, Window, Shows, Explains, NodeOk, StreamsOk, RequestsOk, RepliesOk, Text, Offset;
    var s := Run(cfg, FRESH, events);
    var k := ResumeRefinement(cfg, events);
    RunKeeps(cfg, events);
    OffsetEnd(s.history);
    OffsetsDiffer(s.history, k, |s.history|);
    assert s.history[..|s.history|] == s.history;
  }

  predicate IsServing(s: System, id: StreamId) {
    id in s.streams && s.streams[id].phase.Serving? && s.exec.Some?
  }

  predicate IsOvertaken(s: System, id: StreamId)
    requires IsServing(s, id)
  {
    StepStream(s.exec.value, id, s.streams[id].phase.next).Overtaken?
  }

  /** A command the node keeps has a stream serving it or a grace timer running, never both and never neither;
      and of all streams opened on it at most one is not overtaken. */
  lemma ServedOrInGrace(cfg: Config, events: seq<Event>)
    requires AllLegal(cfg, events)
    ensures var s := Run(cfg, FRESH, events);
            && (s.kept ==> s.exec.Some? && (s.exec.value.consumer.Some? <==> !s.exec.value.graceArmed))
            && (s.kept && !s.exec.value.graceArmed ==>
                  exists id :: IsServing(s, id) && !IsOvertaken(s, id))
            && (forall a, b :: IsServing(s, a) && IsServing(s, b) ==> a == b || IsOvertaken(s, a) || IsOvertaken(s, b))
  {
    hide Text, Fold, Offset, Boundary, NextRecord, ShownAt, Shown, Faithful, Printed;
    RunKeeps(cfg, events);
    var s := Run(cfg, FRESH, events);
    if s.kept && !s.exec.value.graceArmed {
      var id := s.exec.value.consumer.value;
      assert IsServing(s, id) && !IsOvertaken(s, id);
    }
  }

  // ---- The exit, after the command exited ----

  /** What follows a record that is not the last, read to the end, holds another whole line. */
  lemma RestHasNewline(history: seq<Record>, k: nat, rest: seq<Byte>)
    requires k <= |history| && Slice(history, Offset(history, k), rest)
    requires Offset(history, k) + |rest| == |Text(history)|
    ensures k < |history| ==> NEWLINE in rest
  {
    hide Text, Offset;
    if k < |history| {
      RowAt(history, k);
      OffsetBound(history, k + 1);
      var row, at := history[k].line + [NEWLINE], Offset(history, k);
      assert row[|row| - 1] == Text(history)[at + (|row| - 1)];
      assert rest[|row| - 1] == Text(history)[at + (|row| - 1)];
    }
  }

  /** An attach not below the tail, read to its end, gives every remaining record and then the exit. */
  lemma UninterruptedAttachTakesExit(cfg: Config, e: Exec, history: seq<Record>, id: StreamId, k: nat)
    requires forall i :: 0 <= i < |history| ==> Printed(cfg.parse, history[i])
    requires Faithful(e.tail, history, cfg.tailBytes) && ExitLast(history) && HasExit(history)
    requires e.consumer == Some(id) && k < |history| && FirstKept(e.tail) <= Offset(history, k)
    ensures Attach(e.tail, Offset(history, k)) == Resume(Offset(history, k))
    ensures var taken := TakeLines(cfg.parse, Served(e, id, StartIndex(e.tail, Offset(history, k))));
            && taken.values == Values(history[k..])
            && taken.stop.AtExit? && history[|history| - 1].value == Exited(taken.stop.exit)
  {
    assert Boundary(history, Offset(history, k));
    AttachAtBoundary(e.tail, history, cfg.tailBytes, Offset(history, k));
    BoundaryIsKept(e.tail, history, cfg.tailBytes, k);
    ServedToTheEnd(e, history, cfg.tailBytes, id, k);
    TakesToTheEnd(cfg, history, k, Served(e, id, k));
  }

  lemma TakesToTheEnd(cfg: Config, history: seq<Record>, k: nat, bytes: seq<Byte>)
    requires forall i :: 0 <= i < |history| ==> Printed(cfg.parse, history[i])
    requires ExitLast(history) && HasExit(history) && k < |history|
    requires Slice(history, Offset(history, k), bytes) && Offset(history, k) + |bytes| == |Text(history)|
    ensures var taken := TakeLines(cfg.parse, bytes);
            && taken.values == Values(history[k..])
            && taken.stop.AtExit? && history[|history| - 1].value == Exited(taken.stop.exit)
  {
    var k' := TakesRecords(cfg.parse, history, k, bytes);
    RestHasNewline(history, k', TakeLines(cfg.parse, bytes).rest);
    hide TakeLines, Text;
    var taken := TakeLines(cfg.parse, bytes);
    assert taken.stop.AtExit?;
    assert k' == |history|;
    assert history[k..k'] == history[k..];
  }

  /** The exit passed the server by: it has taken every byte without it. */
  ghost predicate ExitMissed(s: System) {
    && HasExit(s.history) && s.client.taken == |Text(s.history)|
    && (s.client.phase.ToAttach? || s.client.phase.Attaching? || s.client.phase.Reading?
        || s.client.phase == Done(GivenUp) || s.client.phase == Done(OutcomeUnknown))
  }

  /** The boundary case of the attach: below the tail, once the exit was recorded, the answer lies past the
      exit, and the server that takes it has missed the exit. */
  lemma AttachBelowTailMissesExit(cfg: Config, s: System, id: StreamId, pausing: bool)
    requires Inv(cfg, s) && s.client.phase == Attaching(id) && id in s.requests && s.kept
    requires s.exec.value.tail.exited && s.client.taken < FirstKept(s.exec.value.tail)
    ensures ExitMissed(OnHear(OnServe(s, id, pausing)))
  {
    BelowTheTail(cfg, s, id);
    hide Inv, Attach, Text, HasExit, FirstKept, TookAll;
    var t, served := s.exec.value.tail, OnServe(s, id, pausing);
    assert served.replies[id] == Attached(t.end, t.view) && served.client == s.client && served.exec == s.exec;
    hide OnServe;
  }

  lemma BelowTheTail(cfg: Config, s: System, id: StreamId)
    requires Inv(cfg, s) && s.client.phase == Attaching(id) && id in s.requests && s.kept
    requires s.exec.value.tail.exited && s.client.taken < FirstKept(s.exec.value.tail)
    ensures s.requests[id] == AttachFrom(s.client.taken)
    ensures Attach(s.exec.value.tail, s.client.taken) == ShowView(|Text(s.history)|, s.exec.value.tail.view)
    ensures s.exec.value.tail.end == |Text(s.history)| && HasExit(s.history)
  {
    hide StreamsOk, RepliesOk, Explains, Printed;
    AttachAtBoundary(s.exec.value.tail, s.history, cfg.tailBytes, s.client.taken);
  }

  /** From there no step of this call reports the exit: it can only end with its outcome unknown. */
  lemma MissedExitIsNeverSeen(cfg: Config, s: System, e: Event)
    requires Inv(cfg, s) && ExitMissed(s) && Legal(cfg, e) && !e.ServerRestarts?
    ensures ExitMissed(Step(cfg, s, e))
  {
    assert s.exec.Some? ==> s.exec.value.tail.exited;
    hide Text, Inv, Attach, OnRead, OnHear, HasExit;
    match e
    case NodeServes(id, pausing) => ServingGivesNoExit(cfg, s, id, pausing);
    case ServerReads(n) => NothingLeftToRead(cfg, s, n);
    case ServerHears => NothingMoreToHear(cfg, s);
    case _ => NothingElseGivesIt(cfg, s, e);
  }

  lemma ServingGivesNoExit(cfg: Config, s: System, id: StreamId, pausing: bool)
    requires Inv(cfg, s) && ExitMissed(s)
    ensures ExitMissed(OnServe(s, id, pausing))
  {
    hide Text, Inv, Attach;
    if id in s.requests {
      StartNeedsNoHistory(cfg, s, id);
      assert s.requests[id].Start? ==> !HasExit(s.history);
      hide HasExit, Recorded;
      match s.requests[id]
      case Start =>
      case AttachFrom(offset) =>
    }
  }

  lemma NothingElseGivesIt(cfg: Config, s: System, e: Event)
    requires ExitMissed(s) && (s.exec.Some? ==> s.exec.value.tail.exited)
    requires !e.ServerRestarts? && !e.NodeServes? && !e.ServerReads? && !e.ServerHears?
    ensures ExitMissed(Step(cfg, s, e))
  {
    hide Text;
  }

  lemma NothingMoreToHear(cfg: Config, s: System)
    requires Inv(cfg, s) && ExitMissed(s)
    ensures ExitMissed(OnHear(s))
  {
    hide Text, Fold, Offset, Boundary, NextRecord, ShownAt, Shown, Faithful, Printed;
    if s.client.phase.Attaching? && s.client.phase.id in s.replies {
      AnswerIsInText(s, s.client.phase.id);
    }
  }

  lemma StartNeedsNoHistory(cfg: Config, s: System, id: StreamId)
    requires Inv(cfg, s) && id in s.requests
    ensures s.requests[id].Start? ==> s.history == []
  {
  }

  lemma AnswerIsInText(s: System, id: StreamId)
    requires StreamsOk(s) && RepliesOk(s) && id in s.replies
    ensures s.replies[id].Attached? ==> s.replies[id].offset <= |Text(s.history)|
  {
    assert ReplyOk(s.history, s.streams, id, s.replies[id]);
    if s.replies[id].Attached? {
      assert StreamOk(s.history, s.exec, s.streams[id]);
    }
  }

  lemma NothingLeftToRead(cfg: Config, s: System, n: nat)
    requires Inv(cfg, s) && ExitMissed(s)
    ensures ExitMissed(OnRead(cfg, s, n))
  {
    if s.client.phase.Reading? && s.client.phase.got + n <= |s.streams[s.client.phase.id].sent| {
      var stream, got := s.streams[s.client.phase.id], s.client.phase.got;
      assert StreamOk(s.history, s.exec, stream);
      assert n == 0 && s.client.pending == [];
      assert s.client.pending + stream.sent[got..got + n] == [];
      assert TakeLines(cfg.parse, []) == Taken([], 0, [], More);
    }
  }
}
