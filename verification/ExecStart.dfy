/** What a start that is reported as failed leaves at the node. */
module ExecStart {
  import opened Bytes
  import opened ExecRecords
  import opened ExecTail
  import opened ExecReader
  import opened ExecSession
  import opened ExecRefinement
  import opened ExecTheorems
  import opened ExecExit

  /** The node's answer that it started the command turns into one that the caller's schemas refuse. */
  predicate GarblesStart(s: System, e: Event) {
    e.ReplyGarbled? && e.id in s.replies && s.replies[e.id].Started?
  }

  predicate StartWasGarbled(cfg: Config, events: seq<Event>) {
    events != [] &&
    var init, last := events[..|events| - 1], events[|events| - 1];
    StartWasGarbled(cfg, init) || GarblesStart(Run(cfg, FRESH, init), last)
  }

  // ---- Started or not ----

  /** The start ends, or is to end, in a failure, and yet the command started. */
  predicate FailsStarted(s: System) {
    && s.starts > 0
    && match s.client.phase
       case Starting(id) => id in s.replies && s.replies[id].Garbled?
       case Done(outcome) => outcome.SpawnError?
       case _ => false
  }

  lemma OnlyGarblingFailsIt(cfg: Config, s: System, e: Event)
    requires Inv(cfg, s) && !FailsStarted(s) && FailsStarted(Step(cfg, s, e))
    ensures GarblesStart(s, e)
  {
    assert RequestsOk(s) && RepliesOk(s) && PhaseOk(s);
    hide Inv, RequestsOk, RepliesOk, PhaseOk, FailsStarted;
    match e
    case NodeServes(id, pausing) => ServingFailsNone(s, id, pausing);
    case ReplyGarbled(id) => GarblingFails(cfg, s, id);
    case ServerHears => HearingFailsNone(s);
    case ServerCalls(sent) => CallingFailsNone(s, sent);
    case NodeFails(id) => RejectingFailsNone(s, id);
    case ServerDropsStart => DroppingFailsNone(s);
    case _ => NothingElseFails(cfg, s, e);
  }

  lemma ServingFailsNone(s: System, id: StreamId, pausing: bool)
    requires PhaseOk(s) && !FailsStarted(s)
    ensures !FailsStarted(OnServe(s, id, pausing))
  {
    hide Text, Offset, Slice, HasExit, Attach;
    var s' := OnServe(s, id, pausing);
    assert s'.starts != s.starts ==> id in s.requests && s.requests[id].Start?;
  }

  lemma GarblingFails(cfg: Config, s: System, id: StreamId)
    requires PhaseOk(s) && !FailsStarted(s) && FailsStarted(Step(cfg, s, ReplyGarbled(id)))
    ensures GarblesStart(s, ReplyGarbled(id))
  {
    hide Slice, HasExit;
  }

  lemma HearingFailsNone(s: System)
    requires PhaseOk(s) && !FailsStarted(s)
    ensures !FailsStarted(OnHear(s))
  {
    hide Slice, HasExit;
  }

  lemma CallingFailsNone(s: System, sent: bool)
    requires PhaseOk(s) && !FailsStarted(s)
    ensures !FailsStarted(OnCall(s, sent))
  {
    hide Slice, HasExit;
  }

  lemma RejectingFailsNone(s: System, id: StreamId)
    requires PhaseOk(s) && !FailsStarted(s)
    ensures !FailsStarted(OnFail(s, id))
  {
    hide Slice, HasExit;
  }

  lemma DroppingFailsNone(s: System)
    requires PhaseOk(s) && !FailsStarted(s)
    ensures !FailsStarted(OnDropStart(s))
  {
    hide Slice, HasExit;
  }

  lemma NothingElseFails(cfg: Config, s: System, e: Event)
    requires !FailsStarted(s)
    requires !e.NodeServes? && !e.NodeFails? && !e.ReplyGarbled?
    requires !e.ServerHears? && !e.ServerCalls? && !e.ServerDropsStart?
    ensures !FailsStarted(Step(cfg, s, e))
  {
    hide Recorded, TakeLines, StartIndex, StepStream, TookAll;
  }

  /** Whatever becomes of the answer, a command once started has been. */
  lemma {:induction false} GarbledWasStarted(cfg: Config, events: seq<Event>)
    requires AllLegal(cfg, events) && StartWasGarbled(cfg, events)
    ensures Run(cfg, FRESH, events).starts > 0
  {
    var init, last := events[..|events| - 1], events[|events| - 1];
    var s := Run(cfg, FRESH, init);
    if StartWasGarbled(cfg, init) {
      GarbledWasStarted(cfg, init);
    } else {
      RunKeeps(cfg, init);
      StartedMeansStarted(cfg, s, last.id);
    }
    hide StartWasGarbled, Inv;
    StartsStay(cfg, s, last);
  }

  lemma StartedMeansStarted(cfg: Config, s: System, id: StreamId)
    requires Inv(cfg, s) && id in s.replies && s.replies[id].Started?
    ensures s.starts > 0
  {
    hide Text, Fold, Offset, Boundary, Shown, ShownAt, Faithful, Printed, PhaseOk;
    assert ReplyOk(s.history, s.streams, id, s.replies[id]);
  }

  lemma StartsStay(cfg: Config, s: System, e: Event)
    ensures Step(cfg, s, e).starts >= s.starts
  {
    hide Recorded, Reads, StartIndex, Attach;
  }

  lemma {:induction false} FailedStartedOnlyIfGarbled(cfg: Config, events: seq<Event>)
    requires AllLegal(cfg, events) && FailsStarted(Run(cfg, FRESH, events))
    ensures StartWasGarbled(cfg, events)
  {
    if events != [] {
      var init, last := events[..|events| - 1], events[|events| - 1];
      var s := Run(cfg, FRESH, init);
      assert Run(cfg, FRESH, events) == Step(cfg, s, last);
      RunKeeps(cfg, init);
      hide Step, Inv, FailsStarted, GarblesStart;
      if FailsStarted(s) {
        FailedStartedOnlyIfGarbled(cfg, init);
      } else {
        OnlyGarblingFailsIt(cfg, s, last);
      }
    }
  }

  // ---- No start any more ----

  predicate StartsNoMore(s: System) {
    !s.client.phase.ToStart? && NoStart(s.requests)
  }

  lemma StaysStartless(cfg: Config, s: System, e: Event)
    requires StartsNoMore(s) && !s.client.phase.Starting?
    ensures var s' := Step(cfg, s, e); StartsNoMore(s') && !s'.client.phase.Starting? && s'.starts == s.starts
  {
    hide Recorded, StartIndex, Attach, TakeLines;
  }

  lemma {:induction false} RunStaysStartless(cfg: Config, s: System, more: seq<Event>)
    requires StartsNoMore(s) && !s.client.phase.Starting?
    ensures var s' := Run(cfg, s, more); StartsNoMore(s') && !s'.client.phase.Starting? && s'.starts == s.starts
  {
    hide Step, StartsNoMore;
    if more != [] {
      RunStaysStartless(cfg, s, more[..|more| - 1]);
      StaysStartless(cfg, Run(cfg, s, more[..|more| - 1]), more[|more| - 1]);
    }
  }

  // ---- What a spawn error says ----

  /** Over every run: a command whose start is reported as failed was not started exactly when the node's answer that it
      started was not garbled on its way; and either way nothing starts it from then on. */
  lemma SpawnErrorIsNoStartIffNotGarbled(cfg: Config, events: seq<Event>, more: seq<Event>)
    requires AllLegal(cfg, events) && Run(cfg, FRESH, events).client.phase == Done(SpawnError)
    ensures Run(cfg, FRESH, events).starts == 0 <==> !StartWasGarbled(cfg, events)
    ensures Run(cfg, Run(cfg, FRESH, events), more).starts == Run(cfg, FRESH, events).starts
  {
    RunKeeps(cfg, events);
    var s := Run(cfg, FRESH, events);
    assert StartsNoMore(s);
    hide Run, Inv, StartWasGarbled;
    RunStaysStartless(cfg, s, more);
    if s.starts > 0 {
      assert FailsStarted(s);
      FailedStartedOnlyIfGarbled(cfg, events);
    } else if StartWasGarbled(cfg, events) {
      GarbledWasStarted(cfg, events);
    }
  }

  /** The node starts the command, and its answer reaches the server garbled. */
  function GarbledRun(): seq<Event> {
    [ServerCalls(true)] + [NodeServes(0, false)] + [ReplyGarbled(0)] + [ServerHears]
  }

  lemma GarbledStates(cfg: Config)
    ensures var served := Step(cfg, Step(cfg, FRESH, ServerCalls(true)), NodeServes(0, false));
            var heard := Step(cfg, Step(cfg, served, ReplyGarbled(0)), ServerHears);
            heard.client.phase == Done(SpawnError) && heard.starts == 1 && heard.kept && heard.exec.Some?
  {
    var called := Step(cfg, FRESH, ServerCalls(true));
    assert called.requests == map[0 := Start] && called.client.phase == Starting(0);
    var served := Step(cfg, called, NodeServes(0, false));
    assert served == called.(requests := called.requests - {0}, starts := 1, kept := true, exec := served.exec,
                             streams := served.streams, replies := map[0 := Started]) && served.exec.Some?;
    assert served.replies[0 := Garbled][0] == Garbled;
  }

  /** That run reports a started command, which the node keeps, as one that never was. */
  lemma StartedIsReportedAsNot(cfg: Config)
    ensures AllLegal(cfg, GarbledRun())
    ensures var s := Run(cfg, FRESH, GarbledRun());
            s.client.phase == Done(SpawnError) && s.starts == 1 && s.kept && s.exec.Some?
  {
    GarbledStates(cfg);
    hide Run, Step;
    var none: seq<Event> := [];
    RunOfNone(cfg, FRESH);
    assert none + [ServerCalls(true)] == [ServerCalls(true)];
    RunMore(cfg, FRESH, none, ServerCalls(true));
    RunMore(cfg, FRESH, [ServerCalls(true)], NodeServes(0, false));
    RunMore(cfg, FRESH, [ServerCalls(true)] + [NodeServes(0, false)], ReplyGarbled(0));
    RunMore(cfg, FRESH, [ServerCalls(true)] + [NodeServes(0, false)] + [ReplyGarbled(0)], ServerHears);
  }
}
