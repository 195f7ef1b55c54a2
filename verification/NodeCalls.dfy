/** Resent calls on the connections that carry them: what an attempt that is followed by another left on the wire, and
    what a command's start that is resent left at the node. */
module NodeCalls {
  import opened Bytes
  import Exec = ExecSession
  import Exit = ExecExit
  import Link = RpcLink
  import Reader = ExecReader
  import Refinement = ExecRefinement
  import Retry = NodeRetry
  import Rpc = RpcPeer
  import Tail = ExecTail
  import Theorems = ExecTheorems

  const APPLICATION_ERROR := -32000

  /** The node's own error in the data of an error reply, where it parses as one. */
  datatype Refusal = Refusal(unavailable: bool, retryable: bool)

  /** One attempt: rejected because there is no open link to the node, or call number `call` of one side of a
      connection, seen at any moment once it settled. */
  datatype Try = Unlinked | Linked(steps: seq<Link.Step>, atA: bool, call: nat, refusal: Option<Refusal>)

  /** With what `onNode` sees besides. */
  datatype Tried = Tried(what: Try, connected: bool, at: nat, aborted: bool)

  function PeerOf(t: Try): Rpc.Peer
    requires t.Linked?
  {
    Link.Side(Link.Run(t.steps), t.atA).a
  }

  predicate Settled(t: Try) {
    t.Linked? ==> t.call < |PeerOf(t).calls| && Rpc.OutcomeOf(PeerOf(t), PeerOf(t).calls[t.call]).Some?
  }

  /** How `onNode` classifies what the peer rejected a call with. */
  function Classify(o: Rpc.Outcome, refusal: Option<Refusal>): Retry.Outcome {
    if Rpc.Unavailable(o) then Retry.Unavailable(Rpc.OutcomeUnknown(o))
    else if o.ErrorReply? && o.code == APPLICATION_ERROR && refusal.Some? then
      Retry.Rejection(refusal.value.unavailable, refusal.value.retryable)
    else if o.Resolved? then Retry.Answered
    else Retry.OtherFailure
  }

  /** What a call's end means for a resend: whether the request was never handed over, may have run, was turned away by
      the node as retryable, or was answered. */
  lemma Classified(o: Rpc.Outcome, refusal: Option<Refusal>)
    ensures var c := Classify(o, refusal);
            && (c.Answered? <==> o.Resolved?)
            && (c == Retry.Unavailable(false) <==>
                  o in {Rpc.NotConnected, Rpc.TooManyInFlight, Rpc.AbortedBeforeSending})
            && (c == Retry.Unavailable(true) <==> o in {Rpc.Abandoned, Rpc.ConnectionClosed, Rpc.SendFailed})
            && (forall unavailable, retryable :: c == Retry.Rejection(unavailable, retryable) <==>
                  o == Rpc.ErrorReply(APPLICATION_ERROR) && refusal == Some(Refusal(unavailable, retryable)))
  {
  }

  function OutcomeOf(t: Try): Retry.Outcome
    requires Settled(t)
  {
    if t.Unlinked? then Retry.Unavailable(false)
    else Classify(Rpc.OutcomeOf(PeerOf(t), PeerOf(t).calls[t.call]).value, t.refusal)
  }

  predicate AllSettled(tries: seq<Tried>) {
    forall i :: 0 <= i < |tries| ==> Settled(tries[i].what)
  }

  function Attempts(tries: seq<Tried>): (attempts: seq<Retry.Attempt>)
    requires AllSettled(tries)
    ensures |attempts| == |tries|
    ensures forall i :: 0 <= i < |tries| ==> attempts[i].outcome == OutcomeOf(tries[i].what)
  {
    seq(|tries|, i requires 0 <= i < |tries| =>
      Retry.Attempt(tries[i].connected, OutcomeOf(tries[i].what), tries[i].at, tries[i].aborted))
  }

  /** No request was handed to the socket for the call: each there was, was for another. */
  ghost predicate NothingSent(p: Rpc.Peer, call: nat) {
    forall j: nat, id: Rpc.Id :: Rpc.IsSent(p, j, id) ==>
      (exists c: nat :: c != call && Rpc.IsCall(p, c, id)) && !Rpc.IsCall(p, call, id)
  }

  /** Rejected before there was a request. */
  predicate Refused(t: Try)
    requires Settled(t)
  {
    t.Linked? ==> PeerOf(t).calls[t.call].RefusedCall?
  }

  /** The node itself answered that it is unavailable and the call may be retried. */
  predicate TurnedAway(t: Try)
    requires Settled(t)
  {
    && t.Linked? && t.refusal == Some(Refusal(true, true))
    && Rpc.OutcomeOf(PeerOf(t), PeerOf(t).calls[t.call]) == Some(Rpc.ErrorReply(APPLICATION_ERROR))
  }

  /** An attempt that certainly did not run left no request on its connection, or the node turned it away. */
  lemma NotRunLeavesNothing(t: Try)
    requires Settled(t) && Retry.NotRun(OutcomeOf(t))
    ensures Refused(t) || TurnedAway(t)
    ensures t.Linked? && Refused(t) ==> NothingSent(PeerOf(t), t.call)
  {
    if t.Linked? {
      Link.RunKeepsPeers(t.steps, t.atA);
      if Refused(t) || !TurnedAway(t) {
        Rpc.NotRunMeansNotSent(PeerOf(t), t.call);
      }
    }
  }

  /** `onNode` over real connections. Without a window for unknown outcomes, each attempt but the last made put no
      request on its connection's wire, then or later, or was turned away by the node: so at most one request of the
      whole call can have been run. */
  method CallNode(w: Retry.Windows, tries: seq<Tried>)
    returns (made: nat, ended: bool, reports: seq<bool>, ghost atMade: seq<nat>, ghost atFailed: seq<nat>)
    requires AllSettled(tries)
    ensures made <= |tries| && (ended ==> made > 0) && (!ended ==> made == |tries|)
    ensures forall i :: 0 <= i < (if ended then made - 1 else made) ==> Retry.IsResent(w, Attempts(tries), i)
    ensures ended ==> !Retry.IsResent(w, Attempts(tries), made - 1)
    ensures w.unknownWindow.None? ==> forall i :: 0 <= i < (if ended then made - 1 else made) ==>
              var t := tries[i].what;
              TurnedAway(t) || t.Unlinked? || (PeerOf(t).calls[t.call].RefusedCall? && NothingSent(PeerOf(t), t.call))
    ensures Retry.Alternate(reports) && (ended ==> |reports| % 2 == 0)
    ensures Retry.ReportedBy(Attempts(tries), reports, atMade, atFailed)
    ensures |atMade| == made && |atFailed| == if ended then made - 1 else made
  {
    var attempts := Attempts(tries);
    made, ended, reports, atMade, atFailed := Retry.OnNode(w, attempts);
    if w.unknownWindow.None? {
      forall i | 0 <= i < (if ended then made - 1 else made)
        ensures var t := tries[i].what;
                TurnedAway(t) || t.Unlinked? || (PeerOf(t).calls[t.call].RefusedCall? && NothingSent(PeerOf(t), t.call))
      {
        assert Retry.NotRun(attempts[i].outcome);
        NotRunLeavesNothing(tries[i].what);
      }
    }
  }

  // ---- A command's start ----

  /** How the server hears an attempt at a command's start end. */
  datatype Ending = Unsent | SentAway | Opened | Lost | Faulty

  function EndingAt(s: Exec.System, e: Exec.Event): Option<Ending> {
    match e
    case ServerCalls(sent) => if !sent && s.client.phase.ToStart? then Some(Unsent) else None
    case ServerHears =>
      if s.client.phase.Starting? && s.client.phase.id in s.replies then Some(Heard(s.replies[s.client.phase.id]))
      else None
    case ServerLosesReply => if s.client.phase.Starting? then Some(Lost) else None
    case _ => None
  }

  function Heard(reply: Exec.Reply): Ending {
    match reply
    case Started => Opened
    case Pausing => SentAway
    case _ => Faulty
  }

  /** An attempt at the start ends when it has no connection, when the server hears its answer and when that is lost;
      what the server does next says how it ended. */
  lemma AttemptEnds(cfg: Exec.Config, s: Exec.System, e: Exec.Event)
    ensures EndingAt(s, e).Some? <==>
              || (s.client.phase.ToStart? && e == Exec.ServerCalls(false))
              || (s.client.phase.Starting? && e.ServerLosesReply?)
              || (s.client.phase.Starting? && e.ServerHears? && s.client.phase.id in s.replies)
    ensures EndingAt(s, e).Some? ==>
              var ending, phase := EndingAt(s, e).value, Exec.Step(cfg, s, e).client.phase;
              && (ending.Unsent? <==> e.ServerCalls?)
              && (ending.Lost? <==> phase.ToAttach?)
              && (ending.Opened? <==> phase.Reading?)
              && (ending.SentAway? <==> phase.ToStart? && e.ServerHears?)
              && (ending.Faulty? <==> phase == Exec.Done(Exec.SpawnError))
  {
  }

  /** The attempts of a run that have ended, in order. */
  function Endings(cfg: Exec.Config, events: seq<Exec.Event>): seq<Ending> {
    if events == [] then []
    else
      var init, last := events[..|events| - 1], events[|events| - 1];
      var at := EndingAt(Exec.Run(cfg, Exec.FRESH, init), last);
      Endings(cfg, init) + if at.Some? then [at.value] else []
  }

  /** What `onNode` sees of an attempt that ends so. */
  predicate EndsAs(ending: Ending, o: Retry.Outcome) {
    match ending
    case Unsent => o == Retry.Unavailable(false) || o.OtherFailure?
    case SentAway => o == Retry.Rejection(true, true)
    case Opened => o.Answered?
    case Lost => o == Retry.Unavailable(true)
    case Faulty => o.OtherFailure? || (o.Rejection? && !(o.unavailable && o.retryable))
  }

  /** What `onNode` sees says how the attempt ended, but for a failure of another kind. */
  lemma EndsByOutcome(ending: Ending, o: Retry.Outcome)
    ensures EndsAs(ending, o) <==>
      match o
      case Answered => ending.Opened?
      case Unavailable(unknown) => if unknown then ending.Lost? else ending.Unsent?
      case Rejection(unavailable, retryable) => if unavailable && retryable then ending.SentAway? else ending.Faulty?
      case OtherFailure => ending.Unsent? || ending.Faulty?
  {
  }

  /** The attempts are those of the run. */
  predicate AreOf(tries: seq<Tried>, endings: seq<Ending>)
    requires AllSettled(tries)
  {
    |tries| == |endings| && forall i :: 0 <= i < |tries| ==> EndsAs(endings[i], OutcomeOf(tries[i].what))
  }

  /** The node never had the command, the server took nothing of it, and no request to start it is under way. */
  predicate Untouched(s: Exec.System) {
    && s.client == Exec.NEW_CALL.(phase := s.client.phase) && s.starts == 0 && s.history == []
    && s.exec.None? && !s.kept && s.streams == map[] && Refinement.NoStart(s.requests)
  }

  predicate OnlyNotRun(endings: seq<Ending>) {
    forall i :: 0 <= i < |endings| ==> endings[i].Unsent? || endings[i].SentAway?
  }

  /** Between attempts, in one, or over without an answer that tells of a start. */
  predicate StillToStart(s: Exec.System) {
    && s.client == Exec.NEW_CALL.(phase := s.client.phase)
    && match s.client.phase
       case ToStart => true
       case Starting(_) => true
       case Done(outcome) => outcome.GivenUp? || (outcome.SpawnError? && s.starts == 0)
       case _ => false
  }

  lemma StaysToStart(cfg: Exec.Config, s: Exec.System, e: Exec.Event)
    requires Refinement.PhaseOk(s) && StillToStart(s) && !e.ServerRestarts?
    requires EndingAt(s, e).Some? ==> EndingAt(s, e).value.Unsent? || EndingAt(s, e).value.SentAway?
    ensures StillToStart(Exec.Step(cfg, s, e))
  {
    hide Tail.Recorded, Reader.TakeLines, Tail.StartIndex, Tail.Attach, Tail.StepStream, Exec.TookAll;
    hide Reader.Slice, Refinement.AnswersFrom;
  }

  lemma {:induction false} RunStaysToStart(cfg: Exec.Config, events: seq<Exec.Event>)
    requires Theorems.AllLegal(cfg, events) && Exit.NoServerRestart(events) && OnlyNotRun(Endings(cfg, events))
    ensures StillToStart(Exec.Run(cfg, Exec.FRESH, events))
  {
    if events != [] {
      var init, last := events[..|events| - 1], events[|events| - 1];
      var s := Exec.Run(cfg, Exec.FRESH, init);
      var before, at := Endings(cfg, init), EndingAt(s, last);
      assert before <= Endings(cfg, events);
      assert forall i :: 0 <= i < |before| ==> before[i] == Endings(cfg, events)[i];
      assert at.Some? ==> Endings(cfg, events)[|before|] == at.value;
      Refinement.RunKeeps(cfg, init);
      Refinement.InvParts(cfg, s);
      hide Exec.Step, EndingAt, StillToStart, Refinement.Inv, Refinement.PhaseOk, Endings;
      RunStaysToStart(cfg, init);
      StaysToStart(cfg, s, last);
    }
  }

  lemma ToStartIsUntouched(cfg: Exec.Config, s: Exec.System)
    requires Refinement.NodeOk(cfg, s) && Refinement.PhaseOk(s) && StillToStart(s)
    ensures s.client.phase.ToStart? || s.client.phase == Exec.Done(Exec.SpawnError) ==> Untouched(s)
  {
  }

  predicate AllResent(w: Retry.Windows, tries: seq<Tried>)
    requires AllSettled(tries)
  {
    forall i :: 0 <= i < |tries| ==> Retry.IsResent(w, Attempts(tries), i)
  }

  /** An attempt that was not sent had no request, and one the node sent away was turned away. */
  predicate SentAsIssued(t: Try, ending: Ending)
    requires Settled(t)
  {
    if Refused(t) then ending.Unsent? else TurnedAway(t) && ending.SentAway?
  }

  lemma NotRunEndsSo(t: Try, ending: Ending)
    requires Settled(t) && Retry.NotRun(OutcomeOf(t)) && EndsAs(ending, OutcomeOf(t))
    ensures SentAsIssued(t, ending)
  {
    NotRunLeavesNothing(t);
    if Refused(t) {
      RefusedIsUnavailable(t);
    }
  }

  lemma ResentIsNotRun(w: Retry.Windows, tries: seq<Tried>, i: nat)
    requires AllSettled(tries) && w.unknownWindow.None? && AllResent(w, tries) && i < |tries|
    ensures Retry.NotRun(OutcomeOf(tries[i].what))
  {
    hide OutcomeOf, Settled;
    assert Retry.IsResent(w, Attempts(tries), i);
  }

  lemma AllSentAsIssued(w: Retry.Windows, tries: seq<Tried>, endings: seq<Ending>)
    requires AllSettled(tries) && w.unknownWindow.None? && AllResent(w, tries) && AreOf(tries, endings)
    ensures forall i :: 0 <= i < |tries| ==> SentAsIssued(tries[i].what, endings[i])
    ensures OnlyNotRun(endings)
  {
    forall i | 0 <= i < |tries|
      ensures SentAsIssued(tries[i].what, endings[i])
      ensures endings[i].Unsent? || endings[i].SentAway?
    {
      ResentIsNotRun(w, tries, i);
      assert EndsAs(endings[i], OutcomeOf(tries[i].what));
      hide OutcomeOf, Settled, EndsAs, AllResent;
      NotRunEndsSo(tries[i].what, endings[i]);
    }
  }

  /** In every run of a command, whatever the node and the network do in between: while each attempt at its start that
      ended is one that `onNode` resends, each was sent exactly if its call had a request, and the call has gone no
      further than its start. When the next attempt is to be made, or none is made any more, node and server are as
      before the first. */
  lemma ResentStartsLeaveNothing(cfg: Exec.Config, w: Retry.Windows, tries: seq<Tried>, events: seq<Exec.Event>)
    requires AllSettled(tries) && w.unknownWindow.None? && AllResent(w, tries)
    requires Theorems.AllLegal(cfg, events) && Exit.NoServerRestart(events) && AreOf(tries, Endings(cfg, events))
    ensures forall i :: 0 <= i < |tries| ==> SentAsIssued(tries[i].what, Endings(cfg, events)[i])
    ensures var s := Exec.Run(cfg, Exec.FRESH, events);
            && StillToStart(s)
            && (s.client.phase.ToStart? || s.client.phase == Exec.Done(Exec.SpawnError) ==> Untouched(s))
  {
    AllSentAsIssued(w, tries, Endings(cfg, events));
    hide *;
    RunStaysToStart(cfg, events);
    NeverTouched(cfg, events);
  }

  lemma NeverTouched(cfg: Exec.Config, events: seq<Exec.Event>)
    requires Theorems.AllLegal(cfg, events) && StillToStart(Exec.Run(cfg, Exec.FRESH, events))
    ensures var s := Exec.Run(cfg, Exec.FRESH, events);
            s.client.phase.ToStart? || s.client.phase == Exec.Done(Exec.SpawnError) ==> Untouched(s)
  {
    Refinement.RunKeeps(cfg, events);
    var s := Exec.Run(cfg, Exec.FRESH, events);
    hide *;
    Refinement.InvParts(cfg, s);
    ToStartIsUntouched(cfg, s);
  }

  lemma RefusedIsUnavailable(t: Try)
    requires Settled(t) && Refused(t)
    ensures OutcomeOf(t) == Retry.Unavailable(false)
  {
    if t.Linked? {
      Link.RunKeepsPeers(t.steps, t.atA);
      assert Rpc.ClassOk(PeerOf(t));
    }
  }
}
