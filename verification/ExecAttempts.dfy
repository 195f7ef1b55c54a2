/** What one attempt of a command's call comes to at the node, on the network and at the server, from any state. */
module ExecAttempts {
  import opened Bytes
  import opened ExecRecords
  import opened ExecTail
  import opened ExecReader
  import opened ExecSession

  /** The server sends its next request, the node serves it and the server hears the answer. */
  function Attempted(cfg: Config, s: System, pausing: bool): System {
    Step(cfg, Step(cfg, Step(cfg, s, ServerCalls(true)), NodeServes(s.nextId, pausing)), ServerHears)
  }

  /** The node fails it instead. */
  function Failed(cfg: Config, s: System): System {
    Step(cfg, Step(cfg, Step(cfg, s, ServerCalls(true)), NodeFails(s.nextId)), ServerHears)
  }

  /** The caller's schemas refuse the answer. */
  function Misheard(cfg: Config, s: System): System {
    var served := Step(cfg, Step(cfg, s, ServerCalls(true)), NodeServes(s.nextId, false));
    Step(cfg, Step(cfg, served, ReplyGarbled(s.nextId)), ServerHears)
  }

  predicate IsNext(s: System) {
    s.nextId !in s.requests && s.nextId !in s.replies && s.nextId !in s.streams
  }

  /** The node's command and streams are as they were. */
  predicate SameNode(s: System, s': System) {
    s'.exec == s.exec && s'.kept == s.kept && s'.streams == s.streams && s'.history == s.history
    && s'.starts == s.starts
  }

  /** A start that reaches a node starts the command, and its output is read from the start; one that reaches a node
      that has the command is a spawn error. */
  lemma StartComesTo(cfg: Config, s: System)
    requires s.client.phase.ToStart? && IsNext(s)
    ensures var s' := Attempted(cfg, s, false);
            && (!s.kept ==>
                  && s'.client == s.client.(phase := Reading(s.nextId, 0))
                  && s'.kept && s'.exec == Some(Exec(NO_RECORDS, None, true)) && s'.history == []
                  && s'.starts == s.starts + 1 && s'.streams == s.streams[s.nextId := Stream(0, Created, [])])
            && (s.kept ==> s'.client == s.client.(phase := Done(SpawnError)) && SameNode(s, s'))
  {
    hide OnRecord, OnFail, OnStreamStart, OnStreamStep, OnStreamStop, OnGraceEnd, OnRead;
  }

  /** One that reaches a node that pauses is made again. */
  lemma PausedStartIsMadeAgain(cfg: Config, s: System)
    requires s.client.phase.ToStart? && IsNext(s)
    ensures var s' := Attempted(cfg, s, true); s'.client == s.client && SameNode(s, s')
  {
    hide OnRecord, OnFail, OnStreamStart, OnStreamStep, OnStreamStop, OnGraceEnd, OnRead;
  }

  lemma FailedIs(cfg: Config, s: System)
    requires (s.client.phase.ToStart? || s.client.phase.ToAttach?) && IsNext(s)
    ensures var s' := Failed(cfg, s);
            s'.client == s.client.(phase := Done(if s.client.phase.ToStart? then SpawnError else OutcomeUnknown))
            && SameNode(s, s')
  {
    hide OnRecord, OnServe, OnStreamStart, OnStreamStep, OnStreamStop, OnGraceEnd, OnRead;
  }

  lemma ServesAnswer(s: System, id: StreamId)
    requires id in s.requests
    ensures id in OnServe(s, id, false).replies && OnServe(s, id, false).client == s.client
  {
  }

  lemma MisheardIs(cfg: Config, s: System)
    requires (s.client.phase.ToStart? || s.client.phase.ToAttach?) && IsNext(s)
    ensures Misheard(cfg, s).client
      == s.client.(phase := Done(if s.client.phase.ToStart? then SpawnError else OutcomeUnknown))
  {
    ServesAnswer(Step(cfg, s, ServerCalls(true)), s.nextId);
    hide OnRecord, OnServe, OnFail, OnStreamStart, OnStreamStep, OnStreamStop, OnGraceEnd, OnRead;
  }

  /** Where an attach at `taken` is answered to go on from. */
  function GoesOnFrom(t: Tail, taken: nat): nat {
    if taken < FirstKept(t) then t.end else taken
  }

  /** An attach finds the command's output from where it was taken to, or, below the kept tail, its end and the view
      then, which is given in place of the records between. */
  lemma AttachComesTo(cfg: Config, s: System)
    requires s.client.phase.ToAttach? && IsNext(s) && s.kept && s.exec.Some?
    requires !Attach(s.exec.value.tail, s.client.taken).NotARecordStart?
    ensures var s', t := Attempted(cfg, s, false), s.exec.value.tail;
            var shown := s.client.taken < FirstKept(t) && t.view.Some? && !s.client.callbackFailed;
            && s'.client == Client(GoesOnFrom(t, s.client.taken), [],
              if shown then s.client.given + [Replaced(t.view.value)] else s.client.given,
              s.client.callbackFailed, Reading(s.nextId, 0))
            && s'.streams == s.streams[s.nextId := Stream(GoesOnFrom(t, s.client.taken), Created, [])]
            && s'.exec == s.exec && s'.kept && s'.history == s.history && s'.starts == s.starts
  {
  }

  /** An attach to a command that the node does not have, or at an offset that it refuses, ends the call with its
      outcome unknown. */
  lemma AttachIsRefused(cfg: Config, s: System)
    requires s.client.phase.ToAttach? && IsNext(s)
    requires !s.kept || s.exec.None? || Attach(s.exec.value.tail, s.client.taken).NotARecordStart?
    ensures var s' := Attempted(cfg, s, false);
            s'.client == s.client.(phase := Done(OutcomeUnknown)) && SameNode(s, s')
  {
    hide OnRecord, OnFail, OnStreamStart, OnStreamStep, OnStreamStop, OnGraceEnd, OnRead, Attach;
  }

  /** A request that the node fails, or whose answer cannot be read, ends the call: a start as a spawn error, an attach
      with its outcome unknown. */
  lemma FailureEndsTheCall(cfg: Config, s: System)
    requires (s.client.phase.ToStart? || s.client.phase.ToAttach?) && IsNext(s)
    ensures var ended := s.client.(phase := Done(if s.client.phase.ToStart? then SpawnError else OutcomeUnknown));
            Failed(cfg, s).client == ended == Misheard(cfg, s).client && SameNode(s, Failed(cfg, s))
  {
    hide Failed, Misheard;
    FailedIs(cfg, s);
    MisheardIs(cfg, s);
  }

  /** A reply that does not come makes the call attach, whatever it asked for; no other call is touched. */
  lemma LostReplyAttaches(cfg: Config, s: System)
    ensures Step(cfg, s, ServerLosesReply).client
      == if s.client.phase.Starting? || s.client.phase.Attaching? then s.client.(phase := ToAttach) else s.client
    ensures SameNode(s, Step(cfg, s, ServerLosesReply))
  {
  }

  /** An attempt with no connection changes nothing, and the last of them may end the start as a spawn error. */
  lemma UnsentChangesNothing(cfg: Config, s: System)
    ensures Step(cfg, s, ServerCalls(false)) == s
    ensures Step(cfg, s, ServerDropsStart)
      == if s.client.phase.ToStart? then s.(client := s.client.(phase := Done(SpawnError))) else s
  {
  }

  /** A request or a reply that the network loses is not served or heard. */
  lemma LostIsLost(cfg: Config, s: System, id: StreamId, pausing: bool)
    ensures var lost := Step(cfg, s, RequestLost(id));
            Step(cfg, lost, NodeServes(id, pausing)) == lost == Step(cfg, lost, NodeFails(id))
    ensures var lost := Step(cfg, s, ReplyLost(id));
            s.client.phase in {Starting(id), Attaching(id)} ==> Step(cfg, lost, ServerHears) == lost
  {
  }

  /** A stream lost before the exit makes the call attach again at the last whole record taken, unless its callback
      threw, which ends it. */
  lemma LostStreamAttaches(cfg: Config, s: System)
    ensures Step(cfg, s, ServerLosesStream).client
      == if !s.client.phase.Reading? then s.client
         else s.client.(pending := [], phase := if s.client.callbackFailed then Done(GivenUp) else ToAttach)
  {
  }

  /** What a read of `n` bytes finds, with what was left over before. */
  function Found(cfg: Config, s: System, n: nat): Taken
    requires CanRead(s, n)
  {
    var got := s.client.phase.got;
    TakeLines(cfg.parse, s.client.pending + s.streams[s.client.phase.id].sent[got..got + n])
  }

  predicate CanRead(s: System, n: nat) {
    && s.client.phase.Reading? && s.client.phase.id in s.streams
    && s.client.phase.got + n <= |s.streams[s.client.phase.id].sent|
  }

  /** A read takes the whole records there are, and gives them unless the callback threw. */
  lemma ReadTakes(cfg: Config, s: System, n: nat)
    requires CanRead(s, n)
    ensures var c, c', taken := s.client, Step(cfg, s, ServerReads(n)).client, Found(cfg, s, n);
            && c'.taken == c.taken + taken.bytes && c'.pending == taken.rest && c'.callbackFailed == c.callbackFailed
            && |c'.given| == |c.given| + (if c.callbackFailed then 0 else |taken.values|)
            && c'.given[..|c.given|] == c.given
            && forall i :: |c.given| <= i < |c'.given| ==> c'.given[i] == Took(taken.values[i - |c.given|])
  {
    hide TakeLines;
  }

  /** It ends the call at the exit, which it reports unless the callback threw, or at a line that is no record. */
  lemma ReadEnds(cfg: Config, s: System, n: nat)
    requires CanRead(s, n)
    ensures var c, phase, stop := s.client, Step(cfg, s, ServerReads(n)).client.phase, Found(cfg, s, n).stop;
            && (stop.More? <==> phase == Reading(c.phase.id, c.phase.got + n))
            && (stop.Malformed? <==> phase == Done(MalformedOutput))
            && (stop.AtExit? && c.callbackFailed <==> phase == Done(GivenUp))
            && (forall exit :: stop == AtExit(exit) && !c.callbackFailed <==> phase == Done(ExitSeen(exit)))
  {
    hide TakeLines;
  }

  /** A stream that ends leaves its command to the grace period, unless another took over; the period's end forgets a
      command that none serves; and a node that restarts has no command and no open stream. */
  lemma StreamsEnd(cfg: Config, s: System, id: StreamId)
    requires s.exec.Some? && id in s.streams
    ensures var s', e := Step(cfg, s, StreamStops(id)), s.exec.value;
            && s'.streams == s.streams[id := s.streams[id].(phase := Ended)] && s'.kept == s.kept
            && s'.exec == Some(if e.consumer == Some(id) then Exec(e.tail, None, s.kept || e.graceArmed) else e)
    ensures var s', e := Step(cfg, s, GraceEnds), s.exec.value;
            && s'.kept == (s.kept && (e.graceArmed ==> e.consumer.Some?))
            && s'.exec == Some(e.(graceArmed := false)) && s'.streams == s.streams
    ensures var s' := Step(cfg, s, NodeRestarts);
            && s'.exec.None? && !s'.kept && s'.streams.Keys == s.streams.Keys
            && forall x :: x in s'.streams ==> s'.streams[x].phase.Ended? && s'.streams[x].sent == s.streams[x].sent
  {
  }

  /** A call that is over stays so until another server process takes the command up. */
  lemma OverStaysOver(cfg: Config, s: System, e: Event)
    requires s.client.phase.Done? && !e.ServerRestarts?
    ensures Step(cfg, s, e).client == s.client
  {
    hide TakeLines, StepStream, Recorded, StartIndex, Attach, Hears, Reads;
  }

  /** It attaches from the start of the output; one that gives up is over; and a callback throws only while it reads. */
  lemma ServerComesTo(cfg: Config, s: System)
    ensures Step(cfg, s, ServerRestarts).client == Client(0, [], [], false, ToAttach)
    ensures Step(cfg, s, ServerGivesUp).client.phase == if s.client.phase.Done? then s.client.phase else Done(GivenUp)
    ensures Step(cfg, s, CallbackThrows).client
      == if s.client.phase.Reading? then s.client.(callbackFailed := true) else s.client
  {
  }
}
