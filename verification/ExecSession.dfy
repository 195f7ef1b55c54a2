/** A shell command over links that drop (`runExec` and the node's `pi.*`): the node, the requests, replies and
    stream bytes on the network, and the server that starts the command, reads its output and attaches again. */
module ExecSession {
  import opened Bytes
  import opened ExecRecords
  import opened ExecTail
  import opened ExecReader

  datatype Config = Config(tailBytes: nat, parse: Parser)

  datatype Request = Start | AttachFrom(offset: nat)

  /** `Rejected`: an error that no retry is to cure. `Garbled`: an answer, of whatever meaning, that the caller's
      schemas refuse. */
  datatype Reply =
    | Started
    | Pausing
    | AlreadyStarted
    | Attached(offset: nat, view: Option<View>)
    | NotFound
    | Refused
    | Rejected
    | Garbled

  /** A stream the node opened: where it starts, how far its source is and the bytes it has sent. */
  datatype StreamPhase = Created | Serving(next: int) | Ended
  datatype Stream = Stream(offset: nat, phase: StreamPhase, sent: seq<Byte>)

  datatype Outcome = ExitSeen(exit: Exit) | SpawnError | OutcomeUnknown | MalformedOutput | GivenUp
  datatype Phase =
    | ToStart
    | Starting(id: StreamId)
    | ToAttach
    | Attaching(id: StreamId)
    | Reading(id: StreamId, got: nat)
    | Done(outcome: Outcome)

  /** What the server took, in order: a record, or the view an attach answered instead of records. */
  datatype Given = Took(value: Value) | Replaced(view: View)

  /** `taken`: the bytes of the records taken. `given` stops growing once `onUpdate` threw (`callbackFailed`). */
  datatype Client = Client(taken: nat, pending: seq<Byte>, given: seq<Given>, callbackFailed: bool, phase: Phase)

  const NEW_CALL := Client(0, [], [], false, ToStart)

  /** `history` is every record of the command, `exec` the node's object for it and `kept` whether the node
      still has it. Each attempt of a call carries the ID of the stream it would open. */
  datatype System = System(
    history: seq<Record>, starts: nat, exec: Option<Exec>, kept: bool, streams: map<StreamId, Stream>,
    requests: map<StreamId, Request>, replies: map<StreamId, Reply>, nextId: StreamId, client: Client)

  /** A fresh `execId`. */
  const FRESH := System([], 0, None, false, map[], map[], map[], 0, NEW_CALL)

  datatype Event =
    // The node
    | CommandRecords(record: Record)
    | NodeServes(id: StreamId, pausing: bool)
    | NodeFails(id: StreamId)
    | StreamStarts(id: StreamId)
    | StreamSteps(id: StreamId)
    | StreamStops(id: StreamId)
    | GraceEnds
    | NodeRestarts
    // The network
    | RequestLost(id: StreamId)
    | ReplyLost(id: StreamId)
    | ReplyGarbled(id: StreamId)
    // The server
    | ServerCalls(sent: bool)
    | ServerDropsStart
    | ServerHears
    | ServerLosesReply
    | ServerReads(n: nat)
    | ServerLosesStream
    | CallbackThrows
    | ServerGivesUp
    | ServerRestarts

  // ---- The node ----

  function OnRecord(cfg: Config, s: System, r: Record): System {
    if s.exec.Some? && !s.exec.value.tail.exited then
      s.(history := s.history + [r], exec := Some(s.exec.value.(tail := Recorded(s.exec.value.tail, r, cfg.tailBytes))))
    else s
  }

  function OnServe(s: System, id: StreamId, pausing: bool): System {
    if id !in s.requests then s
    else
      var served := s.(requests := s.requests - {id});
      match s.requests[id]
      case Start =>
        if pausing then served.(replies := s.replies[id := Pausing])
        else if s.kept then served.(replies := s.replies[id := AlreadyStarted])
        else served.(
          history := [], starts := s.starts + 1, exec := Some(Exec(NO_RECORDS, None, true)), kept := true,
          streams := s.streams[id := Stream(0, Created, [])], replies := s.replies[id := Started])
      case AttachFrom(offset) =>
        if !s.kept || s.exec.None? then served.(replies := s.replies[id := NotFound])
        else
          match Attach(s.exec.value.tail, offset)
          case NotARecordStart => served.(replies := s.replies[id := Refused])
          case Resume(from) => served.(
            streams := s.streams[id := Stream(from, Created, [])], replies := s.replies[id := Attached(from, None)])
          case ShowView(from, view) => served.(
            streams := s.streams[id := Stream(from, Created, [])], replies := s.replies[id := Attached(from, view)])
  }

  /** The node does not run the request: it stopped, is busy, or finds the request or its sender in the wrong. */
  function OnFail(s: System, id: StreamId): System {
    if id in s.requests then s.(requests := s.requests - {id}, replies := s.replies[id := Rejected]) else s
  }

  function OnStreamStart(s: System, id: StreamId): System {
    if s.exec.Some? && id in s.streams && s.streams[id].phase.Created? then
      var next := StartIndex(s.exec.value.tail, s.streams[id].offset);
      s.(exec := Some(s.exec.value.(consumer := Some(id), graceArmed := false)),
         streams := s.streams[id := s.streams[id].(phase := Serving(next))])
    else s
  }

  function EndStream(s: System, id: StreamId): System
    requires id in s.streams
  {
    s.(exec := if s.exec.Some? then Some(Released(s.exec.value, id, s.kept)) else None,
       streams := s.streams[id := s.streams[id].(phase := Ended)])
  }

  function OnStreamStep(s: System, id: StreamId): System {
    if s.exec.Some? && id in s.streams && s.streams[id].phase.Serving? then
      var stream := s.streams[id];
      match StepStream(s.exec.value, id, stream.phase.next)
      case Yield(record) =>
        s.(streams := s.streams[id := Stream(stream.offset, Serving(stream.phase.next + 1), stream.sent
          + (record.line + [NEWLINE]))])
      case Wait => s
      case _ => EndStream(s, id)
    else s
  }

  /** Cancelled, its connection closed or its chunk unsendable. */
  function OnStreamStop(s: System, id: StreamId): System {
    if id in s.streams then EndStream(s, id) else s
  }

  function OnGraceEnd(s: System): System {
    if s.exec.Some? && s.exec.value.graceArmed then
      s.(exec := Some(s.exec.value.(graceArmed := false)), kept := s.kept && s.exec.value.consumer.Some?)
    else s
  }

  function OnNodeRestart(s: System): System {
    s.(exec := None, kept := false, streams := map id | id in s.streams :: s.streams[id].(phase := Ended))
  }

  // ---- The server ----

  /** An attempt: not sent (no open connection), or sent under a new stream ID. */
  function OnCall(s: System, sent: bool): System {
    if !sent then s
    else
      match s.client.phase
      case ToStart => s.(
        nextId := s.nextId + 1, requests := s.requests[s.nextId := Start],
        client := s.client.(phase := Starting(s.nextId)))
      case ToAttach => s.(
        nextId := s.nextId + 1, requests := s.requests[s.nextId := AttachFrom(s.client.taken)],
        client := s.client.(phase := Attaching(s.nextId)))
      case _ => s
  }

  /** The last attempt at the start was not sent, or was turned away, and is not made again. */
  function OnDropStart(s: System): System {
    if s.client.phase.ToStart? then s.(client := s.client.(phase := Done(SpawnError))) else s
  }

  function Hears(client: Client, id: StreamId, reply: Reply): Client {
    if client.phase.Starting? then
      match reply
      case Started => client.(phase := Reading(id, 0))
      case Pausing => client.(phase := ToStart)
      case _ => client.(phase := Done(SpawnError))
    else
      match reply
      case Attached(offset, view) => client.(
        taken := offset, pending := [], phase := Reading(id, 0),
        given := if view.Some? && !client.callbackFailed then client.given + [Replaced(view.value)] else client.given)
      case _ => client.(phase := Done(OutcomeUnknown))
  }

  function OnHear(s: System): System {
    match s.client.phase
    case Starting(id) => if id in s.replies then s.(client := Hears(s.client, id, s.replies[id])) else s
    case Attaching(id) => if id in s.replies then s.(client := Hears(s.client, id, s.replies[id])) else s
    case _ => s
  }

  /** The outcome is unknown (a timeout, the connection closed): the command is picked up by attaching. */
  function OnReplyUnknown(s: System): System {
    if s.client.phase.Starting? || s.client.phase.Attaching? then s.(client := s.client.(phase := ToAttach)) else s
  }

  function TookAll(values: seq<Value>): (given: seq<Given>)
    ensures |given| == |values| && forall i :: 0 <= i < |values| ==> given[i] == Took(values[i])
  {
    seq(|values|, i requires 0 <= i < |values| => Took(values[i]))
  }

  function Reads(cfg: Config, client: Client, chunk: seq<Byte>): Client
    requires client.phase.Reading?
  {
    var taken := TakeLines(cfg.parse, client.pending + chunk);
    Client(
      client.taken + taken.bytes, taken.rest,
      if client.callbackFailed then client.given else client.given + TookAll(taken.values),
      client.callbackFailed,
      match taken.stop
      case More => Reading(client.phase.id, client.phase.got + |chunk|)
      case Malformed => Done(MalformedOutput)
      case AtExit(exit) => if client.callbackFailed then Done(GivenUp) else Done(ExitSeen(exit)))
  }

  function ReadChunk(cfg: Config, s: System, chunk: seq<Byte>): System
    requires s.client.phase.Reading?
  {
    s.(client := Reads(cfg, s.client, chunk))
  }

  function OnRead(cfg: Config, s: System, n: nat): System {
    if s.client.phase.Reading? && s.client.phase.id in s.streams
      && s.client.phase.got + n <= |s.streams[s.client.phase.id].sent| then
      ReadChunk(cfg, s, s.streams[s.client.phase.id].sent[s.client.phase.got..s.client.phase.got + n])
    else s
  }

  /** The stream stopped before an exit (dropped, failed, ended): the bytes of an unfinished line are lost. */
  function OnStreamLost(s: System): System {
    if s.client.phase.Reading? then
      s.(client := s.client.(pending := [], phase := if s.client.callbackFailed then Done(GivenUp) else ToAttach))
    else s
  }

  function Step(cfg: Config, s: System, e: Event): System {
    match e
    case CommandRecords(record) => OnRecord(cfg, s, record)
    case NodeServes(id, pausing) => OnServe(s, id, pausing)
    case NodeFails(id) => OnFail(s, id)
    case StreamStarts(id) => OnStreamStart(s, id)
    case StreamSteps(id) => OnStreamStep(s, id)
    case StreamStops(id) => OnStreamStop(s, id)
    case GraceEnds => OnGraceEnd(s)
    case NodeRestarts => OnNodeRestart(s)
    case RequestLost(id) => s.(requests := s.requests - {id})
    case ReplyLost(id) => s.(replies := s.replies - {id})
    case ReplyGarbled(id) => if id in s.replies then s.(replies := s.replies[id := Garbled]) else s
    case ServerCalls(sent) => OnCall(s, sent)
    case ServerDropsStart => OnDropStart(s)
    case ServerHears => OnHear(s)
    case ServerLosesReply => OnReplyUnknown(s)
    case ServerReads(n) => OnRead(cfg, s, n)
    case ServerLosesStream => OnStreamLost(s)
    case CallbackThrows => if s.client.phase.Reading? then s.(client := s.client.(callbackFailed := true)) else s
    case ServerGivesUp => if s.client.phase.Done? then s else s.(client := s.client.(phase := Done(GivenUp)))
    // The next server process picks the command up under the same `execId` (`CommandCall.attach`).
    case ServerRestarts => s.(client := NEW_CALL.(phase := ToAttach))
  }

  /** The command's records read back as they were printed; nothing else is asked of the events. */
  ghost predicate Legal(cfg: Config, e: Event) {
    e.CommandRecords? ==> Printed(cfg.parse, e.record)
  }

  function Run(cfg: Config, s: System, events: seq<Event>): System {
    if events == [] then s else Step(cfg, Run(cfg, s, events[..|events| - 1]), events[|events| - 1])
  }
}
