# The server–node link, and what the server keeps in order

This project models the parts of the repository that must stay right while connections drop, processes restart and
work interleaves, and proves what they keep. `dafny verify dfyconfig.toml` checks all of it.

The link stack is modelled in layers.

- **Bytes and frames.** `Utf8` is the encoding (section 3 of RFC 3629) as far as framing needs it; `NdjsonSocket` the
  newline-framed socket over a stream that takes any part of a write and cuts its bytes anywhere; `WebSocketLink` the
  sending side over a WebSocket.
- **Calls.** `RpcPeer` is one JSON-RPC peer (sections 4 and 5 of the JSON-RPC 2.0 Specification), `RpcLink` two of them over
  an ordered link that may close at any step, `NodeRetry` the server's rule for resending a call, and `NodeCalls` that rule
  over real connections and a command's start.
- **Resumable commands.** `ExecRecords`, `ExecTail`, `ExecReader`: the node's kept tail of a command's output, its streams,
  and the server's reader. `ExecSession` puts node, network and server together; `ExecAttempts` says what one attempt comes
  to, `ExecRefinement` is its invariant, `ExecTheorems` what every run gives the caller, `ExecStart` what a failed start
  leaves, and `ExecExit` when a run can still give the command's exit.
- **Chunked writes.** `ChunkedWrite` is the sender and the node's receiver, `ChunkedWriteRuns` a network that delivers any
  chunk sent so far any number of times, in any order, to a node that may restart.
- **Connections.** `NodeConnection` is the node's dial, redial, update and refusal; `ServerPeer` the server's handshake;
  `NodeHub` which connection is each node's link and what browsers are told; `NodeStreams` the streams of one connection.

Beside it stand the storage scans (`BranchScan`, `MessagePages`), the supervision of services (`ServiceRunners`), work done one at a
time under a key (`KeyedChains`), reviews edited as detached copies (`CodeReviews`), a log of bounded files (`TelemetryLog`) and
a parser with its printer (`Numstat`).

Each module follows one pattern. A record type is the state; a function per operation computes the next state, with the
source's branches and constants; a class with the source's fields has a method per operation, proved to change its fields as
that function says. The properties are lemmas about the functions, over every run of them: a run is a sequence of events, in
any order the source allows, and each stretch of source between two awaits is one event. Time is events too: a timer fires
when a run says so. JSON values are records; only their bytes' lengths matter where bytes are counted.

Six properties one would expect do not hold of the code. Each is refuted by a run or an input, and its exact condition
is proved over all of them.

- *A command's exit is always delivered.* An attach below the kept tail is answered with the end of the records, which lies past
  the exit record once the command exited; that stream ends without it, and the call ends with its outcome unknown
  (`ExecExit.TheBoundaryIsReached`). A call that attaches to a command that exited can still report the exit exactly when what it
  has left to take begins in the kept tail (`ExecExit.ExitIsSeenIffWithinTheTail`).
- *A command whose start is reported as failed was not started.* An answer that the schemas refuse is a failure whose outcome
  does not count as unknown, so the call ends as never spawned, whatever the answer meant (`ExecStart.StartedIsReportedAsNot`).
  It was not started exactly when the node's answer that it started was not so garbled
  (`ExecStart.SpawnErrorIsNoStartIffNotGarbled`).
- *A service has one instance at a time*, as the head of `services.ts` says. An instance that reports its failure before its
  `service.start` has returned is never stopped, for its end finds a placeholder instead of its start's promise; the retry
  starts another beside it (`ServiceRunners.EarlyFailureLeavesTwo`). An earlier instance is over exactly otherwise
  (`ServiceRunners.OneAtATime`).
- *The last published `connected` flag says whether a node has an open link.* A node published between its link's close and that
  close's `onclose`, whose link is then replaced, stays published as not connected (`NodeHub.LateCloseMisleads`). The flag is right
  exactly when the node's last publication and the present both, or neither, fall between a close and its `onclose`
  (`NodeHub.ObserversAgree`).
- *A late reply never closes a connection.* It does once a 1025th call was given up on with 1024 unanswered
  (`RpcLink.OneTooManyCloses`). On an open connection late replies are harmless exactly when that never was
  (`RpcLink.LateRepliesAreHarmlessIffCalm`).
- *Following a page's previous cursor misses no row.* The empty page after all rows counts a row stored at its position as
  previous and gives a cursor before it. Nothing is missed from there exactly when no row is stored at the position
  (`MessagePages.EmptyPageSkips`, `MessagePages.EmptyPageLeadsBack`).

A hello that announces a build is answered after a wait, and whether its node is served is asked before it, not again after: the
model keeps that order, so its theorems say the node was served *when asked*.

## Model

| member | source | states |
|---|---|---|
| `Utf8.DecodeEncode` | packages/node-protocol/src/local-socket.ts:68-69 | decoding gives back every text that was encoded |
| `Utf8.EncodeDecode` | packages/node-protocol/src/local-socket.ts:68-69 | bytes that decode are the encoding of what they decode to, so no other bytes are taken for a text |
| `Utf8.NewlineIsLineFeed` | packages/node-protocol/src/local-socket.ts:108-115 | the newline byte occurs in an encoding just when the text has a line feed |
| `NdjsonSocket.ChunkingIsIrrelevant` | packages/node-protocol/src/local-socket.ts:122-142 | what is delivered and whether the socket closes depend on the bytes alone, not on how they were cut |
| `NdjsonSocket.PartialIsBounded` | packages/node-protocol/src/local-socket.ts:122-133 | the bytes of an unfinished frame never exceed the cap |
| `NdjsonSocket.AllDeliveredIffFit` | packages/node-protocol/src/local-socket.ts:122-142 | every message is delivered and the socket stays open exactly when each fits the receiver's cap and its owner does not close it |
| `NdjsonSocket.NothingInvented` | packages/node-protocol/src/local-socket.ts:122-142 | from any first bytes of the messages sent, only first messages are delivered, in order, none twice |
| `NdjsonSocket.DeliversPrefix` | packages/node-protocol/src/local-socket.ts:122-142 | cut anywhere, exactly the messages whose newline arrived are delivered |
| `NdjsonSocket.EndToEnd` | packages/node-protocol/src/local-socket.ts:87-142 | from `send` to `onmessage` over any partial writes and cuts: a prefix, and all of it once the queue drained and its bytes arrived |
| `NdjsonSocket.Socket.Flush` | packages/node-protocol/src/local-socket.ts:87-98 | bytes written and queued stay everything accepted, in order; bytes stay queued only while the stream owes a drain; the socket closes exactly when a write fails |
| `NdjsonSocket.Socket.Send` | packages/node-protocol/src/local-socket.ts:108-117 | accepts a frame within the cap and without a newline, after those before it, or says why not |
| `NdjsonSocket.Socket.Receive` | packages/node-protocol/src/local-socket.ts:122-142 | reassembles frames from parts as if each byte came alone |
| `NdjsonSocket.Socket.Close` | packages/node-protocol/src/local-socket.ts:78-86 | closes once, drops what was queued and notifies once |
| `WebSocketLink.NothingLostOrStuck` | packages/node-protocol/src/websocket-link.ts:69-108 | frames handed over and queued are all those accepted, in order, until the close; at most one is held unsent; one waits only behind a held one or an owed drain |
| `WebSocketLink.DrainGoesOn` | packages/node-protocol/src/websocket-link.ts:85-95 | a drain that finds nothing held hands on at least one waiting frame, or the link closes |
| `WebSocketLink.FlushHands` | packages/node-protocol/src/websocket-link.ts:85-95 | a flush hands over the frames written out and the one that is held, which it stops behind; a dropped frame closes the link |
| `WebSocketLink.SendGoesOut` | packages/node-protocol/src/websocket-link.ts:101-107 | in every run a frame sent alone goes out, is held or closes the link; behind others or a held one it waits |
| `WebSocketLink.DrainHandsAll` | packages/node-protocol/src/websocket-link.ts:85-108 | once the WebSocket wrote out what it held, a drain hands over all that waits |
| `WebSocketLink.OutboundLink.FlushQueue` | packages/node-protocol/src/websocket-link.ts:85-95 | hands frames over while nothing is held; a dropped frame closes the link |
| `WebSocketLink.OutboundLink.SendFrame` | packages/node-protocol/src/websocket-link.ts:101-107 | queues a frame behind the others, flushing when it is the only one |
| `RpcPeer.DoKeeps` | packages/node-protocol/src/rpc.ts:110-172 | every act of a peer keeps each issued call pending or settled, never both, and its ID set within bounds |
| `RpcPeer.ReceiveKeeps` | packages/node-protocol/src/rpc.ts:173-233 | so does every frame it receives |
| `RpcPeer.SettledOnce` | packages/node-protocol/src/rpc.ts:138-233 | a settled call keeps its outcome whatever the peer does or receives next |
| `RpcPeer.ReplySettlesItsCall` | packages/node-protocol/src/rpc.ts:216-232 | a reply settles the call with its ID and no other: a good result resolves it, an error rejects it with that code, a malformed answer rejects it as invalid; it closes the connection exactly when it is malformed for that call or for no call |
| `RpcPeer.ActSettles` | packages/node-protocol/src/rpc.ts:110-166 | what a peer does itself settles only a call given up on, one whose frame was over the cap or could not be sent, and, exactly when it closes the connection, each one pending |
| `RpcPeer.FrameSettles` | packages/node-protocol/src/rpc.ts:173-232 | a frame that closes the connection settles every other pending call as closed; requests and notifications never do |
| `RpcPeer.NotRunMeansNotSent` | packages/node-protocol/src/rpc.ts:138-166 | a call rejected as unavailable with its outcome not unknown has no ID, and every request handed to the socket was so once, for exactly one other call |
| `RpcPeer.CallSendsAtMostItsRequest` | packages/node-protocol/src/rpc.ts:138-166 | refusing a call sends nothing; issuing one hands over its one request under a new ID, or none |
| `RpcPeer.Connection.FailAll` | packages/node-protocol/src/rpc.ts:110-117 | the first close settles every pending call as unknown, a second changes nothing |
| `RpcPeer.Connection.CallRemote` | packages/node-protocol/src/rpc.ts:138-166 | refuses, issues or fails a call in the source's order of checks |
| `RpcPeer.Connection.GiveUp` | packages/node-protocol/src/rpc.ts:144-153 | a timeout or abort settles the call as unknown and remembers its ID, the oldest of 1025 leaving |
| `RpcPeer.Connection.ReceiveFrame` | packages/node-protocol/src/rpc.ts:173-233 | runs, answers, settles or closes by the frame's kind |
| `RpcPeer.Connection.HandlerFinished` | packages/node-protocol/src/rpc.ts:187-201 | a handler frees its place and replies once, if the connection is open |
| `RpcLink.RunKeepsPeers` | packages/node-protocol/src/rpc.ts:101-235 | over every run of two peers on one link both keep their books |
| `RpcLink.OutcomesAreFinal` | packages/node-protocol/src/rpc.ts:110-166 | in any run and on either side a settled call keeps its outcome, and none is unsettled once the connection closed |
| `RpcLink.SettlesAsAnswered` | packages/node-protocol/src/rpc.ts:187-232 | over every run, a call resolves only if the other side's handler of its request finished with a result, and is rejected with a code only if that handler finished with it or the request was turned away with it |
| `RpcLink.LateRepliesNeverClose` | packages/node-protocol/src/rpc.ts:144-150 | while at most 1024 given-up calls are unanswered, a frame closes the peer that hears it only as a pending call's malformed answer |
| `RpcLink.LateRepliesAreHarmlessIffCalm` | packages/node-protocol/src/rpc.ts:144-150 | over every run that leaves the connection open, no reply to a given-up, unanswered call would close it exactly when there were never more than 1024 such calls |
| `RpcLink.CalmIsRemembered` | packages/node-protocol/src/rpc.ts:144-149 | there never were more than 1024 exactly when each is still among the IDs kept for late replies |
| `RpcLink.OneTooManyCloses` | packages/node-protocol/src/rpc.ts:216-219 | a run of 1025 calls given up on, whose first is then answered well, is open until that answer arrives and closed by it |
| `NodeRetry.OnNode` | packages/backend/src/nodes/node-dir-client.ts:106-130 | exactly the attempts that may be resent are, none that may have run without a window for unknown outcomes; waiting is reported once when it begins and once when it ends: after each resent attempt the last report is that it waits, and an attempt made on a connected node was reported as no longer waiting |
| `NodeRetry.WaitsForTheNode` | packages/backend/src/nodes/node-dir-client.ts:50-55 | a failure is resent exactly when the caller waits, has not given up and has time left, and the node is not there, is unavailable for now, or the outcome is unknown within its window |
| `NodeRetry.UnknownIsResentWithin` | packages/backend/src/nodes/node-dir-client.ts:118-122 | with one, an unknown outcome is resent only within that window of the first |
| `NodeCalls.Classified` | packages/backend/src/nodes/node-dir-client.ts:50-105 | which ends of a call mean that it was never handed over, that it may have run, that the node turned it away, or that it was answered |
| `NodeCalls.CallNode` | packages/backend/src/nodes/node-dir-client.ts:50-130 | over connections in any run: without a window for unknown outcomes, every attempt made but the last put no request on its connection's wire or was turned away by the node; and waiting is reported as `OnNode` says |
| `NodeCalls.ResentStartsLeaveNothing` | packages/backend/src/nodes/node-dir-client.ts:286-297 | in every run, with any events of node and network between: while each attempt at the start that ended is one that is resent, each was sent exactly if its call had a request, and when the next is to be made node and server are as before the first |
| `ExecRecords.FoldIsWindow` | packages/node/src/pi-exec.ts:164-171 | the updates applied one after the other show a window of the command's output: what was appended goes at its end, a slide first drops from its start, a replacement sets it, and the metadata is the last update's |
| `ExecTail.RecordKeepsFaithful` | packages/node/src/pi-exec.ts:67-78 | recording keeps the last records at contiguous offsets, the end and the view of the whole history |
| `ExecTail.TailIsBounded` | packages/node/src/pi-exec.ts:74-75 | the kept bytes exceed the bound only for a single record, the latest is kept, none that fits is dropped |
| `ExecTail.AttachAtBoundary` | packages/node/src/pi-exec.ts:130-139 | an attach where a record starts is never refused; below the tail there is a view to give |
| `ExecTail.RefusedIffNoBoundary` | packages/node/src/pi-exec.ts:135-138 | not below the tail, an offset is refused exactly when no record starts there and none will next |
| `ExecTail.StreamGives` | packages/node/src/pi-exec.ts:94-103 | the consumer is given the record it is at while that is kept and fails when it is not; past the last one it completes exactly when that is the exit; an overtaken stream fails |
| `ExecTail.ServedToTheEnd` | packages/node/src/pi-exec.ts:82-110 | after the exit, a stream that is not overtaken sends exactly the remaining records, the exit last |
| `ExecTail.ExitIsDelivered` | packages/node/src/pi-exec.ts:130-139 | an attach after the exit is sent anything, and then all the rest, exactly when its offset is not below the tail |
| `ExecTail.ShellCommand.Record` | packages/node/src/pi-exec.ts:67-78 | the tail after one more record, still faithful to the history, and the view now the window of the output that the updates leave |
| `ExecTail.ShellCommand.TrimLines` | packages/node/src/pi-exec.ts:75 | drops records while more than one is kept and they exceed the bound |
| `ExecTail.ShellCommand.AttachAt` | packages/node/src/pi-exec.ts:130-139 | the answer to an attach, changing nothing; a view that it gives is that window |
| `ExecTail.ShellCommand.StartStream` | packages/node/src/pi-exec.ts:82-93 | the stream becomes the only consumer, from the record at its offset, and the grace timer is off |
| `ExecTail.ShellCommand.Step` | packages/node/src/pi-exec.ts:94-103 | a stream's next step: a record, the end, overtaken, fallen behind or waiting |
| `ExecTail.ShellCommand.Release` | packages/node/src/pi-exec.ts:104-109 | the consumer that stops arms the grace timer, one overtaken does not |
| `ExecReader.TakesRecords` | packages/backend/src/nodes/node-dir-client.ts:362-385 | from bytes of the history, however cut, the reader takes whole records in order and keeps the rest |
| `ExecReader.RecordReader.Feed` | packages/backend/src/nodes/node-dir-client.ts:366-379 | one chunk adds exactly the records its newlines complete, up to an exit or a malformed line |
| `ExecReader.LineDecides` | packages/backend/src/nodes/node-dir-client.ts:366-379 | the line up to the first newline decides: one that is no record ends the reading as malformed, an exit ends it, any other record is taken |
| `ExecRefinement.StepKeeps` | packages/backend/src/nodes/node-dir-client.ts:286-336 | every event of node, network or server keeps the invariant that ties what was given to the node's history |
| `ExecAttempts.StartComesTo` | packages/backend/src/nodes/node-dir-client.ts:286-298 | a start that reaches a node without the command starts it once and is read from the start; at a node that has it, it is a spawn error and changes nothing |
| `ExecAttempts.AttachComesTo` | packages/backend/src/nodes/node-dir-client.ts:299-332 | an attach goes on from where the output was taken to, or, below the kept tail, from its end with the view then in place of the records between |
| `ExecAttempts.AttachIsRefused` | packages/backend/src/nodes/node-dir-client.ts:317-331 | an attach to a command that is gone, or at an offset that is refused, ends the call with its outcome unknown |
| `ExecAttempts.FailureEndsTheCall` | packages/backend/src/nodes/node-dir-client.ts:289-331 | a request that fails or whose answer cannot be read ends a start as a spawn error and an attach with its outcome unknown |
| `ExecAttempts.OverStaysOver` | packages/backend/src/nodes/node-dir-client.ts:286-336 | a call that is over stays so until another server process takes the command up |
| `ExecTheorems.ResumeRefinement` | packages/backend/src/nodes/node-dir-client.ts:287-332 | in every run the bytes taken are those of the first records of the one history, given in order, and what is shown is the window of the output that their updates leave, its text and metadata |
| `ExecTheorems.StartedAtMostOnce` | packages/backend/src/nodes/node-dir-client.ts:289-298 | whatever became of each attempt, and after the node forgot it, the node starts the command at most once |
| `ExecStart.SpawnErrorIsNoStartIffNotGarbled` | packages/backend/src/nodes/node-dir-client.ts:289-298 | in every run a start reported as a spawn error started nothing exactly when the node's answer that it started was not garbled, and nothing starts the command afterwards |
| `ExecStart.StartedIsReportedAsNot` | packages/node-protocol/src/rpc.ts:219-232 | a run from a fresh ID that reports a started command, which the node keeps, as a spawn error |
| `ExecTheorems.NeverRefused` | packages/node/src/pi-exec.ts:135-137 | the refusal of an offset that starts no record is unreachable for this client |
| `ExecTheorems.ResultIsTheExit` | packages/backend/src/nodes/node-dir-client.ts:307-314 | a result is the command's own exit, with all its output taken and the last window of it shown |
| `ExecTheorems.ServedOrInGrace` | packages/node/src/pi-exec.ts:58-66 | a kept command has a stream or an armed grace timer, never both, and at most one stream not overtaken |
| `ExecTheorems.UninterruptedAttachTakesExit` | packages/node/src/pi-exec.ts:130-139 | an attach not below the tail, read to its end, takes every remaining record and then the exit |
| `ExecExit.UninterruptedAttachEndsInTheExit` | packages/node/src/pi-exec.ts:130-139 | in every run, a call that attaches within the tail after the exit ends, with nothing in its way, with the command's own exit |
| `ExecTheorems.AttachBelowTailMissesExit` | packages/node/src/pi-exec.ts:134 | one step: below the tail after the exit, the answer leaves the server with every byte taken and no exit |
| `ExecExit.ExitIsNeverSeen` | packages/backend/src/nodes/node-dir-client.ts:317-331 | from there, or about to attach below the tail, no run of the call reports the exit |
| `ExecExit.ExitIsSeenIffWithinTheTail` | packages/node/src/pi-exec.ts:130-139 | in every run, a call none of whose callbacks threw that attaches to a kept command that exited has a continuation that reports the exit exactly when what is left to take begins in the tail |
| `ExecExit.TheBoundaryIsReached` | packages/node/src/pi-exec.ts:134 | from a fresh ID, a legal run of a command whose two records do not both fit the tail attaches below it and misses the exit |
| `ChunkedWrite.WriteFileFrom` | packages/backend/src/nodes/node-dir-client.ts:220-238 | however the source comes in pieces the chunks sent are those of the whole, in order; it resolves exactly when each was accepted; at most a chunk and a piece are held |
| `ChunkedWrite.ChunksCover` | packages/backend/src/nodes/node-dir-client.ts:229-237 | the first chunks together are the first bytes of the source, all of them the source |
| `ChunkedWrite.ChunkShape` | packages/node-protocol/src/fields.ts:35-36 | each chunk starts where those before it ended, fits the bound, and is last just when no byte is left |
| `ChunkedWrite.RefusedForAGap` | packages/node/src/files.ts:89-97 | a chunk is refused exactly when it leaves a gap or cannot be kept, and the file is then as it was |
| `ChunkedWrite.LastChunkPlaces` | packages/node/src/files.ts:91-107 | the last chunk places what is kept before it and its own bytes; nothing stays kept, whether that works or not, and the write is remembered as finished exactly if it does |
| `ChunkedWrite.Files.Write` | packages/node/src/files.ts:89-107 | a chunk truncates and extends what is kept, or is refused past it; the last places the file and is remembered |
| `ChunkedWrite.Files.Place` | packages/node/src/files.ts:112-123 | the content reaches the target whole, or in part or not at all when that fails |
| `ChunkedWriteRuns.WriteIsExact` | packages/node/src/files.ts:89-107 | in every run the target is what was there or a prefix of the source; when no placing failed in part it is one or the other whole, and the source once the write resolved |
| `ChunkedWriteRuns.OrderedWriteResolvesWhole` | packages/backend/src/nodes/node-dir-client.ts:220-238 | on a link that delivers in order a write that resolved left the whole source at its path, whatever failed before |
| `ChunkedWriteRuns.GentleWriteSucceeds` | packages/backend/src/nodes/node-dir-client.ts:223-237 | repeats of the chunk being sent, up to 1023 other writes finishing, are never refused, and one more delivery heard advances or resolves the write |
| `BranchScan.ReadBranchIsSelection` | packages/backend/src/pi-storage.ts:367-412 | for every parent graph, cycles too, and every query, the scan with its stop and limit pushed into the query returns what selecting from the whole branch returns |
| `BranchScan.ReadBranchReturns` | packages/backend/src/pi-storage.ts:367-412 | a scan without a limit returns exactly the entries of the branch reached before the stop that have the asked type, custom type and position |
| `BranchScan.LimitTakesFirst` | packages/backend/src/pi-storage.ts:371-411 | a limit keeps the first of them |
| `BranchScan.CutIsShortChain` | packages/backend/src/pi-storage.ts:395-397 | cutting the query's rows at the first repeat is walking without entering a row twice |
| `BranchScan.ChainFits` | packages/backend/src/pi-storage.ts:368 | no walk is longer than the session has entries, so the count bounds it |
| `BranchScan.PushdownLosesNothing` | packages/backend/src/pi-storage.ts:369-371 | the rows the query reads hold all that is selected |
| `BranchScan.QueryReadsNoMore` | packages/backend/src/pi-storage.ts:371-391 | newest first, the query reads no row past its stop, nor, where nothing is filtered, past its limit |
| `BranchScan.ChainIsLongestPath` | packages/backend/src/messages-store.ts:320-332 | the walk follows parents without repeats and ends only where it must |
| `BranchScan.ReadersAgree` | packages/backend/src/messages-store.ts:318-338 | an unfiltered oldest-first scan reads what the transcript's projection reads |
| `BranchScan.CursorResumes` | packages/backend/src/pi-storage.ts:403-411 | where parents are stored first, a scan with an entry's cursor goes on exactly after it |
| `NodeConnection.BackoffDoubles` | packages/node/src/node-connection.ts:66-73 | each wait's ceiling is the double of the one before up to its bound, and the delay drawn is at least half of it and below it |
| `NodeConnection.WaitsDouble` | packages/node/src/node-connection.ts:99-132 | in every run the timer armed, to dial again or after a failed update, has its first ceiling after a hello was served and else double the last of its kind, up to 5 s and 300 s |
| `NodeConnection.AnswerDecides` | packages/node/src/node-connection.ts:115-161 | in every run what the link does about a hello is what the server's answer decides: `connected` for a `ready` at this version on a connection still open, a refusal, an update started, or a failure reported when new |
| `NodeConnection.SettlesOpenIffAccepted` | packages/node/src/node-connection.ts:307-319 | the answer closes its connection exactly unless it is a `ready` at this version |
| `NodeConnection.NegotiatedWasAccepted` | packages/node/src/node-connection.ts:146-152 | in every run a connection is negotiated only if its answer was a `ready` at this version |
| `NodeConnection.RefusedOnlyThen` | packages/node/src/node-connection.ts:115-160 | in every run a refusal is reported only after a refused hello, an error, an unknown kind, a malformed update, or an update without an updater |
| `NodeConnection.OneOutstanding` | packages/node/src/node-connection.ts:88-177 | never more than one timer, dial, open connection or update, and until the stop exactly one whenever the microtasks have run |
| `NodeConnection.StoppedForGood` | packages/node/src/node-connection.ts:168-174 | after a stop, a refusal or an installed update nothing is dialed or reported |
| `NodeConnection.RefusedOnce` | packages/node/src/node-connection.ts:115-118 | a refusal is the last report; two `connected` reports have another between |
| `NodeConnection.DropIsReported` | packages/node/src/node-connection.ts:140-145 | a negotiated connection's drop is reported as `connecting` and arms the redial with the first backoff |
| `NodeConnection.Connector.OnOpened` | packages/node/src/node-connection.ts:134-138 | a socket opened becomes the current connection, its hello unanswered, and one opened after a stop is closed; the link stays valid |
| `NodeConnection.Connector.OnSocketClose` | packages/node/src/node-connection.ts:140-145 | a close ends its connection, reports `connecting` just when it had negotiated, and schedules the next dial; the link stays valid |
| `NodeConnection.Connector.OnReadySettled` | packages/node/src/node-connection.ts:146-161 | a settled hello resets the backoff and reports `connected` if its socket is still open, starts an update, refuses for good, or is a failure reported when new; the link stays valid |
| `NodeConnection.Connector.OnUpdateSettled` | packages/node/src/node-connection.ts:124-132 | an installed update stops the link, a failed one arms the update backoff |
| `NodeConnection.Connector.OnDialFailed` | packages/node/src/node-connection.ts:163-167 | a failed dial is reported when new, and retried |
| `NodeConnection.Connector.StopLink` | packages/node/src/node-connection.ts:168-174 | the current connection is closed, and no timer and no open connection are left |
| `ServerPeer.ServedDecides` | packages/backend/src/nodes/server-peer.ts:60-87 | once the challenge is answered a hello is refused as not authenticated or as another node's, or checked in this order: already negotiated, not served, then the build where it names one, its versions, its docs |
| `ServerPeer.BuildDecides` | packages/backend/src/nodes/server-peer.ts:68-87 | once the build is known, an update is offered exactly when this app has another build; the rest is decided as without one |
| `ServerPeer.AuthenticatedByItsAnswer` | packages/backend/src/nodes/server-peer.ts:56-67 | in every run that challenges, a node is authenticated exactly by the first answer, when that is valid and comes before the close |
| `ServerPeer.ReadyOnlyToTheSigner` | packages/backend/src/nodes/server-peer.ts:57-87 | so a hello is answered `ready` only to the node that signed the challenge |
| `ServerPeer.NegotiationSettles` | packages/backend/src/nodes/server-peer.ts:83-129 | the negotiation settles once, with the node and build of the hello answered `ready`, or as rejected by a close before |
| `ServerPeer.ReadyOnceAndOnlyForItsNode` | packages/backend/src/nodes/server-peer.ts:56-87 | however hellos interleave at most one is answered `ready`, for the node proved where challenged, served when asked, at this version; the negotiation is for no other |
| `ServerPeer.CallsOnlyOnceReady` | packages/backend/src/nodes/server-peer.ts:131-149 | in every run, a call or stream is handed on only for a node whose hello was answered `ready` by then: proved where challenged, served when asked and compatible |
| `ServerPeer.WithoutABuildServedWhenReady` | packages/backend/src/nodes/server-peer.ts:62-71 | a hello without a build is answered in the step that asks whether its node is served |
| `ServerPeer.ServerTransport.HandleHello` | packages/backend/src/nodes/server-peer.ts:56-67 | a hello waits for the challenge's answer, or is checked at once where the connection is trusted; the connection stays valid |
| `ServerPeer.ServerTransport.Authenticated` | packages/backend/src/nodes/server-peer.ts:57-67 | a hello is refused when the challenge failed or proved another node, and checked otherwise; the connection stays valid |
| `ServerPeer.ServerTransport.BuildKnown` | packages/backend/src/nodes/server-peer.ts:68-87 | a hello fails while the build runs, is told to update to another build, or goes on to the versions unless another became `ready` meanwhile; the connection stays valid |
| `ServerPeer.ServerTransport.CallNode` | packages/backend/src/nodes/server-peer.ts:131-149 | hands a call on exactly when negotiated; the connection stays valid |
| `ServerPeer.ServerTransport.CloseTransport` | packages/backend/src/nodes/server-peer.ts:123-129 | a close rejects a negotiation and a challenge still open |
| `NodeHub.LinkIsNegotiated` | packages/backend/src/nodes/node-hub.ts:148-153 | a node's link answered a hello `ready` for that node, proved and served as required |
| `NodeHub.LinkIsTheLatest` | packages/backend/src/nodes/node-hub.ts:139-161 | a node's link is the connection that became it last, until its close is heard; every other is closed |
| `NodeHub.SupersededCloseIsHarmless` | packages/backend/src/nodes/node-hub.ts:139-147 | a superseded connection's close changes no link and publishes nothing |
| `NodeHub.LinkIsTaken` | packages/backend/src/nodes/node-hub.ts:148-161 | a connection that negotiated and is open becomes the node's link, its failure forgotten and its build current exactly if it is this app's; any other is closed and becomes none |
| `NodeHub.BuildIsNoted` | packages/backend/src/nodes/node-hub.ts:101-114 | a node with another build is recorded as updating and published, one with the same build or where there is none is not |
| `NodeHub.ObserversAgree` | packages/backend/src/nodes/node-hub.ts:139-161 | in every run the flag last published equals the link's state exactly unless one, not both, of the last publication and the present falls between the link's close and its `onclose` |
| `NodeHub.ObserversAgreeAtOnce` | packages/backend/src/nodes/node-hub.ts:139-161 | with a close and its `onclose` as one step it always does |
| `NodeHub.LateCloseMisleads` | packages/backend/src/nodes/node-hub.ts:152-160 | a run from a new hub that ends with a node's link open and the node shown as not connected |
| `NodeHub.NodeLinks.NegotiationSettled` | packages/backend/src/nodes/node-hub.ts:148-161 | a connection that negotiated and is open replaces its node's link, whose socket is closed, records its build and is published only if the node had none or was updating; the hub stays valid |
| `NodeHub.NodeLinks.SocketClosed` | packages/backend/src/nodes/node-hub.ts:139-147 | a close takes its node's link and build away and publishes it only if it still was that link; the hub stays valid |
| `NodeHub.NodeLinks.OfferBuild` | packages/backend/src/nodes/node-hub.ts:101-114 | what a hello's build is answered, and the node recorded as updating |
| `NodeHub.NodeLinks.NoteFailure` | packages/backend/src/nodes/node-hub.ts:57-62 | only a new failure is kept and published |
| `NodeHub.NodeLinks.CloseHub` | packages/backend/src/nodes/node-hub.ts:165-170 | every link's socket is closed and none is left |
| `NodeStreams.TakenIffItFits` | packages/backend/src/nodes/node-streams.ts:67-75 | a chunk for an open stream is taken whole exactly when it is the next one and a read waits or it has room; any other fails its stream as a gap or an overflow |
| `NodeStreams.GoodStreamArrives` | packages/backend/src/nodes/node-streams.ts:67-84 | in every run, a stream whose chunks are consecutive and have room, and that the node ends well, ends so; the consumer that reads on reads every byte sent |
| `NodeStreams.EndsAsItsEventSays` | packages/backend/src/nodes/node-streams.ts:32-92 | a stream ends as its refusal, end, cancel or close says; one that ends well keeps what is not read yet, one that fails drops it |
| `NodeStreams.WaitingReadTakesAny` | packages/backend/src/nodes/node-streams.ts:49-74 | the chunk that comes to a waiting read, however large, goes to it alone |
| `NodeStreams.CancelledGivesNoMore` | packages/backend/src/nodes/node-streams.ts:51-56 | a cancelled body gives its consumer nothing more |
| `NodeStreams.ClosedForGood` | packages/backend/src/nodes/node-streams.ts:41-92 | after the close no stream is opened, and each there was has ended |
| `NodeStreams.BodyIsAPrefix` | packages/backend/src/nodes/node-streams.ts:67-75 | whatever chunks come, a body is given a prefix of its stream from the first byte |
| `NodeStreams.BufferIsBounded` | packages/backend/src/nodes/node-streams.ts:74 | no stream buffers more than the bound |
| `NodeStreams.EndedIsWhole` | packages/backend/src/nodes/node-streams.ts:77-84 | a stream that ended well was given every byte received |
| `NodeStreams.StreamsAreIndependent` | packages/backend/src/nodes/node-streams.ts:32-92 | in every run a stream fares, and is cancelled as often, as if its connection carried it alone |
| `NodeStreams.CancelsWhatItGivesUp` | packages/backend/src/nodes/node-streams.ts:32-75 | the node is told to cancel exactly the streams given up here, and those a chunk comes for that are not open |
| `NodeStreams.EndsOnce` | packages/backend/src/nodes/node-streams.ts:86-92 | `ended` settles at most once, and by the close |
| `NodeStreams.StreamRegistry.OnData` | packages/backend/src/nodes/node-streams.ts:67-75 | takes a chunk in place, fails the stream on a gap or overflow, cancels an unknown one |
| `NodeStreams.StreamRegistry.OnEnd` | packages/backend/src/nodes/node-streams.ts:77-84 | an open stream ends with its exit or fails, and any other is left alone |
| `NodeStreams.StreamRegistry.OnClose` | packages/backend/src/nodes/node-streams.ts:86-92 | every open stream fails, no other changes |
| `MessagePages.LoadMessagePage` | packages/backend/src/messages-store.ts:404-518 | the queries, the growing list and the presence checks make the page whose edges `PageIsExact` and `EdgesKeepCallsTogether` describe |
| `MessagePages.PageIsExact` | packages/backend/src/messages-store.ts:404-518 | a page is the contiguous rows next to its position, fewer than the limit only at the end, more only from the latest call its first result answers or to the last result of its last calls, and knows exactly whether rows precede and follow |
| `MessagePages.EdgesKeepCallsTogether` | packages/backend/src/messages-store.ts:445-490 | no backward page starts on a result whose call is earlier, no forward page ends on calls with a later result |
| `MessagePages.BackwardTiles` | packages/backend/src/messages-store.ts:492-517 | following previous cursors visits every row before a position once, in order |
| `MessagePages.ForwardTiles` | packages/backend/src/messages-store.ts:492-517 | following end cursors visits every row after one |
| `MessagePages.PagesAreTheTranscript` | packages/backend/src/messages-store.ts:404-518 | from either end the pages are the transcript |
| `MessagePages.EmptyPageLeadsBack` | packages/backend/src/messages-store.ts:419-440 | the pages back from an empty page's previous cursor are all the rows exactly when none is stored at its position, and else all but that one when it is the last |
| `MessagePages.EmptyPageSkips` | packages/backend/src/messages-store.ts:419-440 | a transcript of one row whose empty page after it leads back to no row |
| `ServiceRunners.OneAtATime` | packages/backend/src/extensions/services.ts:113-136 | an instance with a later one is over exactly when it did not report a failure before its start returned, or its start failed |
| `ServiceRunners.EarlyFailureLeavesTwo` | packages/backend/src/extensions/services.ts:95-111 | one that does runs on beside the next |
| `ServiceRunners.StartsOnlyWhenDue` | packages/backend/src/extensions/services.ts:61-64 | `service.start` is called only first or by the retry timer, never once stopped or failed |
| `ServiceRunners.RetryOnlyInRestarting` | packages/backend/src/extensions/services.ts:126-134 | the retry timer is armed exactly in `restarting` |
| `ServiceRunners.ShowsItsInstance` | packages/backend/src/extensions/services.ts:68-136 | in every run the state shown is how the last instance stands, restarts are the instances after the first, and `stop()` resolves as failed exactly when the last end took too long |
| `ServiceRunners.FailedForGood` | packages/backend/src/extensions/services.ts:68-136 | a service that has failed is shown so for good, stopped or not |
| `ServiceRunners.StartShows` | packages/backend/src/extensions/services.ts:104-110 | a start that succeeds is shown as running, and one that fails is retried with nothing to stop |
| `ServiceRunners.FailureIsRetried` | packages/backend/src/extensions/services.ts:113-136 | a reported failure ends in a stop of the instance and a retry armed, or in `failed` when that takes too long |
| `ServiceRunners.StopEndsLive` | packages/backend/src/extensions/services.ts:68-82 | `stop()` stops the live instance and then resolves as stopped |
| `ServiceRunners.StopIsFinal` | packages/backend/src/extensions/services.ts:68-82 | after `stop()` nothing starts; it ends `stopped` only with every instance over, but early failures |
| `ServiceRunners.BackoffDoubles` | packages/backend/src/extensions/services.ts:126 | delays double from a second to five minutes |
| `ServiceRunners.RetriesDouble` | packages/backend/src/extensions/services.ts:113-134 | in every run a retry is armed only when a crashed instance ended in time, with a second's delay when first since a healthy minute and else double the one before, up to five minutes |
| `ServiceRunners.ServiceRunner.CrashInstance` | packages/backend/src/extensions/services.ts:113-119 | a crash ends its instance once |
| `ServiceRunners.ServiceRunner.OnCrashEnded` | packages/backend/src/extensions/services.ts:120-135 | a crashed instance that ended in time is retried, one that did not fails the service |
| `ServiceRunners.ServiceRunner.StopRunner` | packages/backend/src/extensions/services.ts:68-77 | marks the live instance ended and disarms the timer |
| `KeyedChains.OneAtATimeInOrder` | packages/backend/src/process-state.ts:117-132 | works under a key run one at a time in call order, failures included |
| `KeyedChains.SomeCallGoesOn` | packages/backend/src/models/sessions.ts:300-307 | behind a waiting call some call under the key can go on: none is stranded |
| `KeyedChains.CallEnds` | packages/backend/src/process-state.ts:117-132 | in every run each call can still be brought to its end, whatever others wait, and no later call is touched by that |
| `KeyedChains.KeyIsHeld` | packages/backend/src/models/sessions.ts:298-305 | from the call until its work is settled and released the key has an entry, with no gap |
| `KeyedChains.NothingIsLeft` | packages/backend/src/process-state.ts:128 | when all calls under a key are done its entry is gone |
| `KeyedChains.PromiseChains.EnterChain` | packages/backend/src/process-state.ts:121-123 | a call waits for the last one under its key and takes its place |
| `KeyedChains.PromiseChains.LeaveChain` | packages/backend/src/models/sessions.ts:305 | a key's entry goes only if no later call replaced it |
| `CodeReviews.ApplyKeeps` | packages/backend/src/models/code-review.ts:156-206 | every edit keeps annotation IDs, entry IDs and source keys unique and no annotation empty |
| `CodeReviews.UpsertIsIdempotent` | packages/backend/src/models/code-review.ts:167-182 | importing a source twice leaves one entry for it |
| `CodeReviews.UpsertChangesOneEntry` | packages/backend/src/models/code-review.ts:173-181 | refreshing a source changes the author, body and URL of its one entry and nothing else |
| `CodeReviews.DeleteDropsOnlyIt` | packages/backend/src/models/code-review.ts:195-206 | deleting drops that comment alone and keeps the order of the rest |
| `CodeReviews.AddingLosesNothing` | packages/backend/src/models/code-review.ts:156-193 | adding keeps every entry, in order |
| `CodeReviews.AddedWhereAsked` | packages/backend/src/models/code-review.ts:156-193 | an annotation goes last, and a reply goes last under the annotation it answers; nothing else changes |
| `CodeReviews.ThrowsExactly` | packages/backend/src/models/code-review.ts:156-240 | an edit throws exactly for a bad anchor, an identity in use, a missing source key, or something that is not there, and with the kind the source gives it |
| `CodeReviews.NoLostEdits` | packages/backend/src/code-review-store.ts:63-81 | a save is the copy's edits applied to what is stored then, one revision up; any other changes nothing and says why |
| `CodeReviews.StoredIsEverySave` | packages/backend/src/code-review-store.ts:63-81 | what is stored is every save's edits in order from an empty review |
| `CodeReviews.AcceptedAsSeen` | packages/backend/src/code-review-store.ts:88-105 | a review is consumed only as its submitter saw it |
| `CodeReviews.AcceptedExactly` | packages/backend/src/code-review-store.ts:88-105 | a submission is taken just when its copy is what is stored; any other changes nothing and says why |
| `CodeReviews.SessionIsStored` | packages/backend/src/code-review-store.ts:63-81 | after any run, a review loaded, edited and saved with no save between is stored as all the edits made it, one revision up |
| `CodeReviews.CodeReview.AddTo` | packages/backend/src/models/code-review.ts:156-164 | adds an annotation, or throws and changes nothing |
| `CodeReviews.CodeReview.UpsertIn` | packages/backend/src/models/code-review.ts:167-182 | refreshes the source's entry, or adds it |
| `CodeReviews.CodeReview.ReplyTo` | packages/backend/src/models/code-review.ts:184-193 | adds a reply, or throws and changes nothing |
| `CodeReviews.CodeReview.DeleteFrom` | packages/backend/src/models/code-review.ts:195-206 | deletes a comment, and its annotation when that was its last |
| `TelemetryLog.BoundedLog.AppendNow` | packages/backend/src/models/client-telemetry-log.ts:34-49 | the files read from the oldest are a suffix of all that was appended, each within its bound, the last line among them; nothing is rotated when the line fits, and the current file becomes the first older one when it does not; a line too long throws |
| `TelemetryLog.BoundedLog.Rotate` | packages/backend/src/models/client-telemetry-log.ts:51-62 | each file becomes the next, the last one goes |
| `TelemetryLog.RotatedIsSuffix` | packages/backend/src/models/client-telemetry-log.ts:51-62 | rotating drops the oldest file's lines and keeps the rest in order |
| `Numstat.ParseNumstat` | packages/backend/src/models/diff-parser.ts:138-159 | its index walk is the recursive reading of the NUL-separated fields, malformed ones included |
| `Numstat.CountReads` | packages/backend/src/models/diff-parser.ts:161-163 | a count is a number with a sign or none, whatever follows its digits |
| `Numstat.ParseUndoesPrint` | packages/backend/src/models/diff-parser.ts:134-163 | for every list of changes with non-empty NUL-free paths, renames and binary files too, parsing gives back what was printed |

## Left out

- The heartbeat's counting of silent intervals (`packages/node-protocol/src/rpc.ts:123-132`): it ends in a close, which every model allows at any step.
- Text outside Unicode scalar values (lone surrogates), and the fatal decoder's treatment of a byte order mark.
- `NdjsonSocket.Socket.Receive`: an `onmessage` handler may close the socket; other re-entrant calls from it are not modelled.
- `WebSocketLink`: the receiving side's cap and binary check, which close the link in one branch, and `drained()`.
- `RpcPeer.Connection.ReceiveFrame`: whether a frame is a request, reply or notification, and valid for its schema, is given, not parsed; the codes of a request turned away (no such method, invalid params, busy) are one, `NOT_RUN`.
- `RpcLink.LateRepliesNeverClose`: both peers are this peer, with the same frame cap; one that answers a request twice, or one never sent, is closed by the first surplus reply (`RpcPeer.ReplySettlesItsCall`), and frames have no length here, so a frame over the receiver's cap is not among the closes.
- `pi.execKill`, `busy` and the node's shutdown, and an abort or a timeout of the command itself: the first two read, the others end a run, which `ServerGivesUp` and `NodeRestarts` stand for.
- `ExecSession`: the retry windows of `NodeRetry` are not clocked in it: any attempt may be made or given up at any time, which includes every timing.
- `ExecReader.TakesRecords`: a record's text is any line that its parser reads back as the record (the JSON printer's and schema's agreement is assumed); Pi's promise that a command reports nothing after its exit is assumed too.
- `ChunkedWrite.Files.Place`: placing the file is one step that succeeds, or fails with the target untouched or cut to a prefix; overlap of two `fs.write` handlers while it streams is not modelled. SHA-256 is taken as injective on write IDs, and base64 as exact.
- `BranchScan.ReadBranchIsSelection`: a negative limit, which SQL and JavaScript read differently, and the decoding of a row's JSON; an entry's ID is taken as unique in its session (`packages/backend/src/migrations.ts:255-257`).
- `MessagePages.LoadMessagePage`: rows whose JSON does not parse, and rows of other types, are not in the transcript modelled; a cursor is the sequence number in it, its session, direction and base64 text left out; "kept together" is proved at a page's edges only, which is what the code does.
- `NodeConnection.BackoffDoubles`: the random number is given; failure texts are numbers, equal where the texts are.
- `NodeConnection.OneOutstanding`: two sockets of one dial, and a transport that neither opens nor fails, are excluded by the transport's own contract.
- `ServerPeer.ReadyOnceAndOnlyForItsNode`: the signature check is a given verdict; an answer arrives at most once.
- `NodeHub.NodeLinks`: holds each connection's transport by its state, where the source holds the object; the models' own reads and the docs a node announces are left out.
- `NodeStreams.BodyIsAPrefix`: the consumer reads chunk by chunk; a reader's own buffering is the platform's.
- `ServiceRunners`: the view's times and last error, the logged reports, and the abort signal given to the service.
- The open sessions' `retire` and `sweep`, the pause gate, and the rest of `Sessions`: one-branch logic over maps.
- `CodeReviews.StoredIsEverySave`: a review's ID is taken as never used again (it is random).
- `TelemetryLog.BoundedLog.AppendNow`: file errors, and other writers of the same files; the chain that serializes appends is `KeyedChains` with one key.
- `Numstat.ParseNumstat`: leading white space in a count, which git does not print. `parseUnifiedDiff` is left out: it drops every line that starts with `---` or `+++`, inside hunks too, so it has no exact inverse.
- SQLite, the filesystem, process spawning, HTTP routing, key storage, and the browser client.
