/** A JSON-RPC 2.0 peer (`createRpcPeer`): its calls, the IDs of those given up on, and the requests it runs. */
module RpcPeer {
  import opened Bytes

  /** The `n` of the request ID `rpc-n`. */
  type Id = nat

  const MAX_IN_FLIGHT := 64
  const MAX_EXPIRED := 1024

  /** Stands for the codes of a request that is answered without a handler: unknown method, invalid params, busy. */
  const NOT_RUN := 0

  /** What a reply carries, as the caller's schemas judge it. */
  datatype Body = GoodResult | GoodError(code: int) | BadReply

  /** A frame, as `receive` classifies it. A reply may carry an ID this peer never sent. */
  datatype Frame =
    | Request(id: Id)
    | Reply(id: Id, body: Body)
    | StrangeReply
    | Notification
    | Malformed

  /** How a call settled. */
  datatype Outcome =
    | Resolved
    | ErrorReply(code: int)
    | InvalidReply
    | Abandoned
    | ConnectionClosed
    | SendFailed
    | FrameTooLarge
    | NotConnected
    | TooManyInFlight
    | AbortedBeforeSending

  predicate Unavailable(o: Outcome) {
    o.Abandoned? || o.ConnectionClosed? || o.SendFailed? || o.NotConnected? || o.TooManyInFlight?
      || o.AbortedBeforeSending?
  }

  predicate OutcomeUnknown(o: Outcome) {
    o.Abandoned? || o.ConnectionClosed? || o.SendFailed?
  }

  /** A call as its caller holds it: refused at once, or sent under an ID and settled later. */
  datatype Call = RefusedCall(outcome: Outcome) | IssuedCall(id: Id)

  /** `running` are the requests whose handlers have not finished; `outbox` is every frame handed to the socket;
      `settled` and `replied` are what became of each call and the IDs whose reply arrived. */
  datatype Peer = Peer(
    closed: bool, nextId: Id, pending: set<Id>, expired: seq<Id>, running: seq<Id>,
    calls: seq<Call>, settled: map<Id, Outcome>, replied: set<Id>, outbox: seq<Frame>)

  const NEW_PEER := Peer(false, 0, {}, [], [], [], map[], {}, [])

  // ---- What the operations compute ----

  /** What the socket does with a frame, and whether the frame is over the cap. */
  datatype Sending = Accepted | OverCap | SocketThrows

  function Closing(ids: set<Id>): map<Id, Outcome> {
    map id | id in ids :: ConnectionClosed
  }

  function Fail(p: Peer): Peer {
    if p.closed then p
    else p.(closed := true, pending := {}, settled := p.settled + Closing(p.pending))
  }

  function Refuse(p: Peer, outcome: Outcome): Peer {
    p.(calls := p.calls + [RefusedCall(outcome)])
  }

  function StartCall(p: Peer, aborted: bool, sending: Sending): Peer {
    if p.closed then Refuse(p, NotConnected)
    else if |p.pending| >= MAX_IN_FLIGHT then Refuse(p, TooManyInFlight)
    else if aborted then Refuse(p, AbortedBeforeSending)
    else Issue(p, sending)
  }

  function Issue(p: Peer, sending: Sending): Peer {
    var id := p.nextId + 1;
    var issued := p.(nextId := id, calls := p.calls + [IssuedCall(id)]);
    match sending
    case Accepted => issued.(pending := p.pending + {id}, outbox := p.outbox + [Request(id)])
    case OverCap => issued.(settled := p.settled[id := FrameTooLarge])
    case SocketThrows => Fail(issued.(settled := p.settled[id := SendFailed]))
  }

  /** The oldest ID leaves a full set. */
  function Expire(expired: seq<Id>, id: Id): seq<Id> {
    var longer := if id in expired then expired else expired + [id];
    if |longer| > MAX_EXPIRED then longer[1..] else longer
  }

  /** A timeout, or the caller's abort after sending. */
  function Abandon(p: Peer, id: Id): Peer {
    if id !in p.pending then p
    else p.(pending := p.pending - {id}, expired := Expire(p.expired, id), settled := p.settled[id := Abandoned])
  }

  function Without(ids: seq<Id>, id: Id): seq<Id> {
    if ids == [] then [] else if ids[0] == id then ids[1..] else [ids[0]] + Without(ids[1..], id)
  }

  function Send(p: Peer, frame: Frame, sending: Sending): Peer {
    if sending.Accepted? then p.(outbox := p.outbox + [frame]) else p
  }

  /** `served`: its method is known and its params valid. */
  function OnRequest(p: Peer, id: Id, served: bool, sending: Sending): Peer {
    if !served || |p.running| >= MAX_IN_FLIGHT then Send(p, Reply(id, GoodError(NOT_RUN)), sending)
    else p.(running := p.running + [id])
  }

  /** How a reply settles its call. */
  function Answering(body: Body): Outcome {
    match body
    case GoodResult => Resolved
    case GoodError(code) => ErrorReply(code)
    case BadReply => InvalidReply
  }

  function OnReply(p: Peer, id: Id, body: Body): Peer {
    var heard := p.(replied := p.replied + {id});
    if id !in p.pending then
      if id in p.expired then heard.(expired := Without(p.expired, id)) else Fail(heard)
    else
      var taken := heard.(pending := p.pending - {id});
      var answered := taken.(settled := p.settled[id := Answering(body)]);
      if body.BadReply? then Fail(answered) else answered
  }

  function Receive(p: Peer, frame: Frame, served: bool, sending: Sending): Peer {
    if p.closed then p
    else
      match frame
      case Request(id) => OnRequest(p, id, served, sending)
      case Reply(id, body) => OnReply(p, id, body)
      case StrangeReply => Fail(p)
      case Notification => p
      case Malformed => Fail(p)
  }

  /** A handler finished: its one reply, unless the connection closed meanwhile. */
  function Finish(p: Peer, i: nat, body: Body, sending: Sending): Peer {
    if i >= |p.running| then p
    else
      var rest := p.(running := p.running[..i] + p.running[i + 1..]);
      if p.closed then rest else Send(rest, Reply(p.running[i], body), sending)
  }

  /** Everything a peer does on its own. */
  datatype Act =
    | Calls(aborted: bool, sending: Sending)
    | Abandons(id: Id)
    | Finishes(i: nat, body: Body, sending: Sending)
    | Notifies(sending: Sending)
    | Closes

  function Do(p: Peer, act: Act): Peer {
    match act
    case Calls(aborted, sending) => StartCall(p, aborted, sending)
    case Abandons(id) => Abandon(p, id)
    case Finishes(i, body, sending) => Finish(p, i, body, sending)
    case Notifies(sending) => if p.closed then p else if sending.SocketThrows? then Fail(p)
      else Send(p, Notification, sending)
    case Closes => Fail(p)
  }

  // ---- Settlement and classification ----

  predicate NoDuplicates(ids: seq<Id>) {
    forall i, j :: 0 <= i < j < |ids| ==> ids[i] != ids[j]
  }

  predicate IsUnanswered(p: Peer, id: Id) {
    id in p.settled && p.settled[id].Abandoned? && id !in p.replied
  }

  /** The calls given up on whose reply has not come. */
  function Unanswered(p: Peer): set<Id> {
    set id | id in p.settled && IsUnanswered(p, id)
  }

  /** Every issued call is either pending or settled, and a closed peer has none pending. */
  ghost predicate SettleOk(p: Peer) {
    && p.pending !! p.settled.Keys
    && (forall id :: id in p.pending || id in p.settled <==> 1 <= id <= p.nextId)
    && (p.closed ==> p.pending == {})
    && |p.pending| <= MAX_IN_FLIGHT
    && |p.running| <= MAX_IN_FLIGHT
  }

  /** A call that settled as unavailable without an unknown outcome was refused before it had an ID; only IDs
      of issued calls are on the wire, and not that of a frame over the cap. */
  ghost predicate ClassOk(p: Peer) {
    && (forall i :: 0 <= i < |p.calls| && p.calls[i].IssuedCall? ==> 1 <= p.calls[i].id <= p.nextId)
    && (forall i :: 0 <= i < |p.calls| && p.calls[i].RefusedCall? ==>
          Unavailable(p.calls[i].outcome) && !OutcomeUnknown(p.calls[i].outcome))
    && (forall id :: id in p.settled && Unavailable(p.settled[id]) ==> OutcomeUnknown(p.settled[id]))
    && (forall i :: 0 <= i < |p.outbox| && p.outbox[i].Request? ==>
          1 <= p.outbox[i].id <= p.nextId && (p.outbox[i].id in p.settled ==>
            !p.settled[p.outbox[i].id].FrameTooLarge?))
  }

  /** The IDs kept for late replies were given up on and have no reply yet, each once. */
  ghost predicate ExpiredOk(p: Peer) {
    && NoDuplicates(p.expired) && |p.expired| <= MAX_EXPIRED
    && (forall id :: id in p.expired ==> IsUnanswered(p, id))
    && (forall id :: id in p.pending ==> id !in p.replied)
    && (!p.closed ==> forall id :: id in p.replied ==> 1 <= id <= p.nextId)
  }

  predicate IsCall(p: Peer, c: nat, id: Id) {
    c < |p.calls| && p.calls[c] == IssuedCall(id)
  }

  predicate IsSent(p: Peer, i: nat, id: Id) {
    i < |p.outbox| && p.outbox[i] == Request(id)
  }

  /** Each request handed to the socket was so once, and belongs to exactly one call. */
  ghost predicate WireOk(p: Peer) {
    && (forall c: nat, id: Id :: IsCall(p, c, id) ==> 1 <= id <= p.nextId)
    && (forall c: nat, d: nat, id: Id :: IsCall(p, c, id) && IsCall(p, d, id) ==> c == d)
    && (forall i: nat, id: Id :: IsSent(p, i, id) ==> exists c: nat :: IsCall(p, c, id))
    && (forall i: nat, j: nat, id: Id :: IsSent(p, i, id) && IsSent(p, j, id) ==> i == j)
  }

  ghost predicate PeerOk(p: Peer) {
    SettleOk(p) && ClassOk(p) && ExpiredOk(p) && WireOk(p)
  }

  lemma SameWire(p: Peer, p': Peer)
    requires WireOk(p) && p'.calls == p.calls && p'.outbox == p.outbox && p'.nextId == p.nextId
    ensures WireOk(p')
  {
    forall i: nat, id: Id | IsSent(p', i, id)
      ensures exists c: nat :: IsCall(p', c, id)
    {
      assert IsSent(p, i, id);
      var c: nat :| IsCall(p, c, id);
      assert IsCall(p', c, id);
    }
    assert forall c: nat, id: Id :: IsCall(p', c, id) ==> IsCall(p, c, id);
    assert forall i: nat, id: Id :: IsSent(p', i, id) ==> IsSent(p, i, id);
  }

  /** A call issued under a new ID, its request sent or not. */
  lemma IssuedWire(p: Peer, p': Peer, sent: bool)
    requires WireOk(p) && p'.nextId == p.nextId + 1 && p'.calls == p.calls + [IssuedCall(p'.nextId)]
    requires p'.outbox == if sent then p.outbox + [Request(p'.nextId)] else p.outbox
    ensures WireOk(p')
  {
    assert IsCall(p', |p.calls|, p'.nextId);
    forall i: nat, id: Id | IsSent(p', i, id)
      ensures exists c: nat :: IsCall(p', c, id)
      ensures i < |p.outbox| ==> IsSent(p, i, id) && id <= p.nextId
    {
      if i < |p.outbox| {
        assert IsSent(p, i, id);
        var c: nat :| IsCall(p, c, id);
        assert IsCall(p', c, id);
      }
    }
    assert forall c: nat, id: Id :: IsCall(p', c, id) ==> IsCall(p, c, id) || (c == |p.calls| && id == p'.nextId);
  }

  /** A call refused, or a frame sent that is no request. */
  lemma OtherWire(p: Peer, p': Peer)
    requires WireOk(p) && p'.nextId == p.nextId
    requires p'.calls == p.calls || exists outcome :: p'.calls == p.calls + [RefusedCall(outcome)]
    requires p'.outbox == p.outbox || exists frame: Frame :: !frame.Request? && p'.outbox == p.outbox + [frame]
    ensures WireOk(p')
  {
    assert forall c: nat, id: Id :: IsCall(p', c, id) <==> IsCall(p, c, id);
    assert forall i: nat, id: Id :: IsSent(p', i, id) <==> IsSent(p, i, id);
  }

  lemma FailKeeps(p: Peer)
    requires PeerOk(p)
    ensures PeerOk(Fail(p))
  {
    var p' := Fail(p);
    assert SettleOk(p');
    assert ClassOk(p');
    assert ExpiredOk(p');
    SameWire(p, p');
  }

  /** A call issued under the next ID, before its frame is tried. */
  lemma IssueKeeps(p: Peer)
    requires PeerOk(p) && !p.closed && |p.pending| < MAX_IN_FLIGHT
    ensures var id := p.nextId + 1;
            var issued := p.(nextId := id, calls := p.calls + [IssuedCall(id)]);
            && PeerOk(issued.(pending := p.pending + {id}, outbox := p.outbox + [Request(id)]))
            && PeerOk(issued.(settled := p.settled[id := FrameTooLarge]))
            && PeerOk(issued.(settled := p.settled[id := SendFailed]))
  {
    SendFresh(p, p.nextId + 1);
    SettleFresh(p, p.nextId + 1, FrameTooLarge);
    SettleFresh(p, p.nextId + 1, SendFailed);
    hide PeerOk;
  }

  lemma SendFresh(p: Peer, id: Id)
    requires PeerOk(p) && !p.closed && |p.pending| < MAX_IN_FLIGHT && id == p.nextId + 1
    ensures PeerOk(p.(nextId := id, calls := p.calls + [IssuedCall(id)], pending := p.pending + {id}, outbox := p.outbox
        + [Request(id)]))
  {
    var p' := p.(nextId := id, calls := p.calls + [IssuedCall(id)], pending := p.pending + {id}, outbox := p.outbox
      + [Request(id)]);
    assert id !in p.pending && id !in p.settled && id !in p.replied;
    assert SettleOk(p');
    assert ClassOk(p');
    assert ExpiredOk(p');
    IssuedWire(p, p', true);
  }

  lemma SettleFresh(p: Peer, id: Id, outcome: Outcome)
    requires PeerOk(p) && !p.closed && id == p.nextId + 1 && (outcome.FrameTooLarge? || outcome.SendFailed?)
    ensures PeerOk(p.(nextId := id, calls := p.calls + [IssuedCall(id)], settled := p.settled[id := outcome]))
  {
    var p' := p.(nextId := id, calls := p.calls + [IssuedCall(id)], settled := p.settled[id := outcome]);
    assert SettleOk(p');
    assert ClassOk(p');
    assert ExpiredOk(p');
    IssuedWire(p, p', false);
  }

  lemma RefuseKeeps(p: Peer, outcome: Outcome)
    requires PeerOk(p) && Unavailable(outcome) && !OutcomeUnknown(outcome)
    ensures PeerOk(Refuse(p, outcome))
  {
    var p' := Refuse(p, outcome);
    assert SettleOk(p') && ExpiredOk(p');
    assert ClassOk(p');
    OtherWire(p, p');
  }

  lemma StartCallKeeps(p: Peer, aborted: bool, sending: Sending)
    requires PeerOk(p)
    ensures PeerOk(StartCall(p, aborted, sending))
  {
    hide SettleOk, ClassOk, ExpiredOk, WireOk;
    if p.closed {
      RefuseKeeps(p, NotConnected);
    } else if |p.pending| >= MAX_IN_FLIGHT {
      RefuseKeeps(p, TooManyInFlight);
    } else if aborted {
      RefuseKeeps(p, AbortedBeforeSending);
    } else {
      IssueKeeps(p);
      if sending.SocketThrows? {
        var id := p.nextId + 1;
        FailKeeps(p.(nextId := id, calls := p.calls + [IssuedCall(id)], settled := p.settled[id := SendFailed]));
      }
    }
  }

  lemma AbandonKeeps(p: Peer, id: Id)
    requires PeerOk(p)
    ensures PeerOk(Abandon(p, id))
  {
    if id in p.pending {
      var p' := Abandon(p, id);
      assert SettleOk(p');
      assert ClassOk(p');
      assert id !in p.expired;
      forall x | x in p'.expired
        ensures x in p.expired || x == id
      {
      }
      assert ExpiredOk(p');
      SameWire(p, p');
    }
  }

  lemma FirstIsDistinct(first: Id, rest: seq<Id>)
    ensures NoDuplicates([first] + rest) <==> first !in rest && NoDuplicates(rest)
  {
    var ids := [first] + rest;
    if NoDuplicates(ids) {
      forall j | 0 <= j < |rest|
        ensures rest[j] != first
      {
        assert ids[0] != ids[j + 1];
      }
      forall i, j | 0 <= i < j < |rest|
        ensures rest[i] != rest[j]
      {
        assert ids[i + 1] != ids[j + 1];
      }
    }
  }

  lemma {:induction false} WithoutOne(ids: seq<Id>, id: Id)
    requires NoDuplicates(ids)
    ensures NoDuplicates(Without(ids, id)) && |Without(ids, id)| <= |ids|
    ensures forall x :: x in Without(ids, id) <==> x in ids && x != id
  {
    if ids != [] {
      var first, rest := ids[0], ids[1..];
      assert ids == [first] + rest;
      FirstIsDistinct(first, rest);
      hide NoDuplicates;
      if first != id {
        WithoutOne(rest, id);
        FirstIsDistinct(first, Without(rest, id));
      }
    }
  }

  lemma SendKeeps(p: Peer, frame: Frame, sending: Sending)
    requires PeerOk(p) && !frame.Request?
    ensures PeerOk(Send(p, frame, sending))
  {
    var p' := Send(p, frame, sending);
    assert SettleOk(p') && ExpiredOk(p');
    assert ClassOk(p');
    OtherWire(p, p');
  }

  lemma OwnReplyKeeps(p: Peer, id: Id, outcome: Outcome)
    requires PeerOk(p) && !p.closed && id in p.pending
        && (outcome.Resolved? || outcome.ErrorReply? || outcome.InvalidReply?)
    ensures PeerOk(p.(replied := p.replied + {id}, pending := p.pending - {id}, settled := p.settled[id := outcome]))
  {
    var p' := p.(replied := p.replied + {id}, pending := p.pending - {id}, settled := p.settled[id := outcome]);
    assert SettleOk(p') by { hide ClassOk, ExpiredOk, WireOk; }
    assert ClassOk(p') by { hide ExpiredOk, WireOk; }
    assert ExpiredOk(p') by { hide ClassOk, WireOk; }
    hide SettleOk, ClassOk, ExpiredOk, WireOk;
    SameWire(p, p');
  }

  lemma LateReplyKeeps(p: Peer, id: Id)
    requires PeerOk(p) && !p.closed && id in p.expired
    ensures PeerOk(p.(replied := p.replied + {id}, expired := Without(p.expired, id)))
  {
    WithoutOne(p.expired, id);
    var p' := p.(replied := p.replied + {id}, expired := Without(p.expired, id));
    assert SettleOk(p') && ClassOk(p');
    assert ExpiredOk(p');
    SameWire(p, p');
  }

  lemma StrayReplyKeeps(p: Peer, id: Id)
    requires PeerOk(p) && !p.closed && id !in p.pending && id !in p.expired
    ensures PeerOk(Fail(p.(replied := p.replied + {id})))
  {
    var p' := Fail(p.(replied := p.replied + {id}));
    FailKeeps(p);
    assert SettleOk(p') && ClassOk(p');
    assert ExpiredOk(p');
    SameWire(p, p');
  }

  lemma OnReplyKeeps(p: Peer, id: Id, body: Body)
    requires PeerOk(p) && !p.closed
    ensures PeerOk(OnReply(p, id, body))
  {
    hide SettleOk, ClassOk, ExpiredOk, WireOk;
    if id in p.pending {
      var outcome := Answering(body);
      OwnReplyKeeps(p, id, outcome);
      FailKeeps(p.(replied := p.replied + {id}, pending := p.pending - {id}, settled := p.settled[id := outcome]));
    } else if id in p.expired {
      LateReplyKeeps(p, id);
    } else {
      StrayReplyKeeps(p, id);
    }
  }

  lemma RunningKeeps(p: Peer, running: seq<Id>)
    requires PeerOk(p) && |running| <= MAX_IN_FLIGHT
    ensures PeerOk(p.(running := running))
  {
    var p' := p.(running := running);
    assert SettleOk(p') && ClassOk(p') && ExpiredOk(p');
    SameWire(p, p');
  }

  lemma ReceiveKeeps(p: Peer, frame: Frame, served: bool, sending: Sending)
    requires PeerOk(p)
    ensures PeerOk(Receive(p, frame, served, sending))
  {
    hide ClassOk, ExpiredOk, WireOk;
    if !p.closed {
      match frame
      case Request(id) =>
        SendKeeps(p, Reply(id, GoodError(NOT_RUN)), sending);
        if |p.running| < MAX_IN_FLIGHT {
          RunningKeeps(p, p.running + [id]);
        }
      case Reply(id, body) => OnReplyKeeps(p, id, body);
      case StrangeReply => FailKeeps(p);
      case Notification =>
      case Malformed => FailKeeps(p);
    }
  }

  lemma FinishKeeps(p: Peer, i: nat, body: Body, sending: Sending)
    requires PeerOk(p)
    ensures PeerOk(Finish(p, i, body, sending))
  {
    hide ClassOk, ExpiredOk, WireOk;
    if i < |p.running| {
      var rest := p.(running := p.running[..i] + p.running[i + 1..]);
      RunningKeeps(p, rest.running);
      SendKeeps(rest, Reply(p.running[i], body), sending);
    }
  }

  lemma DoKeeps(p: Peer, act: Act)
    requires PeerOk(p)
    ensures PeerOk(Do(p, act))
  {
    hide SettleOk, ClassOk, ExpiredOk, WireOk;
    match act
    case Calls(aborted, sending) => StartCallKeeps(p, aborted, sending);
    case Abandons(id) => AbandonKeeps(p, id);
    case Finishes(i, body, sending) => FinishKeeps(p, i, body, sending);
    case Notifies(sending) =>
      FailKeeps(p);
      SendKeeps(p, Notification, sending);
    case Closes => FailKeeps(p);
  }

  /** A settled call stays as it settled, whatever the peer does or receives after. */
  lemma SettledOnce(p: Peer, act: Act, frame: Frame, served: bool, sending: Sending, id: Id)
    requires PeerOk(p) && id in p.settled
    ensures id in Do(p, act).settled && Do(p, act).settled[id] == p.settled[id]
    ensures id in Receive(p, frame, served, sending).settled
        && Receive(p, frame, served, sending).settled[id] == p.settled[id]
  {
    assert id !in p.pending && id <= p.nextId;
  }

  /** A reply settles the call whose ID it carries and no other, unless it closes the connection: then it is
      malformed for that call, or for no call. A result resolves the call, an error rejects it with its code. */
  lemma ReplySettlesItsCall(p: Peer, id: Id, body: Body, served: bool, sending: Sending)
    requires PeerOk(p) && !p.closed
    ensures var p' := Receive(p, Reply(id, body), served, sending);
            && (p'.closed <==> (id in p.pending && body.BadReply?) || (id !in p.pending && id !in p.expired))
            && (!p'.closed ==> p'.pending == p.pending - {id} && p'.settled - {id} == p.settled - {id})
            && (id in p.pending ==>
                 && id in p'.settled
                 && (body.GoodResult? <==> p'.settled[id] == Resolved)
                 && (forall code: int :: body == GoodError(code) <==> p'.settled[id] == ErrorReply(code))
                 && (body.BadReply? <==> p'.settled[id] == InvalidReply))
            && (!p'.closed && id !in p.pending ==> p'.settled == p.settled)
  {
  }

  /** What became of a call, if it settled. */
  function OutcomeOf(p: Peer, call: Call): Option<Outcome> {
    match call
    case RefusedCall(outcome) => Some(outcome)
    case IssuedCall(id) => if id in p.settled then Some(p.settled[id]) else None
  }

  /** A call has no outcome just while it is pending, and one that was refused has its own. */
  lemma UnsettledIsPending(p: Peer, i: nat)
    requires PeerOk(p) && i < |p.calls|
    ensures OutcomeOf(p, p.calls[i]).None? <==> p.calls[i].IssuedCall? && p.calls[i].id in p.pending
    ensures p.calls[i].RefusedCall? ==> OutcomeOf(p, p.calls[i]) == Some(p.calls[i].outcome)
  {
  }

  /** The connection is closed by its owner, or by a socket that throws on a call or a notification. */
  predicate ClosesBy(p: Peer, act: Act) {
    || act.Closes?
    || (act.Notifies? && act.sending.SocketThrows?)
    || (act.Calls? && !act.aborted && |p.pending| < MAX_IN_FLIGHT && act.sending.SocketThrows?)
  }

  /** What a peer does on its own settles only these calls: one given up on, one whose frame was over the cap or could
      not be sent, and, when it closes the connection, each one pending. */
  lemma ActSettles(p: Peer, act: Act, id: Id)
    requires PeerOk(p) && !p.closed
    ensures var p' := Do(p, act);
            && (p'.closed <==> ClosesBy(p, act))
            && (id in p.pending ==>
                  if p'.closed then id in p'.settled && p'.settled[id] == ConnectionClosed
                  else if act == Abandons(id) then id in p'.settled && p'.settled[id] == Abandoned
                  else id in p'.pending)
            && (id in p'.settled && id !in p.pending && id !in p.settled ==>
                  && id == p.nextId + 1 && act.Calls?
                  && p'.settled[id] == if act.sending.OverCap? then FrameTooLarge else SendFailed)
  {
    hide ClassOk, ExpiredOk, WireOk;
  }

  /** A frame that closes the connection settles every call pending as closed, but the one it answers. */
  lemma FrameSettles(p: Peer, frame: Frame, served: bool, sending: Sending, id: Id)
    requires PeerOk(p) && !p.closed && id in p.pending && !(frame.Reply? && frame.id == id)
    ensures var p' := Receive(p, frame, served, sending);
            if p'.closed then id in p'.settled && p'.settled[id] == ConnectionClosed else id in p'.pending
    ensures frame.StrangeReply? || frame.Malformed? ==> Receive(p, frame, served, sending).closed
    ensures frame.Request? || frame.Notification? ==> !Receive(p, frame, served, sending).closed
  {
    hide ClassOk, ExpiredOk, WireOk;
  }

  /** A call rejected as unavailable with its outcome not unknown never reached the socket: it has no ID, and every
      request handed to the socket was so once, for exactly one call, which is another. */
  lemma NotRunMeansNotSent(p: Peer, i: nat)
    requires PeerOk(p) && i < |p.calls|
    requires OutcomeOf(p, p.calls[i]).Some?
    requires Unavailable(OutcomeOf(p, p.calls[i]).value) && !OutcomeUnknown(OutcomeOf(p, p.calls[i]).value)
    ensures p.calls[i].RefusedCall?
    ensures forall j: nat, id: Id :: IsSent(p, j, id) ==>
              && (exists c: nat :: c != i && IsCall(p, c, id))
              && (forall c: nat, d: nat :: IsCall(p, c, id) && IsCall(p, d, id) ==> c == d)
              && (forall k: nat :: IsSent(p, k, id) ==> k == j)
  {
    forall j: nat, id: Id | IsSent(p, j, id)
      ensures exists c: nat :: c != i && IsCall(p, c, id)
    {
      var c: nat :| IsCall(p, c, id);
      assert c != i;
    }
  }

  /** The step that refuses a call hands the socket nothing; one that issues it hands over its one request. */
  lemma CallSendsAtMostItsRequest(p: Peer, aborted: bool, sending: Sending)
    requires PeerOk(p)
    ensures var p' := StartCall(p, aborted, sending);
            && |p'.calls| == |p.calls| + 1
            && match p'.calls[|p.calls|]
               case RefusedCall(_) => p' == p.(calls := p'.calls)
               case IssuedCall(id) =>
                 && id == p.nextId + 1 && Request(id) !in p.outbox
                 && p'.outbox == (if sending.Accepted? then p.outbox + [Request(id)] else p.outbox)
                 && (id in p'.pending <==> sending.Accepted?)
                 && (sending.OverCap? ==> !p'.closed && p'.settled[id] == FrameTooLarge)
                 && (sending.SocketThrows? ==> p'.closed && p'.settled[id] == SendFailed)
  {
  }

  // ---- The peer ----

  class Connection {
    var closed: bool
    var nextId: Id
    var pending: set<Id>
    var expired: seq<Id>
    var running: seq<Id>
    var calls: seq<Call>
    var settled: map<Id, Outcome>
    var replied: set<Id>
    var outbox: seq<Frame>

    ghost function Model(): Peer
      reads this
    {
      Peer(closed, nextId, pending, expired, running, calls, settled, replied, outbox)
    }

    ghost predicate Valid()
      reads this
    {
      PeerOk(Model())
    }

    constructor ()
      ensures Valid() && Model() == NEW_PEER
    {
      closed, nextId, pending, expired, running := false, 0, {}, [], [];
      calls, settled, replied, outbox := [], map[], {}, [];
    }

    /** Rejects every call in flight; the connection closes once. */
    method FailAll()
      modifies this`closed, this`pending, this`settled
      ensures Model() == Fail(old(Model()))
    {
      if closed {
        return;
      }
      closed := true;
      var left := pending;
      while left != {}
        invariant closed && left <= pending == old(pending)
        invariant settled == old(settled) + Closing(pending - left)
        decreases left
      {
        var id :| id in left;
        settled := settled[id := ConnectionClosed];
        assert Closing(pending - (left - {id})) == Closing(pending - left)[id := ConnectionClosed];
        left := left - {id};
      }
      assert pending - left == pending;
      pending := {};
    }

    method CallRemote(aborted: bool, sending: Sending) returns (call: Call)
      requires Valid()
      modifies this
      ensures Valid() && Model() == StartCall(old(Model()), aborted, sending)
      ensures calls == old(calls) + [call]
    {
      StartCallKeeps(Model(), aborted, sending);
      if closed || |pending| >= MAX_IN_FLIGHT || aborted {
        call := RefusedCall(if closed then NotConnected else if |pending| >= MAX_IN_FLIGHT then TooManyInFlight
          else AbortedBeforeSending);
        calls := calls + [call];
        return;
      }
      assert nextId + 1 !in pending;
      hide PeerOk;
      call := IssueCall(sending);
    }

    /** The call's entry is there before its frame is tried, and goes again when it cannot be sent. */
    method IssueCall(sending: Sending) returns (call: Call)
      requires nextId + 1 !in pending
      modifies this
      ensures Model() == Issue(old(Model()), sending) && calls == old(calls) + [call]
    {
      nextId := nextId + 1;
      call := IssuedCall(nextId);
      calls := calls + [call];
      pending := pending + {nextId};
      match sending {
        case Accepted =>
          outbox := outbox + [Request(nextId)];
        case OverCap =>
          pending := pending - {nextId};
          assert pending == old(pending);
          settled := settled[nextId := FrameTooLarge];
        case SocketThrows =>
          pending := pending - {nextId};
          assert pending == old(pending);
          settled := settled[nextId := SendFailed];
          FailAll();
      }
    }

    /** The call's timer or its caller's signal. */
    method GiveUp(id: Id)
      requires Valid()
      modifies this
      ensures Valid() && Model() == Abandon(old(Model()), id)
    {
      AbandonKeeps(Model(), id);
      if id !in pending {
        return;
      }
      pending := pending - {id};
      if id !in expired {
        expired := expired + [id];
      }
      if |expired| > MAX_EXPIRED {
        expired := expired[1..];
      }
      settled := settled[id := Abandoned];
    }

    method ReceiveFrame(frame: Frame, served: bool, sending: Sending)
      requires Valid()
      modifies this
      ensures Valid() && Model() == Receive(old(Model()), frame, served, sending)
    {
      ReceiveKeeps(Model(), frame, served, sending);
      if closed {
        return;
      }
      match frame {
        case Request(id) =>
          if served && |running| < MAX_IN_FLIGHT {
            running := running + [id];
          } else if sending == Accepted {
            outbox := outbox + [Reply(id, GoodError(NOT_RUN))];
          }
        case Reply(id, body) =>
          ReceiveReply(id, body);
        case Notification =>
        case _ =>
          FailAll();
      }
    }

    method ReceiveReply(id: Id, body: Body)
      requires !closed
      modifies this
      ensures Model() == OnReply(old(Model()), id, body)
    {
      replied := replied + {id};
      if id !in pending {
        if id in expired {
          expired := Without(expired, id);
        } else {
          FailAll();
        }
        return;
      }
      pending := pending - {id};
      settled := settled[id := Answering(body)];
      if body == BadReply {
        FailAll();
      }
    }

    method HandlerFinished(i: nat, body: Body, sending: Sending)
      requires Valid()
      modifies this
      ensures Valid() && Model() == Finish(old(Model()), i, body, sending)
    {
      FinishKeeps(Model(), i, body, sending);
      if i >= |running| {
        return;
      }
      var id := running[i];
      running := running[..i] + running[i + 1..];
      if !closed && sending == Accepted {
        outbox := outbox + [Reply(id, body)];
      }
    }
  }
}
