/** Two JSON-RPC peers over a lossless link that delivers each side's frames in order and may close at any step. */
module RpcLink {
  import opened RpcPeer

  /** How many of each side's frames the other has received. */
  datatype Link = Link(a: Peer, fromA: nat, b: Peer, fromB: nat)

  const NEW_LINK := Link(NEW_PEER, 0, NEW_PEER, 0)

  datatype Event =
    | Acts(act: Act)
    | Hears(served: bool, sending: Sending)

  datatype Step = AtA(event: Event) | AtB(event: Event)

  function Flip(l: Link): Link {
    Link(l.b, l.fromB, l.a, l.fromA)
  }

  function StepA(l: Link, e: Event): Link {
    match e
    case Acts(act) => l.(a := Do(l.a, act))
    case Hears(served, sending) =>
      if l.fromB < |l.b.outbox| then l.(a := Receive(l.a, l.b.outbox[l.fromB], served, sending), fromB := l.fromB + 1)
        else l
  }

  function Next(l: Link, step: Step): Link {
    match step
    case AtA(e) => StepA(l, e)
    case AtB(e) => Flip(StepA(Flip(l), e))
  }

  function Run(steps: seq<Step>): Link {
    if steps == [] then NEW_LINK else Next(Run(steps[..|steps| - 1]), steps[|steps| - 1])
  }

  // ---- Where a request and its answer are ----

  predicate Carries(frame: Frame, requests: bool) {
    if requests then frame.Request? else frame.Reply?
  }

  /** The IDs of the requests, or else of the replies, among the frames. */
  function Ids(frames: seq<Frame>, requests: bool): multiset<Id> {
    if frames == [] then multiset{}
    else
      var last := frames[|frames| - 1];
      Ids(frames[..|frames| - 1], requests) + IdsOf(last, requests)
  }

  function IdsOf(frame: Frame, requests: bool): multiset<Id> {
    if Carries(frame, requests) then multiset{frame.id} else multiset{}
  }

  /** The requests of `caller` the responder may still answer: on their way, running, or answered with the answer
      on its way. */
  function Owed(caller: Peer, fromCaller: nat, responder: Peer, fromResponder: nat): multiset<Id>
    requires fromCaller <= |caller.outbox| && fromResponder <= |responder.outbox|
  {
    Ids(caller.outbox[fromCaller..], true) + multiset(responder.running) + Ids(responder.outbox[fromResponder..], false)
  }

  /** Each request is owed at most one answer, and the caller awaits it or remembers having given it up. */
  ghost predicate Expects(caller: Peer, owed: multiset<Id>) {
    forall id :: id in owed ==>
      owed[id] == 1 && 1 <= id <= caller.nextId && (caller.closed || id in caller.pending || id in caller.expired)
  }

  /** No more calls are given up on and unanswered than a peer keeps IDs for. */
  predicate Quiet(p: Peer) {
    |Unanswered(p)| <= MAX_EXPIRED
  }

  ghost predicate WellFormed(p: Peer) {
    forall i :: 0 <= i < |p.outbox| ==> !p.outbox[i].StrangeReply? && !p.outbox[i].Malformed?
  }

  ghost predicate LinkOk(l: Link) {
    && PeerOk(l.a) && PeerOk(l.b) && WellFormed(l.a) && WellFormed(l.b)
    && l.fromA <= |l.a.outbox| && l.fromB <= |l.b.outbox|
    && Expects(l.a, Owed(l.a, l.fromA, l.b, l.fromB))
    && Expects(l.b, Owed(l.b, l.fromB, l.a, l.fromA))
  }

  // ---- How the frames on their way change ----

  lemma IdsSnoc(frames: seq<Frame>, frame: Frame, requests: bool)
    ensures Ids(frames + [frame], requests) == Ids(frames, requests) + IdsOf(frame, requests)
  {
    assert (frames + [frame])[..|frames|] == frames;
  }

  lemma IdsAppend(frames: seq<Frame>, from: nat, frame: Frame, requests: bool)
    requires from <= |frames|
    ensures Ids((frames + [frame])[from..], requests) == Ids(frames[from..], requests) + IdsOf(frame, requests)
  {
    IdsSnoc(frames[from..], frame, requests);
    assert (frames + [frame])[from..] == frames[from..] + [frame];
  }

  lemma Ends(frames: seq<Frame>)
    requires |frames| > 1
    ensures var init, last := frames[..|frames| - 1], frames[|frames| - 1];
            frames == init + [last] && frames[1..] == init[1..] + [last]
  {
  }

  lemma {:induction false} IdsFront(frames: seq<Frame>, requests: bool)
    requires frames != []
    ensures Ids(frames, requests) == IdsOf(frames[0], requests) + Ids(frames[1..], requests)
  {
    if |frames| == 1 {
      assert frames[..0] == [] == frames[1..];
    } else {
      hide Ids, IdsOf;
      var init, last := frames[..|frames| - 1], frames[|frames| - 1];
      Ends(frames);
      IdsFront(init, requests);
      IdsSnoc(init, last, requests);
      IdsSnoc(init[1..], last, requests);
    }
  }

  lemma IdsTake(frames: seq<Frame>, from: nat, requests: bool)
    requires from < |frames|
    ensures Ids(frames[from..], requests) == IdsOf(frames[from], requests) + Ids(frames[from + 1..], requests)
  {
    IdsFront(frames[from..], requests);
    assert frames[from..][1..] == frames[from + 1..];
  }

  lemma RunningLess(running: seq<Id>, i: nat)
    requires i < |running|
    ensures multiset(running) == multiset(running[..i] + running[i + 1..]) + multiset{running[i]}
  {
    assert running == running[..i] + [running[i]] + running[i + 1..];
  }

  // ---- What a peer's own step does to what is owed ----

  /** The frames a peer's own step hands to the socket. */
  function Sends(p: Peer, act: Act): seq<Frame> {
    match act
    case Calls(aborted, sending) =>
      if p.closed || |p.pending| >= MAX_IN_FLIGHT || aborted || !sending.Accepted? then [] else [Request(p.nextId + 1)]
    case Finishes(i, body, sending) => if i < |p.running| && !p.closed && sending.Accepted? then
      [Reply(p.running[i], body)] else []
    case Notifies(sending) => if !p.closed && sending.Accepted? then [Notification] else []
    case _ => []
  }

  lemma DoSends(p: Peer, act: Act)
    ensures Do(p, act).outbox == p.outbox + Sends(p, act) && |Sends(p, act)| <= 1
    ensures !act.Finishes? ==> Do(p, act).running == p.running
    ensures act.Calls? && Sends(p, act) != [] ==>
              var p' := Do(p, act);
              p'.nextId == p.nextId + 1 && p'.nextId in p'.pending && !p.closed && Sends(p, act) == [Request(p'.nextId)]
  {
    match act
    case Calls(_, _) =>
    case Abandons(_) =>
    case Finishes(_, _, _) =>
    case Notifies(_) =>
    case Closes =>
  }

  lemma IdsSent(p: Peer, from: nat, act: Act, requests: bool)
    requires from <= |p.outbox|
    ensures p.outbox <= Do(p, act).outbox
    ensures Ids(Do(p, act).outbox[from..], requests)
              == Ids(p.outbox[from..], requests) + if Sends(p, act) == [] then multiset{}
                else IdsOf(Sends(p, act)[0], requests)
  {
    DoSends(p, act);
    hide Do, Ids;
    if Sends(p, act) != [] {
      assert Sends(p, act) == [Sends(p, act)[0]];
      IdsAppend(p.outbox, from, Sends(p, act)[0], requests);
    } else {
      assert p.outbox + [] == p.outbox;
    }
  }

  /** Requests of this peer's: only an accepted call adds one, under a fresh ID. */
  lemma OwnRequests(p: Peer, from: nat, act: Act)
    requires from <= |p.outbox|
    ensures var p' := Do(p, act);
            && p.outbox <= p'.outbox
            && (Ids(p'.outbox[from..], true) == Ids(p.outbox[from..], true)
                || (act.Calls? && p'.nextId == p.nextId + 1 && p'.nextId in p'.pending && !p.closed
                    && Ids(p'.outbox[from..], true) == Ids(p.outbox[from..], true) + multiset{p'.nextId}))
  {
    DoSends(p, act);
    IdsSent(p, from, act, true);
    hide Do, Ids;
  }

  /** Answers of this peer's: a finished handler trades its place for its reply. */
  lemma OwnReplies(p: Peer, from: nat, act: Act)
    requires from <= |p.outbox|
    ensures var p' := Do(p, act);
            && p.outbox <= p'.outbox
            && multiset(p'.running) + Ids(p'.outbox[from..], false)
                 <= multiset(p.running) + Ids(p.outbox[from..], false)
  {
    if act.Finishes? {
      FinishTrades(p, from, act.i, act.body, act.sending);
    } else {
      DoSends(p, act);
      IdsSent(p, from, act, false);
      hide Do, Ids;
    }
  }

  lemma FinishTrades(p: Peer, from: nat, i: nat, body: Body, sending: Sending)
    requires from <= |p.outbox|
    ensures var p' := Finish(p, i, body, sending);
            && p.outbox <= p'.outbox
            && multiset(p'.running) + Ids(p'.outbox[from..], false)
                 <= multiset(p.running) + Ids(p.outbox[from..], false)
  {
    hide Ids;
    if i < |p.running| {
      RunningLess(p.running, i);
      IdsAppend(p.outbox, from, Reply(p.running[i], body), false);
    }
  }

  lemma ExpectsFewer(caller: Peer, owed: multiset<Id>, fewer: multiset<Id>)
    requires Expects(caller, owed) && fewer <= owed
    ensures Expects(caller, fewer)
  {
    forall id | id in fewer
      ensures owed[id] == 1 && fewer[id] == 1
    {
      assert fewer[id] <= owed[id];
    }
  }

  /** Giving a call up forgets no other while the given-up calls fit. */
  lemma NothingForgotten(p: Peer, id: Id)
    requires PeerOk(p) && Quiet(Abandon(p, id)) && id in p.pending
    ensures Abandon(p, id).expired == p.expired + [id]
  {
    var longer := p.expired + [id];
    var p' := Abandon(p, id);
    assert id !in p.expired && id !in p.replied;
    assert forall x :: x in longer ==> IsUnanswered(p', x);
    DistinctFit(longer, Unanswered(p'));
  }

  lemma {:induction false} DistinctFit(ids: seq<Id>, s: set<Id>)
    requires NoDuplicates(ids) && forall x :: x in ids ==> x in s
    ensures |ids| <= |s|
  {
    if ids != [] {
      var last := ids[|ids| - 1];
      DistinctFit(ids[..|ids| - 1], s - {last});
    }
  }

  /** A caller's own step keeps every owed answer expected. */
  lemma ActKeepsExpectations(p: Peer, act: Act, owed: multiset<Id>, owed': multiset<Id>)
    requires PeerOk(p) && Expects(p, owed) && Quiet(Do(p, act))
    requires owed' == owed || (act.Calls? && Do(p, act).nextId == p.nextId + 1
        && Do(p, act).nextId in Do(p, act).pending && !p.closed
                               && owed' == owed + multiset{Do(p, act).nextId})
    ensures Expects(Do(p, act), owed')
  {
    var p' := Do(p, act);
    if act.Abandons? && act.id in p.pending {
      NothingForgotten(p, act.id);
    }
    forall id | id in owed'
      ensures owed'[id] == 1 && 1 <= id <= p'.nextId && (p'.closed || id in p'.pending || id in p'.expired)
    {
      if id in owed {
        assert id <= p.nextId;
      }
    }
  }

  /** A reply taken from the link is no longer owed, so forgetting its call loses nothing. */
  lemma ReplyKeepsExpectations(p: Peer, id: Id, body: Body, served: bool, sending: Sending, owed: multiset<Id>)
    requires PeerOk(p) && Expects(p, owed + multiset{id})
    ensures Expects(Receive(p, Reply(id, body), served, sending), owed)
  {
    WithoutOne(p.expired, id);
    var p' := Receive(p, Reply(id, body), served, sending);
    forall x | x in owed
      ensures owed[x] == 1 && 1 <= x <= p'.nextId && (p'.closed || x in p'.pending || x in p'.expired)
    {
      assert x in owed + multiset{id};
      assert (owed + multiset{id})[x] == 1;
    }
  }

  lemma ActKeepsLink(l: Link, act: Act)
    requires LinkOk(l) && Quiet(Do(l.a, act))
    ensures LinkOk(l.(a := Do(l.a, act)))
  {
    hide PeerOk, Do, Expects, Quiet;
    var a' := Do(l.a, act);
    DoKeeps(l.a, act);
    ActKeepsFrames(l.a, act);
    OwnRequests(l.a, l.fromA, act);
    OwnReplies(l.a, l.fromA, act);
    OwedWithCall(l.a, a', l.fromA, l.b, l.fromB, a'.nextId);
    ActKeepsExpectations(l.a, act, Owed(l.a, l.fromA, l.b, l.fromB), Owed(a', l.fromA, l.b, l.fromB));
    AddBoth(Ids(l.b.outbox[l.fromB..], true), multiset(a'.running) + Ids(a'.outbox[l.fromA..], false),
            multiset(l.a.running) + Ids(l.a.outbox[l.fromA..], false));
    OwedLess(l.b, l.fromB, l.fromB, l.a, l.fromA, a');
    ExpectsFewer(l.b, Owed(l.b, l.fromB, l.a, l.fromA), Owed(l.b, l.fromB, a', l.fromA));
  }

  lemma OwedWithCall(p: Peer, p': Peer, from: nat, responder: Peer, fromResponder: nat, id: Id)
    requires from <= |p.outbox| && p.outbox <= p'.outbox && fromResponder <= |responder.outbox|
    ensures Ids(p'.outbox[from..], true) == Ids(p.outbox[from..], true) ==>
              Owed(p', from, responder, fromResponder) == Owed(p, from, responder, fromResponder)
    ensures Ids(p'.outbox[from..], true) == Ids(p.outbox[from..], true) + multiset{id} ==>
              Owed(p', from, responder, fromResponder) == Owed(p, from, responder, fromResponder) + multiset{id}
  {
    hide Ids;
  }

  /** The caller's frames taken so far go from `from` to `from'`, while the responder becomes `p'`. */
  lemma OwedLess(caller: Peer, from: nat, from': nat, p: Peer, fromP: nat, p': Peer)
    requires from <= from' <= |caller.outbox| && fromP <= |p.outbox| && p.outbox <= p'.outbox
    requires Ids(caller.outbox[from'..], true) + (multiset(p'.running) + Ids(p'.outbox[fromP..], false))
             <= Ids(caller.outbox[from..], true) + (multiset(p.running) + Ids(p.outbox[fromP..], false))
    ensures Owed(caller, from', p', fromP) <= Owed(caller, from, p, fromP)
  {
    hide Ids;
    var q, r, s := Ids(caller.outbox[from..], true), multiset(p.running), Ids(p.outbox[fromP..], false);
    var q', r', s' := Ids(caller.outbox[from'..], true), multiset(p'.running), Ids(p'.outbox[fromP..], false);
    assert q + (r + s) == (q + r) + s;
    assert q' + (r' + s') == (q' + r') + s';
  }

  lemma AddBoth(x: multiset<Id>, y: multiset<Id>, z: multiset<Id>)
    requires y <= z
    ensures x + y <= x + z
  {
  }

  lemma ActKeepsFrames(p: Peer, act: Act)
    requires WellFormed(p)
    ensures WellFormed(Do(p, act))
  {
    DoSends(p, act);
    hide Do;
  }

  /** What hearing a frame leaves of a peer's own calls. */
  lemma HearKeepsCalls(p: Peer, frame: Frame, served: bool, sending: Sending)
    requires p.closed || (!frame.Reply? && !frame.StrangeReply? && !frame.Malformed?)
    ensures var p' := Receive(p, frame, served, sending);
            p'.pending == p.pending && p'.expired == p.expired && p'.closed == p.closed && p'.nextId == p.nextId
  {
  }

  /** A heard request takes a place or is answered; nothing else a peer hears adds to what it answers. */
  lemma HearKeepsAnswers(p: Peer, frame: Frame, served: bool, sending: Sending, from: nat)
    requires from <= |p.outbox| && WellFormed(p)
    ensures var p' := Receive(p, frame, served, sending);
            && WellFormed(p') && p.outbox <= p'.outbox
            && Ids(p'.outbox[from..], true) == Ids(p.outbox[from..], true)
            && multiset(p'.running) + Ids(p'.outbox[from..], false)
                 <= IdsOf(frame, true) + (multiset(p.running) + Ids(p.outbox[from..], false))
  {
    HearSends(p, frame, served, sending);
    hide Receive, Ids;
    var p' := Receive(p, frame, served, sending);
    if p'.outbox != p.outbox {
      var reply := Reply(frame.id, GoodError(NOT_RUN));
      IdsAppend(p.outbox, from, reply, true);
      IdsAppend(p.outbox, from, reply, false);
      assert IdsOf(reply, true) == multiset{} && IdsOf(reply, false) == multiset{frame.id};
    } else if p'.running != p.running {
      assert multiset(p'.running) == multiset(p.running) + multiset{frame.id};
      assert IdsOf(frame, true) == multiset{frame.id};
    }
  }

  lemma HearSends(p: Peer, frame: Frame, served: bool, sending: Sending)
    requires WellFormed(p)
    ensures var p' := Receive(p, frame, served, sending);
            && WellFormed(p')
            && (p'.outbox == p.outbox
                || (frame.Request? && p'.outbox == p.outbox + [Reply(frame.id, GoodError(NOT_RUN))]
                    && p'.running == p.running))
            && (p'.running == p.running || (frame.Request? && p'.running == p.running + [frame.id]))
  {
    match frame
    case Request(_) =>
    case Reply(_, _) =>
    case StrangeReply =>
    case Notification =>
    case Malformed =>
  }

  lemma HearKeepsLink(l: Link, served: bool, sending: Sending)
    requires LinkOk(l)
    ensures LinkOk(StepA(l, Hears(served, sending)))
  {
    hide PeerOk, Ids, Receive, Expects, WellFormed;
    if l.fromB < |l.b.outbox| {
      var frame := l.b.outbox[l.fromB];
      var l' := StepA(l, Hears(served, sending));
      ReceiveKeeps(l.a, frame, served, sending);
      HearKeepsAnswers(l.a, frame, served, sending, l.fromA);
      HearKeepsCaller(l, l', frame, served, sending);
      HearKeepsResponder(l, l', frame, served, sending);
    }
  }

  lemma HearKeepsResponder(l: Link, l': Link, frame: Frame, served: bool, sending: Sending)
    requires LinkOk(l) && l.fromB < |l.b.outbox| && frame == l.b.outbox[l.fromB]
        && l' == StepA(l, Hears(served, sending))
    requires l'.fromA <= |l'.a.outbox| && l'.fromB <= |l'.b.outbox|
    ensures Expects(l'.b, Owed(l'.b, l'.fromB, l'.a, l'.fromA))
  {
    hide PeerOk, Ids, Receive, Expects, WellFormed;
    HearKeepsAnswers(l.a, frame, served, sending, l.fromA);
    IdsTake(l.b.outbox, l.fromB, true);
    var rest, taken := Ids(l.b.outbox[l'.fromB..], true), IdsOf(frame, true);
    var answers := multiset(l.a.running) + Ids(l.a.outbox[l.fromA..], false);
    AddBoth(rest, multiset(l'.a.running) + Ids(l'.a.outbox[l.fromA..], false), taken + answers);
    assert rest + (taken + answers) == (taken + rest) + answers;
    OwedLess(l.b, l.fromB, l'.fromB, l.a, l.fromA, l'.a);
    ExpectsFewer(l.b, Owed(l.b, l.fromB, l.a, l.fromA), Owed(l'.b, l'.fromB, l'.a, l'.fromA));
  }

  lemma HearKeepsCaller(l: Link, l': Link, frame: Frame, served: bool, sending: Sending)
    requires LinkOk(l) && l.fromB < |l.b.outbox| && frame == l.b.outbox[l.fromB]
        && l' == StepA(l, Hears(served, sending))
    requires l'.fromA <= |l'.a.outbox| && l'.fromB <= |l'.b.outbox|
    ensures Expects(l'.a, Owed(l'.a, l'.fromA, l'.b, l'.fromB))
  {
    hide PeerOk, Ids, Receive, Expects;
    assert !frame.StrangeReply? && !frame.Malformed?;
    HearKeepsAnswers(l.a, frame, served, sending, l.fromA);
    IdsTake(l.b.outbox, l.fromB, false);
    var owed, owed' := Owed(l.a, l.fromA, l.b, l.fromB), Owed(l'.a, l'.fromA, l'.b, l'.fromB);
    assert owed == owed' + IdsOf(frame, false);
    if frame.Reply? {
      assert IdsOf(frame, false) == multiset{frame.id};
      ReplyKeepsExpectations(l.a, frame.id, frame.body, served, sending, owed');
    } else {
      assert owed == owed';
      HearKeepsCalls(l.a, frame, served, sending);
      SameCalls(l.a, l'.a, owed);
    }
  }

  lemma SameCalls(p: Peer, p': Peer, owed: multiset<Id>)
    requires Expects(p, owed)
    requires p'.pending == p.pending && p'.expired == p.expired && p'.closed == p.closed && p'.nextId == p.nextId
    ensures Expects(p', owed)
  {
  }

  // ---- Every run ----

  /** The link as its side `A`, or its side `B`, sees it. */
  function Side(l: Link, atA: bool): Link {
    if atA then l else Flip(l)
  }

  lemma SideNext(l: Link, step: Step, atA: bool)
    ensures step.AtA? == atA ==> Side(Next(l, step), atA) == StepA(Side(l, atA), step.event)
    ensures step.AtA? != atA ==> Side(Next(l, step), atA).a == Side(l, atA).a
  {
    hide Do, Receive;
  }

  lemma FlipKeepsLink(l: Link)
    requires LinkOk(l)
    ensures LinkOk(Flip(l))
  {
  }

  lemma StepKeepsLink(l: Link, step: Step)
    requires LinkOk(l) && Quiet(Next(l, step).a) && Quiet(Next(l, step).b)
    ensures LinkOk(Next(l, step))
  {
    hide PeerOk, Quiet, Expects, Ids, Do, Receive, WellFormed;
    match step
    case AtA(e) => EventKeepsLink(l, e);
    case AtB(e) => EventKeepsLink(Flip(l), e);
  }

  lemma EventKeepsLink(l: Link, e: Event)
    requires LinkOk(l) && Quiet(StepA(l, e).a)
    ensures LinkOk(StepA(l, e))
  {
    hide PeerOk, Quiet, Expects, Ids, Do, Receive, WellFormed;
    match e
    case Acts(act) => ActKeepsLink(l, act);
    case Hears(served, sending) => HearKeepsLink(l, served, sending);
  }

  lemma EventKeepsPeer(l: Link, e: Event)
    requires PeerOk(l.a)
    ensures PeerOk(StepA(l, e).a)
  {
    hide PeerOk, Do, Receive;
    match e
    case Acts(act) => DoKeeps(l.a, act);
    case Hears(served, sending) =>
      if l.fromB < |l.b.outbox| {
        ReceiveKeeps(l.a, l.b.outbox[l.fromB], served, sending);
      }
  }

  /** Over every run, calm or not, both peers keep their books. */
  lemma {:induction false} RunKeepsPeers(steps: seq<Step>, atA: bool)
    ensures PeerOk(Side(Run(steps), atA).a)
  {
    hide PeerOk, StepA, Next;
    if steps == [] {
      NewLinkIsOk();
    } else {
      var init, step := steps[..|steps| - 1], steps[|steps| - 1];
      RunKeepsPeers(init, atA);
      SideNext(Run(init), step, atA);
      EventKeepsPeer(Side(Run(init), atA), step.event);
    }
  }

  lemma EventKeepsOutcome(l: Link, e: Event, id: Id)
    requires PeerOk(l.a) && id in l.a.settled
    ensures id in StepA(l, e).a.settled && StepA(l, e).a.settled[id] == l.a.settled[id]
  {
    hide PeerOk, Do, Receive;
    match e
    case Acts(act) => SettledOnce(l.a, act, Notification, false, Accepted, id);
    case Hears(served, sending) =>
      if l.fromB < |l.b.outbox| {
        SettledOnce(l.a, Closes, l.b.outbox[l.fromB], served, sending, id);
      }
  }

  /** On either side every call settles at most once: however a run goes on, a settled call keeps its outcome. And
      once the connection has closed, no call is left unsettled. */
  lemma {:induction false} OutcomesAreFinal(steps: seq<Step>, atA: bool, k: nat, id: Id)
    requires k <= |steps|
    ensures var before, after := Side(Run(steps[..k]), atA).a, Side(Run(steps), atA).a;
            && (id in before.settled ==> id in after.settled && after.settled[id] == before.settled[id])
            && (after.closed && 1 <= id <= after.nextId ==> id in after.settled)
    decreases |steps|
  {
    RunKeepsPeers(steps, atA);
    assert SettleOk(Side(Run(steps), atA).a);
    hide PeerOk, StepA, Next;
    if k == |steps| {
      assert steps[..k] == steps;
    } else {
      var init, step := steps[..|steps| - 1], steps[|steps| - 1];
      assert init[..k] == steps[..k];
      OutcomesAreFinal(init, atA, k, id);
      RunKeepsPeers(init, atA);
      SideNext(Run(init), step, atA);
      if id in Side(Run(init), atA).a.settled {
        EventKeepsOutcome(Side(Run(init), atA), step.event, id);
      }
    }
  }

  // ---- What a call's outcome says ----

  /** The peer's handler of the request finished so, and its reply was handed to the socket. */
  predicate FinishesWith(p: Peer, e: Event, id: Id, body: Body) {
    && e.Acts? && e.act.Finishes? && e.act.sending.Accepted? && !p.closed
    && e.act.i < |p.running| && p.running[e.act.i] == id && e.act.body == body
  }

  /** The peer answered the request without a handler. */
  predicate TurnsAway(l: Link, e: Event, id: Id) {
    && e.Hears? && e.sending.Accepted? && !l.a.closed && l.fromB < |l.b.outbox| && l.b.outbox[l.fromB] == Request(id)
    && (!e.served || |l.a.running| >= MAX_IN_FLIGHT)
  }

  /** In the run, the side `atA` answered the request so. */
  predicate WasAnswered(steps: seq<Step>, atA: bool, id: Id, body: Body) {
    steps != [] &&
    var init, step := steps[..|steps| - 1], steps[|steps| - 1];
    || WasAnswered(init, atA, id, body)
    || (step.AtA? == atA && FinishesWith(Side(Run(init), atA).a, step.event, id, body))
    || (step.AtA? == atA && body == GoodError(NOT_RUN) && TurnsAway(Side(Run(init), atA), step.event, id))
  }

  predicate HasReply(frames: seq<Frame>, id: Id, body: Body) {
    Reply(id, body) in frames
  }

  lemma SentByAnswering(l: Link, e: Event, id: Id, body: Body)
    requires HasReply(StepA(l, e).a.outbox, id, body) && !HasReply(l.a.outbox, id, body)
    ensures FinishesWith(l.a, e, id, body) || (body == GoodError(NOT_RUN) && TurnsAway(l, e, id))
  {
    match e
    case Acts(act) =>
      DoSends(l.a, act);
      hide Do;
    case Hears(served, sending) =>
      if l.fromB < |l.b.outbox| {
        var frame := l.b.outbox[l.fromB];
        ReceiveSends(l.a, frame, served, sending);
        hide Receive;
      }
  }

  lemma ReceiveSends(p: Peer, frame: Frame, served: bool, sending: Sending)
    ensures Receive(p, frame, served, sending).outbox ==
            if !p.closed && frame.Request? && sending.Accepted? && (!served || |p.running| >= MAX_IN_FLIGHT)
            then p.outbox + [Reply(frame.id, GoodError(NOT_RUN))] else p.outbox
  {
  }

  lemma {:induction false} RepliesAreAnswers(steps: seq<Step>, atA: bool, id: Id, body: Body)
    requires HasReply(Side(Run(steps), atA).a.outbox, id, body)
    ensures WasAnswered(steps, atA, id, body)
  {
    hide HasReply, StepA, Next, FinishesWith, TurnsAway;
    if steps == [] {
      NewHasNone(atA, id, body);
    } else {
      var init, step := steps[..|steps| - 1], steps[|steps| - 1];
      SideNext(Run(init), step, atA);
      if HasReply(Side(Run(init), atA).a.outbox, id, body) {
        RepliesAreAnswers(init, atA, id, body);
      } else {
        SentByAnswering(Side(Run(init), atA), step.event, id, body);
      }
    }
  }

  lemma NewHasNone(atA: bool, id: Id, body: Body)
    ensures !HasReply(Side(NEW_LINK, atA).a.outbox, id, body)
  {
  }

  /** The outcomes that a reply brings are those of a reply the other side handed to its socket. */
  ghost predicate Answered(p: Peer, sent: seq<Frame>, id: Id) {
    id in p.settled ==>
      && (p.settled[id].Resolved? ==> HasReply(sent, id, GoodResult))
      && (p.settled[id].ErrorReply? ==> HasReply(sent, id, GoodError(p.settled[id].code)))
      && (p.settled[id].InvalidReply? ==> HasReply(sent, id, BadReply))
  }

  lemma OwnStepAnswers(l: Link, e: Event, id: Id)
    requires PeerOk(l.a) && Answered(l.a, l.b.outbox, id)
    ensures Answered(StepA(l, e).a, l.b.outbox, id)
  {
    if id in l.a.settled {
      EventKeepsOutcome(l, e, id);
      hide StepA, PeerOk;
    } else if id in StepA(l, e).a.settled {
      assert SettleOk(l.a);
      hide PeerOk, SettleOk;
      match e
      case Acts(act) => ActAnswersNone(l.a, act, id);
      case Hears(served, sending) =>
        if l.fromB < |l.b.outbox| {
          FrameAnswers(l.a, l.b.outbox[l.fromB], served, sending, id);
          hide Receive;
        }
    }
  }

  lemma ActAnswersNone(p: Peer, act: Act, id: Id)
    requires id !in p.settled && id in Do(p, act).settled
    ensures var o := Do(p, act).settled[id]; !o.Resolved? && !o.ErrorReply? && !o.InvalidReply?
  {
  }

  lemma FrameAnswers(p: Peer, frame: Frame, served: bool, sending: Sending, id: Id)
    requires id !in p.settled && id in Receive(p, frame, served, sending).settled
    ensures var o := Receive(p, frame, served, sending).settled[id];
            && (o.Resolved? ==> frame == Reply(id, GoodResult))
            && (o.ErrorReply? ==> frame == Reply(id, GoodError(o.code)))
            && (o.InvalidReply? ==> frame == Reply(id, BadReply))
  {
  }

  lemma OtherStepAnswers(p: Peer, l: Link, e: Event, id: Id)
    requires Answered(p, l.a.outbox, id)
    ensures Answered(p, StepA(l, e).a.outbox, id)
  {
    match e
    case Acts(act) => DoSends(l.a, act); hide Do;
    case Hears(served, sending) =>
      if l.fromB < |l.b.outbox| {
        ReceiveSends(l.a, l.b.outbox[l.fromB], served, sending);
        hide Receive;
      }
  }

  lemma {:induction false} RunAnswers(steps: seq<Step>, atA: bool, id: Id)
    ensures var l := Side(Run(steps), atA); Answered(l.a, l.b.outbox, id)
  {
    hide Answered, PeerOk, StepA;
    if steps == [] {
      NewAnswered(atA, id);
    } else {
      var init, step := steps[..|steps| - 1], steps[|steps| - 1];
      var l, other := Side(Run(init), atA), Side(Run(init), !atA);
      RunAnswers(init, atA, id);
      RunKeepsPeers(init, atA);
      SideNext(Run(init), step, atA);
      SideNext(Run(init), step, !atA);
      if step.AtA? == atA {
        OwnStepAnswers(l, step.event, id);
      } else {
        OtherStepAnswers(l.a, other, step.event, id);
      }
    }
  }

  lemma NewAnswered(atA: bool, id: Id)
    ensures var l := Side(NEW_LINK, atA); Answered(l.a, l.b.outbox, id)
  {
  }

  /** Over every run and on either side: a call resolves only if the other side's handler of its request finished with a
      result, is rejected with a code only if the handler finished with it or the request was turned away with it, and
      with a malformed answer only if the handler gave one. */
  lemma SettlesAsAnswered(steps: seq<Step>, atA: bool, id: Id)
    requires id in Side(Run(steps), atA).a.settled
    ensures var outcome := Side(Run(steps), atA).a.settled[id];
            && (outcome.Resolved? ==> WasAnswered(steps, !atA, id, GoodResult))
            && (outcome.ErrorReply? ==> WasAnswered(steps, !atA, id, GoodError(outcome.code)))
            && (outcome.InvalidReply? ==> WasAnswered(steps, !atA, id, BadReply))
  {
    RunAnswers(steps, atA, id);
    var l, other := Side(Run(steps), atA), Side(Run(steps), !atA);
    assert other.a == l.b;
    hide Run, WasAnswered, HasReply;
    var outcome := l.a.settled[id];
    if outcome.Resolved? {
      RepliesAreAnswers(steps, !atA, id, GoodResult);
    } else if outcome.ErrorReply? {
      RepliesAreAnswers(steps, !atA, id, GoodError(outcome.code));
    } else if outcome.InvalidReply? {
      RepliesAreAnswers(steps, !atA, id, BadReply);
    }
  }

  lemma NewLinkIsOk()
    ensures LinkOk(NEW_LINK)
  {
    assert PeerOk(NEW_PEER);
    assert NEW_PEER.outbox[0..] == [];
    assert Owed(NEW_PEER, 0, NEW_PEER, 0) == multiset{};
  }

  // ---- Late replies ----

  /** Throughout the run, the side never had more than `MAX_EXPIRED` calls given up on and unanswered. */
  predicate CalmAt(steps: seq<Step>, atA: bool) {
    forall k :: 0 <= k <= |steps| ==> Quiet(Side(Run(steps[..k]), atA).a)
  }

  predicate Calm(steps: seq<Step>) {
    CalmAt(steps, true) && CalmAt(steps, false)
  }

  lemma CalmOfMore(steps: seq<Step>, atA: bool)
    requires steps != []
    ensures CalmAt(steps, atA) <==> CalmAt(steps[..|steps| - 1], atA) && Quiet(Side(Run(steps), atA).a)
  {
    hide Quiet, Run;
    var init := steps[..|steps| - 1];
    assert forall k :: 0 <= k <= |init| ==> init[..k] == steps[..k];
    assert steps[..|steps|] == steps;
    if CalmAt(steps, atA) {
      forall k | 0 <= k <= |init|
        ensures Quiet(Side(Run(init[..k]), atA).a)
      {
        assert Quiet(Side(Run(steps[..k]), atA).a);
      }
    }
    if CalmAt(init, atA) && Quiet(Side(Run(steps), atA).a) {
      forall k | 0 <= k <= |steps|
        ensures Quiet(Side(Run(steps[..k]), atA).a)
      {
        if k < |steps| {
          assert Quiet(Side(Run(init[..k]), atA).a);
        }
      }
    }
  }

  lemma {:induction false} RunKeepsLink(steps: seq<Step>)
    requires Calm(steps)
    ensures LinkOk(Run(steps))
  {
    hide Quiet, Next, Ids, CalmAt, LinkOk;
    if steps == [] {
      NewLinkIsOk();
    } else {
      CalmOfMore(steps, true);
      CalmOfMore(steps, false);
      RunKeepsLink(steps[..|steps| - 1]);
      StepKeepsLink(Run(steps[..|steps| - 1]), steps[|steps| - 1]);
    }
  }

  /** While neither peer has more than 1024 calls given up on and unanswered, a frame closes the peer that
      hears it only if it answers a pending call with a body the caller's schema refuses: no late reply does. */
  lemma LateRepliesNeverClose(steps: seq<Step>, atA: bool, served: bool, sending: Sending)
    requires Calm(steps)
    ensures var l := Side(Run(steps), atA);
            && l.fromB <= |l.b.outbox|
            && (!l.a.closed && l.fromB < |l.b.outbox| && StepA(l, Hears(served, sending)).a.closed ==>
                  var frame := l.b.outbox[l.fromB];
                  frame.Reply? && frame.body.BadReply? && frame.id in l.a.pending)
  {
    hide Calm, Ids, PeerOk, Receive, Run;
    RunKeepsLink(steps);
    FlipKeepsLink(Run(steps));
    HearClosesOnlyOnBadReply(Side(Run(steps), atA), served, sending);
  }

  lemma HearClosesOnlyOnBadReply(l: Link, served: bool, sending: Sending)
    requires LinkOk(l)
    ensures !l.a.closed && l.fromB < |l.b.outbox| && StepA(l, Hears(served, sending)).a.closed ==>
              var frame := l.b.outbox[l.fromB];
              frame.Reply? && frame.body.BadReply? && frame.id in l.a.pending
  {
    hide Ids, PeerOk, Receive;
    if !l.a.closed && l.fromB < |l.b.outbox| {
      var frame := l.b.outbox[l.fromB];
      IdsTake(l.b.outbox, l.fromB, false);
      if frame.Reply? {
        assert IdsOf(frame, false) == multiset{frame.id};
        assert frame.id in Owed(l.a, l.fromA, l.b, l.fromB);
        ReplySettlesItsCall(l.a, frame.id, frame.body, served, sending);
      } else {
        HearKeepsCalls(l.a, frame, served, sending);
      }
    }
  }

  /** Every call given up on and unanswered is among the IDs kept for late replies. */
  ghost predicate Remembers(p: Peer) {
    forall id: Id :: IsUnanswered(p, id) ==> id in p.expired
  }

  lemma RemembersIsQuiet(p: Peer)
    requires PeerOk(p) && Remembers(p)
    ensures Quiet(p)
  {
    DistinctCount(Unanswered(p), p.expired);
  }

  lemma {:induction false} DistinctCount(s: set<Id>, ids: seq<Id>)
    requires forall x :: x in s ==> x in ids
    ensures |s| <= |ids|
  {
    if ids == [] {
      assert s == {};
    } else {
      var last := ids[|ids| - 1];
      DistinctCount(s - {last}, ids[..|ids| - 1]);
    }
  }

  /** A peer that remembers every call forgets one by its own act only when it has given up on too many; and what is
      forgotten stays so. */
  lemma ActRemembers(p: Peer, act: Act)
    requires PeerOk(p) && !Do(p, act).closed
    ensures Remembers(Do(p, act)) <==> Remembers(p) && Quiet(Do(p, act))
  {
    DoKeeps(p, act);
    var p' := Do(p, act);
    if Remembers(p') {
      RemembersIsQuiet(p');
      forall id: Id | IsUnanswered(p, id)
        ensures id in p.expired
      {
        SettledOnce(p, act, Notification, false, Accepted, id);
        assert IsUnanswered(p', id);
        ActForgetsNoMore(p, act, id);
      }
    }
    if Remembers(p) && Quiet(p') {
      if act.Abandons? && act.id in p.pending {
        NothingForgotten(p, act.id);
      }
      forall id: Id | IsUnanswered(p', id)
        ensures id in p'.expired
      {
        ActGivesUp(p, act, id);
      }
    }
  }

  lemma ActForgetsNoMore(p: Peer, act: Act, id: Id)
    requires PeerOk(p) && IsUnanswered(p, id) && id in Do(p, act).expired
    ensures id in p.expired
  {
  }

  /** Only giving a call up leaves it unanswered, and only then does an ID leave the set. */
  lemma ActGivesUp(p: Peer, act: Act, id: Id)
    requires PeerOk(p) && IsUnanswered(Do(p, act), id)
    ensures IsUnanswered(p, id) || (act == Abandons(id) && id in p.pending)
    ensures !(act.Abandons? && act.id in p.pending) ==> Do(p, act).expired == p.expired
  {
  }

  lemma ReceiveRemembers(p: Peer, frame: Frame, served: bool, sending: Sending)
    requires PeerOk(p) && !Receive(p, frame, served, sending).closed
    ensures Remembers(Receive(p, frame, served, sending)) <==> Remembers(p) && Quiet(Receive(p, frame, served, sending))
  {
    ReceiveKeeps(p, frame, served, sending);
    var p' := Receive(p, frame, served, sending);
    if Remembers(p') {
      RemembersIsQuiet(p');
    }
    forall id: Id
      ensures (IsUnanswered(p, id) && id !in p.expired) <==> (IsUnanswered(p', id) && id !in p'.expired)
    {
      ReceiveForgetsNone(p, frame, served, sending, id);
    }
    assert Remembers(p) <==> Remembers(p');
  }

  lemma ReceiveForgetsNone(p: Peer, frame: Frame, served: bool, sending: Sending, id: Id)
    requires PeerOk(p) && !Receive(p, frame, served, sending).closed
    ensures var p' := Receive(p, frame, served, sending);
            (IsUnanswered(p, id) && id !in p.expired) <==> (IsUnanswered(p', id) && id !in p'.expired)
  {
    WithoutOne(p.expired, if frame.Reply? then frame.id else 0);
  }

  lemma EventRemembers(l: Link, e: Event)
    requires PeerOk(l.a) && !StepA(l, e).a.closed
    ensures Remembers(StepA(l, e).a) <==> Remembers(l.a) && Quiet(StepA(l, e).a)
    ensures !l.a.closed
  {
    hide PeerOk, Remembers, Quiet;
    match e
    case Acts(act) =>
      hide Do;
      ActRemembers(l.a, act);
      StaysClosed(l.a, act, Notification, false, Accepted);
    case Hears(served, sending) =>
      hide Receive;
      if l.fromB < |l.b.outbox| {
        ReceiveRemembers(l.a, l.b.outbox[l.fromB], served, sending);
        StaysClosed(l.a, Closes, l.b.outbox[l.fromB], served, sending);
      } else {
        RemembersMeansQuiet(l.a);
      }
  }

  lemma RemembersMeansQuiet(p: Peer)
    requires PeerOk(p)
    ensures Remembers(p) ==> Quiet(p)
  {
    if Remembers(p) {
      RemembersIsQuiet(p);
    }
  }

  lemma StaysClosed(p: Peer, act: Act, frame: Frame, served: bool, sending: Sending)
    ensures p.closed ==> Do(p, act).closed && Receive(p, frame, served, sending).closed
  {
  }

  /** On an open connection, the run was calm exactly when the peer remembers every call it gave up on. */
  lemma {:induction false} CalmIsRemembered(steps: seq<Step>, atA: bool)
    requires !Side(Run(steps), atA).a.closed
    ensures CalmAt(steps, atA) <==> Remembers(Side(Run(steps), atA).a)
  {
    hide PeerOk, Remembers, Quiet, StepA, Next, CalmAt;
    if steps == [] {
      NothingToRemember(atA);
    } else {
      var init, step := steps[..|steps| - 1], steps[|steps| - 1];
      CalmOfMore(steps, atA);
      RunKeepsPeers(init, atA);
      SideNext(Run(init), step, atA);
      if step.AtA? == atA {
        EventRemembers(Side(Run(init), atA), step.event);
      } else {
        RemembersMeansQuiet(Side(Run(init), atA).a);
      }
      CalmIsRemembered(init, atA);
    }
  }

  lemma NothingToRemember(atA: bool)
    ensures CalmAt([], atA) && Remembers(NEW_PEER) && Side(Run([]), atA).a == NEW_PEER
  {
    assert Unanswered(NEW_PEER) == {};
    var none: seq<Step> := [];
    assert none[..0] == none;
  }

  /** The exact condition: over every run that leaves the connection open, no late reply would close it exactly when
      there were never more than 1024 calls given up on and unanswered. */
  lemma LateRepliesAreHarmlessIffCalm(steps: seq<Step>, atA: bool, body: Body, served: bool, sending: Sending)
    requires !Side(Run(steps), atA).a.closed
    ensures var p := Side(Run(steps), atA).a;
            CalmAt(steps, atA) <==>
              forall id: Id :: IsUnanswered(p, id) ==> !Receive(p, Reply(id, body), served, sending).closed
  {
    hide Quiet, Run, CalmAt;
    CalmIsRemembered(steps, atA);
    RunKeepsPeers(steps, atA);
    var p := Side(Run(steps), atA).a;
    forall id: Id | IsUnanswered(p, id)
      ensures Receive(p, Reply(id, body), served, sending).closed <==> id !in p.expired
    {
      LateReplyCloses(p, id, body, served, sending);
    }
  }

  /** The late reply to a call given up on closes the connection exactly when its ID was forgotten. */
  lemma LateReplyCloses(p: Peer, id: Id, body: Body, served: bool, sending: Sending)
    requires PeerOk(p) && !p.closed && IsUnanswered(p, id)
    ensures Receive(p, Reply(id, body), served, sending).closed <==> id !in p.expired
  {
    assert id !in p.pending;
    ReplySettlesItsCall(p, id, body, served, sending);
  }

  // ---- One call too many ----

  /** `n` calls, each given up on before the next. */
  function Flood(n: nat): seq<Step> {
    if n == 0 then [] else Flood(n - 1) + [AtA(Acts(Calls(false, Accepted)))] + [AtA(Acts(Abandons(n)))]
  }

  function FirstIds(n: nat): (ids: seq<Id>)
    ensures |ids| == n && forall i :: 0 <= i < n ==> ids[i] == i + 1
  {
    if n == 0 then [] else FirstIds(n - 1) + [n]
  }

  function FloodedPeer(n: nat): (p: Peer)
    ensures |p.outbox| == n && (n > 0 ==> p.outbox[0] == Request(1)) && p.settled.Keys == set id | id in FirstIds(n)
    ensures forall id :: id in p.settled ==> p.settled[id] == Abandoned
  {
    if n == 0 then NEW_PEER
    else
      var before := FloodedPeer(n - 1);
      Peer(false, n, {}, Expire(before.expired, n), [], before.calls + [IssuedCall(n)],
           before.settled[n := Abandoned], {}, before.outbox + [Request(n)])
  }

  lemma {:induction false} FloodedExpired(n: nat)
    requires n <= MAX_EXPIRED
    ensures FloodedPeer(n).expired == FirstIds(n)
  {
    if n > 0 {
      FloodedExpired(n - 1);
    }
  }

  lemma {:induction false} FloodFloods(n: nat)
    requires n <= MAX_EXPIRED + 1
    ensures Run(Flood(n)) == NEW_LINK.(a := FloodedPeer(n))
    ensures FloodedPeer(n).nextId == n && FloodedPeer(n).pending == {} && !FloodedPeer(n).closed
  {
    if n > 0 {
      FloodFloods(n - 1);
      RunMore(Flood(n - 1), AtA(Acts(Calls(false, Accepted))));
      RunMore(Flood(n - 1) + [AtA(Acts(Calls(false, Accepted)))], AtA(Acts(Abandons(n))));
      FloodRound(n);
    }
  }

  lemma FloodRound(n: nat)
    requires 0 < n && FloodedPeer(n - 1).nextId == n - 1 && FloodedPeer(n - 1).pending == {}
        && !FloodedPeer(n - 1).closed
    ensures Do(Do(FloodedPeer(n - 1), Calls(false, Accepted)), Abandons(n)) == FloodedPeer(n)
  {
    var before := FloodedPeer(n - 1);
    var called := Do(before, Calls(false, Accepted));
    assert called.pending == {n};
    assert n - 1 > 0 ==> before == FloodedPeer(n - 1);
    FloodedShape(n - 1);
    assert called == before.(nextId := n, pending := {n}, calls := before.calls + [IssuedCall(n)],
        outbox := before.outbox + [Request(n)]);
    assert {n} - {n} == {};
  }

  lemma FloodedShape(n: nat)
    ensures FloodedPeer(n).running == [] && FloodedPeer(n).replied == {}
  {
  }

  lemma RunMore(steps: seq<Step>, step: Step)
    ensures Run(steps + [step]) == Next(Run(steps), step)
  {
    assert (steps + [step])[..|steps|] == steps;
  }

  /** After 1025 calls given up on, the other side hears the first request, answers it, and its answer arrives. */
  function TooManyGivenUp(): seq<Step> {
    Flood(MAX_EXPIRED + 1) + [AtB(Hears(true, Accepted))] + [AtB(Acts(Finishes(0, GoodResult, Accepted)))]
  }

  /** That run closes the connection: it is open until the good answer to a call it gave up on is heard. */
  lemma OneTooManyCloses()
    ensures var l := Run(TooManyGivenUp());
            && !l.a.closed && l.fromB < |l.b.outbox| && l.b.outbox[l.fromB] == Reply(1, GoodResult)
                 && IsUnanswered(l.a, 1)
            && Run(TooManyGivenUp() + [AtA(Hears(false, Accepted))]).a.closed
  {
    hide Flood, FirstIds, FloodedPeer, Run;
    var flood, n := Flood(MAX_EXPIRED + 1), MAX_EXPIRED + 1;
    FloodFloods(n);
    FloodForgets(n);
    var p := FloodedPeer(n);
    RunMore(flood, AtB(Hears(true, Accepted)));
    RunMore(flood + [AtB(Hears(true, Accepted))], AtB(Acts(Finishes(0, GoodResult, Accepted))));
    RunMore(TooManyGivenUp(), AtA(Hears(false, Accepted)));
    var heard := NEW_PEER.(running := [1]);
    assert Run(flood + [AtB(Hears(true, Accepted))]) == Link(p, 1, heard, 0);
    assert Finish(heard, 0, GoodResult, Accepted) == NEW_PEER.(outbox := [Reply(1, GoodResult)]);
    assert Run(TooManyGivenUp()) == Link(p, 1, NEW_PEER.(outbox := [Reply(1, GoodResult)]), 0);
  }

  lemma FullSetForgets(ids: seq<Id>, n: Id)
    requires |ids| == MAX_EXPIRED && n == MAX_EXPIRED + 1 && forall i :: 0 <= i < |ids| ==> ids[i] == i + 1
    ensures 1 !in Expire(ids, n)
  {
    assert n !in ids;
    var left := (ids + [n])[1..];
    assert forall i :: 0 <= i < |left| ==> left[i] == i + 2;
  }

  lemma FloodedStep(n: nat)
    requires n > 0
    ensures var before, p := FloodedPeer(n - 1), FloodedPeer(n);
            p.expired == Expire(before.expired, n) && p.pending == {} && p.replied == {}
  {
    hide Expire;
  }

  lemma FirstWasGivenUp(n: nat)
    requires n > 0
    ensures 1 in FloodedPeer(n).settled && FloodedPeer(n).settled[1].Abandoned?
  {
    hide FloodedPeer;
    assert FirstIds(n)[0] == 1;
    assert 1 in FirstIds(n);
  }

  lemma FloodForgets(n: nat)
    requires n == MAX_EXPIRED + 1
    ensures var p := FloodedPeer(n);
            1 !in p.expired && IsUnanswered(p, 1) && 1 !in p.pending
  {
    hide FloodedPeer, Expire, FirstIds;
    FloodedExpired(n - 1);
    FloodedStep(n);
    FirstWasGivenUp(n);
    FullSetForgets(FirstIds(n - 1), n);
  }
}
