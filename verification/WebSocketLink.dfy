/** The sending side of JSON-RPC frames over a WebSocket (`createWebSocketLink`): one text message per frame, handed
    over only while the WebSocket holds nothing unsent. */
module WebSocketLink {
  import opened Bytes

  type Frame = nat

  /** What the WebSocket does with a message: writes it out, holds it, drops it, or throws. */
  datatype Sending = WrittenOut | Held | Dropped | Throws

  /** `handed` are the frames the WebSocket took, of which it holds the last `unsent`; `accepted` every frame `send`
      took while open. */
  datatype Link = Link(closed: bool, queue: seq<Frame>, handed: seq<Frame>, unsent: nat, accepted: seq<Frame>)

  const NEW_LINK := Link(false, [], [], 0, [])

  function Shut(l: Link): Link {
    l.(closed := true, queue := [])
  }

  /** Handing over the head of the queue. */
  function Hand(l: Link, sending: Sending): Link
    requires l.queue != []
  {
    match sending
    case WrittenOut => l.(queue := l.queue[1..], handed := l.handed + [l.queue[0]])
    case Held => l.(queue := l.queue[1..], handed := l.handed + [l.queue[0]], unsent := l.unsent + 1)
    case Dropped => Shut(l)
    case Throws => Shut(l)
  }

  /** The WebSocket's answers to the messages of one flush; it writes out any past them. */
  function Next(answers: seq<Sending>): Sending {
    if answers == [] then WrittenOut else answers[0]
  }

  function Rest(answers: seq<Sending>): seq<Sending> {
    if answers == [] then [] else answers[1..]
  }

  function Flush(l: Link, answers: seq<Sending>): Link
    decreases |l.queue|
  {
    if l.queue == [] || l.closed || l.unsent > 0 then l else Flush(Hand(l, Next(answers)), Rest(answers))
  }

  /** A frame within the cap; `send` throws on a closed link. */
  function Send(l: Link, frame: Frame, answers: seq<Sending>): Link {
    if l.closed then l
    else
      var queued := l.(queue := l.queue + [frame], accepted := l.accepted + [frame]);
      if |queued.queue| == 1 then Flush(queued, answers) else queued
  }

  datatype Event =
    | Sends(frame: Frame, answers: seq<Sending>)
    | WritesOut
    | Drains(answers: seq<Sending>)
    | Closes

  /** `WritesOut`: the WebSocket wrote out what it held, after which it owes a drain. */
  function Step(l: Link, e: Event): Link {
    match e
    case Sends(frame, answers) => Send(l, frame, answers)
    case WritesOut => l.(unsent := 0)
    case Drains(answers) => Flush(l, answers)
    case Closes => Shut(l)
  }

  function Run(events: seq<Event>): Link {
    if events == [] then NEW_LINK else Step(Run(events[..|events| - 1]), events[|events| - 1])
  }

  /** Nothing the WebSocket took is lost or out of order, and it holds at most one frame. */
  ghost predicate LinkOk(l: Link) {
    && l.unsent <= 1
    && (if l.closed then l.queue == [] && l.handed <= l.accepted else l.handed + l.queue == l.accepted)
  }

  lemma HandKeeps(l: Link, sending: Sending)
    requires LinkOk(l) && l.queue != [] && !l.closed && l.unsent == 0
    ensures LinkOk(Hand(l, sending))
  {
    assert l.queue == [l.queue[0]] + l.queue[1..];
    Associate(l.handed, [l.queue[0]], l.queue[1..]);
  }

  /** A flush leaves frames queued only behind one the WebSocket holds. */
  lemma {:induction false} FlushKeeps(l: Link, answers: seq<Sending>)
    requires LinkOk(l)
    ensures LinkOk(Flush(l, answers)) && l.handed <= Flush(l, answers).handed
        && Flush(l, answers).accepted == l.accepted
    ensures !Flush(l, answers).closed && Flush(l, answers).queue != [] ==> Flush(l, answers).unsent == 1
    ensures l.closed ==> Flush(l, answers) == l
    decreases |l.queue|
  {
    if l.queue != [] && !l.closed && l.unsent == 0 {
      HandKeeps(l, Next(answers));
      FlushKeeps(Hand(l, Next(answers)), Rest(answers));
    }
  }

  /** Since its last flush, the WebSocket holds a frame or has written it out: then it owes a drain. */
  ghost predicate DrainOwed(events: seq<Event>) {
    events != [] && (events[|events| - 1].WritesOut?
      || (!events[|events| - 1].Drains? && DrainOwed(events[..|events| - 1])))
  }

  lemma SendKeeps(l: Link, frame: Frame, answers: seq<Sending>)
    requires LinkOk(l)
    ensures LinkOk(Send(l, frame, answers)) && l.handed <= Send(l, frame, answers).handed
    ensures var l' := Send(l, frame, answers);
            !l'.closed && l'.queue != [] ==> l'.unsent == 1 || (l'.unsent == l.unsent && l.queue != [])
  {
    if !l.closed {
      Associate(l.handed, l.queue, [frame]);
      FlushKeeps(l.(queue := l.queue + [frame], accepted := l.accepted + [frame]), answers);
    }
  }

  /** Over every run: the frames handed over and those queued are all the frames accepted, in order, until the link
      closes; a closed link handed over a prefix of them. The WebSocket never holds more than one frame. And a frame
      waits on an open link only while the WebSocket holds one, or owes a drain for having written it out. */
  lemma {:induction false} NothingLostOrStuck(events: seq<Event>)
    ensures var l := Run(events);
            && LinkOk(l) && l.handed <= l.accepted
            && (!l.closed && l.queue != [] ==> l.unsent == 1 || DrainOwed(events))
  {
    if events != [] {
      var l, e := Run(events[..|events| - 1]), events[|events| - 1];
      NothingLostOrStuck(events[..|events| - 1]);
      match e
      case Sends(frame, answers) => SendKeeps(l, frame, answers);
      case Drains(answers) => FlushKeeps(l, answers);
      case _ =>
    }
  }

  /** A drain that finds nothing held hands on what waits, up to the first frame that is held. */
  lemma DrainGoesOn(l: Link, answers: seq<Sending>)
    requires LinkOk(l) && !l.closed && l.unsent == 0 && l.queue != []
    ensures var l' := Flush(l, answers); l'.closed || |l'.handed| > |l.handed|
  {
    FlushKeeps(Hand(l, Next(answers)), Rest(answers));
  }

  /** The WebSocket's answer to message `j` of a flush. */
  function AnswerAt(answers: seq<Sending>, j: nat): Sending {
    if j < |answers| then answers[j] else WrittenOut
  }

  /** Message `k` of a flush is the first that the WebSocket does not write out, if it is not past the queue. */
  predicate StopsAt(l: Link, answers: seq<Sending>, k: nat) {
    && k <= |l.queue| && (forall j: nat :: j < k ==> AnswerAt(answers, j).WrittenOut?)
    && (k < |l.queue| ==> !AnswerAt(answers, k).WrittenOut?)
  }

  /** A flush hands over the frames that are written out and one that is held, which it stops behind; a frame that is
      dropped closes the link. */
  lemma {:induction false} FlushHands(l: Link, answers: seq<Sending>, k: nat)
    requires !l.closed && l.unsent == 0 && StopsAt(l, answers, k)
    ensures var l' := Flush(l, answers);
            && l'.accepted == l.accepted
            && (k == |l.queue| ==> !l'.closed && l'.handed == l.handed + l.queue && l'.queue == [] && l'.unsent == 0)
            && (k < |l.queue| && AnswerAt(answers, k).Held? ==>
                  && !l'.closed && l'.handed == l.handed + l.queue[..k + 1] && l'.queue == l.queue[k + 1..]
                  && l'.unsent == 1)
            && (k < |l.queue| && !AnswerAt(answers, k).Held? ==>
                  l'.closed && l'.handed == l.handed + l.queue[..k] && l'.queue == [])
    decreases k
  {
    if l.queue != [] {
      var next, rest := Hand(l, Next(answers)), Rest(answers);
      assert AnswerAt(answers, 0) == Next(answers);
      if k > 0 {
        StopsLater(l, answers, k);
        HandedOn(l.handed, l.queue, k);
        if k < |l.queue| {
          HandedOn(l.handed, l.queue, k + 1);
        }
        assert l.queue[..|l.queue|] == l.queue && next.queue[..|next.queue|] == next.queue;
        hide StopsAt, AnswerAt;
        FlushHands(next, rest, k - 1);
      } else {
        assert l.queue[..1] == [l.queue[0]] && l.handed + l.queue[..0] == l.handed;
      }
    } else {
      assert l.handed + [] == l.handed;
    }
  }

  lemma StopsLater(l: Link, answers: seq<Sending>, k: nat)
    requires StopsAt(l, answers, k) && k > 0
    ensures StopsAt(Hand(l, Next(answers)), Rest(answers), k - 1)
    ensures AnswerAt(Rest(answers), k - 1) == AnswerAt(answers, k)
  {
    assert AnswerAt(answers, 0) == Next(answers);
    assert forall j: nat :: AnswerAt(Rest(answers), j) == AnswerAt(answers, j + 1);
  }

  lemma HandedOn(handed: seq<Frame>, queue: seq<Frame>, k: nat)
    requires 0 < k <= |queue|
    ensures (handed + [queue[0]]) + queue[1..][..k - 1] == handed + queue[..k]
    ensures queue[1..][k - 1..] == queue[k..]
  {
    assert [queue[0]] + queue[1..][..k - 1] == queue[..k];
    Associate(handed, [queue[0]], queue[1..][..k - 1]);
  }

  /** In every run, a frame sent alone on an open link goes out, is held, or closes it; behind others, or one that is
      held, it waits. A closed link takes none. */
  lemma SendGoesOut(events: seq<Event>, frame: Frame, answers: seq<Sending>)
    ensures var l, l' := Run(events), Run(events + [Sends(frame, answers)]);
            && (l.closed ==> l' == l)
            && (!l.closed ==> l'.accepted == l.accepted + [frame])
            && (!l.closed && (l.queue != [] || l.unsent > 0) ==>
                  l' == l.(queue := l.queue + [frame], accepted := l.accepted + [frame]))
            && (!l.closed && l.queue == [] && l.unsent == 0 ==>
                  if AnswerAt(answers, 0).WrittenOut? || AnswerAt(answers, 0).Held? then
                    && !l'.closed && l'.handed == l.handed + [frame] && l'.queue == []
                    && l'.unsent == (if AnswerAt(answers, 0).Held? then 1 else 0)
                  else l'.closed && l'.handed == l.handed)
  {
    var l := Run(events);
    assert (events + [Sends(frame, answers)])[..|events|] == events;
    if !l.closed && l.queue == [] && l.unsent == 0 {
      var queued := l.(queue := l.queue + [frame], accepted := l.accepted + [frame]);
      FlushHands(queued, answers, if AnswerAt(answers, 0).WrittenOut? then 1 else 0);
    }
  }

  /** Once the WebSocket wrote out what it held, a drain hands over all that waits, if all of that is written out. */
  lemma DrainHandsAll(events: seq<Event>)
    requires !Run(events).closed
    ensures var l := Run(events + [WritesOut] + [Drains([])]);
            !l.closed && l.queue == [] && l.handed == l.accepted == Run(events).accepted
  {
    var l := Run(events);
    NothingLostOrStuck(events);
    assert (events + [WritesOut])[..|events|] == events;
    assert (events + [WritesOut] + [Drains([])])[..|events| + 1] == events + [WritesOut];
    FlushHands(l.(unsent := 0), [], |l.queue|);
  }

  // ---- The link ----

  class OutboundLink {
    var closed: bool
    var queue: seq<Frame>
    var handed: seq<Frame>
    var unsent: nat
    var accepted: seq<Frame>

    ghost function Model(): Link
      reads this
    {
      Link(closed, queue, handed, unsent, accepted)
    }

    constructor ()
      ensures Model() == NEW_LINK
    {
      closed, queue, handed, unsent, accepted := false, [], [], 0, [];
    }

    method ShutLink()
      modifies this`closed, this`queue
      ensures Model() == Shut(old(Model()))
    {
      closed, queue := true, [];
    }

    method FlushQueue(answers: seq<Sending>)
      modifies this
      ensures Model() == Flush(old(Model()), answers)
    {
      var left := answers;
      while queue != [] && !closed
        invariant Flush(old(Model()), answers) == Flush(Model(), left)
        decreases |queue|
      {
        if unsent > 0 {
          return;
        }
        var sending := Next(left);
        left := Rest(left);
        if sending.Throws? || sending.Dropped? {
          ShutLink();
          return;
        }
        handed := handed + [queue[0]];
        queue := queue[1..];
        if sending.Held? {
          unsent := unsent + 1;
        }
      }
    }

    method SendFrame(frame: Frame, answers: seq<Sending>) returns (thrown: bool)
      modifies this
      ensures Model() == Send(old(Model()), frame, answers) && thrown == old(closed)
    {
      if closed {
        return true;
      }
      queue := queue + [frame];
      accepted := accepted + [frame];
      if |queue| == 1 {
        FlushQueue(answers);
      }
      thrown := false;
    }
  }
}
