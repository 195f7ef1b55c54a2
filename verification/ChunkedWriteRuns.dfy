/** A long write over a network that may deliver any chunk sent so far any number of times, at any time and in any
    order, to a node that may restart, while other writes finish there. */
module ChunkedWriteRuns {
  import opened Bytes
  import opened ChunkedWrite

  datatype Status = Sending | Resolved | Failed

  /** `next` is the chunk being sent; `answers` are those the node gave, by chunk; `initial` is what was at the path.
      For the proofs: `placed` says whether this write was placed, `torn` whether placing it ever failed in part. */
  datatype World = World(
    id: WriteId, source: seq<Byte>, initial: Option<seq<Byte>>,
    node: Store, next: nat, answers: set<(nat, Answer)>, status: Status, placed: bool, torn: bool)

  function NewWorld(id: WriteId, source: seq<Byte>, node: Store): World {
    World(id, source, node.target, node, 0, {}, Sending, false, false)
  }

  datatype Event =
    | Deliver(chunk: nat, disk: Disk)
    | Restart
    | OtherFinishes(other: WriteId)
    | Hear(answer: Answer)
    | GiveUp

  function Deliveries(w: World, chunk: nat, disk: Disk): World
    requires chunk < ChunkCount(|w.source|)
  {
    var sent := ChunkAt(w.source, chunk);
    var (node, answer) := WriteChunk(w.node, w.id, sent, disk);
    w.(node := node, answers := w.answers + {(chunk, answer)},
       placed := w.placed || (sent.last && answer.Done?),
       torn := w.torn || (disk.PlaceFails? && disk.left.Some?))
  }

  /** The sender hears some answer to the chunk it is sending: done sends the next or ends the write, anything else
      fails it. A call with no answer in time is resent, which adds nothing here, or given up on. */
  function Heard(w: World, answer: Answer): World {
    if !answer.Done? then w.(status := Failed)
    else if w.next == ChunkCount(|w.source|) - 1 then w.(status := Resolved)
    else w.(next := w.next + 1)
  }

  function Step(w: World, e: Event): World {
    match e
    case Deliver(chunk, disk) =>
      if chunk <= w.next && chunk < ChunkCount(|w.source|) then Deliveries(w, chunk, disk) else w
    case Restart => w.(node := w.node.(kept := None, finished := []))
    case OtherFinishes(other) => if other == w.id then w
      else w.(node := w.node.(finished := Remember(w.node.finished, other)))
    case Hear(answer) => if w.status.Sending? && (w.next, answer) in w.answers then Heard(w, answer) else w
    case GiveUp => if w.status.Sending? then w.(status := Failed) else w
  }

  function Run(w: World, events: seq<Event>): World {
    if events == [] then w else Step(Run(w, events[..|events| - 1]), events[|events| - 1])
  }

  // ---- Safety ----

  predicate Prefix(a: seq<Byte>, b: seq<Byte>) {
    a <= b
  }

  ghost predicate TargetOk(w: World) {
    && (w.node.target == w.initial || (w.node.target.Some? && Prefix(w.node.target.value, w.source)))
    && (!w.torn ==> w.node.target == if w.placed then Some(w.source) else w.initial)
  }

  ghost predicate WorldOk(w: World) {
    && w.next < ChunkCount(|w.source|)
    && Prefix(KeptBytes(w.node), w.source)
    && TargetOk(w)
    && (w.id in w.node.finished ==> w.placed)
    && ((ChunkCount(|w.source|) - 1, Done) in w.answers ==> w.placed)
    && (w.status.Resolved? ==> w.placed)
  }

  /** A chunk written where the kept bytes reach keeps a prefix of the source, all of it for the last chunk. */
  lemma KeepExtends(source: seq<Byte>, kept: seq<Byte>, i: nat, part: nat)
    requires Prefix(kept, source) && i < ChunkCount(|source|) && ChunkAt(source, i).offset <= |kept|
    ensures var chunk := ChunkAt(source, i);
            && Prefix(kept[..chunk.offset] + Take(chunk.data, part), source)
            && Prefix(kept[..chunk.offset] + chunk.data, source)
            && (chunk.last ==> kept[..chunk.offset] + chunk.data == source)
  {
    var chunk := ChunkAt(source, i);
    var end := EndOf(|source|, i);
    assert kept[..chunk.offset] + chunk.data == source[..end];
    assert Take(chunk.data, part) <= chunk.data;
    assert kept[..chunk.offset] + Take(chunk.data, part) <= kept[..chunk.offset] + chunk.data;
    assert chunk.last ==> source[..end] == source;
  }

  lemma PlacedOk(w: World, content: seq<Byte>, disk: Disk)
    requires TargetOk(w) && content == w.source
    ensures var placed := w.placed || !disk.PlaceFails?;
            var torn := w.torn || (disk.PlaceFails? && disk.left.Some?);
            TargetOk(w.(node := w.node.(target := Placed(w.node.target, content, disk)), placed := placed,
              torn := torn))
  {
  }

  lemma RememberOnly(finished: seq<WriteId>, id: WriteId, x: WriteId)
    ensures x in Remember(finished, id) ==> x in finished || x == id
  {
  }

  lemma DeliverKeeps(w: World, chunk: nat, disk: Disk)
    requires WorldOk(w) && chunk <= w.next
    ensures WorldOk(Deliveries(w, chunk, disk))
  {
    hide ChunkCount, Remember, Prefix;
    var sent := ChunkAt(w.source, chunk);
    RememberOnly(w.node.finished, w.id, w.id);
    if sent.offset == 0 && sent.last {
      assert sent.data == w.source by { SingleChunk(w.source, chunk); }
      PlacedOk(w, sent.data, disk);
    } else if sent.offset <= |KeptBytes(w.node)| {
      KeepExtends(w.source, KeptBytes(w.node), chunk, if disk.KeepFails? && disk.part.Some? then disk.part.value
        else 0);
      if sent.last {
        assert Prefix([], w.source) by { EmptyPrefix(w.source); }
        PlacedOk(w, w.source, disk);
      }
    }
  }

  lemma EmptyPrefix(s: seq<Byte>)
    ensures Prefix([], s)
  {
  }

  lemma SingleChunk(source: seq<Byte>, i: nat)
    requires i < ChunkCount(|source|) && ChunkAt(source, i).offset == 0 && ChunkAt(source, i).last
    ensures ChunkAt(source, i).data == source
  {
  }

  lemma StepKeeps(w: World, e: Event)
    requires WorldOk(w)
    ensures WorldOk(Step(w, e))
  {
    match e
    case Deliver(chunk, disk) => if chunk <= w.next { DeliverKeeps(w, chunk, disk); }
    case Restart => EmptyPrefix(w.source);
    case OtherFinishes(other) => RememberOnly(w.node.finished, other, w.id);
    case Hear(answer) =>
    case GiveUp =>
  }

  lemma {:induction false} RunKeeps(w: World, events: seq<Event>)
    requires WorldOk(w)
    ensures WorldOk(Run(w, events))
  {
    if events != [] {
      RunKeeps(w, events[..|events| - 1]);
      StepKeeps(Run(w, events[..|events| - 1]), events[|events| - 1]);
    }
  }

  lemma StepKeepsTheJob(w: World, e: Event)
    ensures Step(w, e).source == w.source && Step(w, e).initial == w.initial && Step(w, e).id == w.id
  {
  }

  lemma {:induction false} RunKeepsTheJob(w: World, events: seq<Event>)
    ensures Run(w, events).source == w.source && Run(w, events).initial == w.initial && Run(w, events).id == w.id
  {
    hide Step;
    if events != [] {
      RunKeepsTheJob(w, events[..|events| - 1]);
      StepKeepsTheJob(Run(w, events[..|events| - 1]), events[|events| - 1]);
    }
  }

  /** Placing the file fails in part. */
  predicate Tears(e: Event) {
    e.Deliver? && e.disk.PlaceFails? && e.disk.left.Some?
  }

  lemma {:induction false} TornOnlyByDisk(w: World, events: seq<Event>)
    requires !w.torn && forall e :: e in events ==> !Tears(e)
    ensures !Run(w, events).torn
  {
    if events != [] {
      TornOnlyByDisk(w, events[..|events| - 1]);
      assert !Tears(events[|events| - 1]);
      hide WriteChunk, ChunkAt;
    }
  }

  /** The sender goes on to the next chunk, or has written, when it hears that the one it is sending is done, and has
      failed when it hears anything else or gives up; it hears only what the node answered, and nothing once it is
      through. */
  lemma SenderComesTo(w: World, answer: Answer)
    ensures var w' := Step(w, Hear(answer));
            if !w.status.Sending? || (w.next, answer) !in w.answers then w' == w
            else
              && w' == w.(status := w'.status, next := w'.next)
              && (w'.status.Failed? <==> !answer.Done?)
              && (w'.status.Resolved? <==> answer.Done? && w.next == ChunkCount(|w.source|) - 1)
              && (w'.status.Sending? ==> w'.next == w.next + 1) && (!w'.status.Sending? ==> w'.next == w.next)
    ensures Step(w, GiveUp) == if w.status.Sending? then w.(status := Failed) else w
  {
  }

  /** A node that restarts has kept nothing and remembers no write; another write that finishes is remembered, and
      changes nothing else. */
  lemma NodeComesTo(w: World, other: WriteId)
    ensures Step(w, Restart) == w.(node := Store(None, [], w.node.target))
    ensures var w' := Step(w, OtherFinishes(other));
            && w'.node.target == w.node.target && w'.node.kept == w.node.kept && w'.status == w.status
            && (other == w.id ==> w' == w)
            && (other != w.id && |w.node.finished| <= FINISHED_WRITES ==> other in w'.node.finished)
  {
    var longer := w.node.finished + [other];
    assert longer[|longer| - 1] == other && (|longer| > 1 ==> longer[1..][|longer| - 2] == other);
  }

  /** A chunk sent so far is delivered, with the node's answer, and no other is. */
  lemma DeliveryComesTo(w: World, chunk: nat, disk: Disk)
    ensures var w' := Step(w, Deliver(chunk, disk));
            if chunk <= w.next && chunk < ChunkCount(|w.source|) then
              var (node, answer) := WriteChunk(w.node, w.id, ChunkAt(w.source, chunk), disk);
              && w'.node == node && w'.answers == w.answers + {(chunk, answer)}
              && w'.status == w.status && w'.next == w.next
            else w' == w
  {
    hide WriteChunk, ChunkAt;
  }

  /** Over every run, the target holds what was there before, or a prefix of the source and never a mix of chunks;
      when placing never failed in part, one or the other whole; and once the write has resolved, the source. */
  lemma WriteIsExact(id: WriteId, source: seq<Byte>, node: Store, events: seq<Event>)
    requires id !in node.finished && node.kept.None?
    ensures var w := Run(NewWorld(id, source, node), events);
            && (w.node.target == node.target || (w.node.target.Some? && w.node.target.value <= source))
            && (!w.torn ==> w.node.target == node.target || w.node.target == Some(source))
            && (!w.torn && w.status.Resolved? ==> w.node.target == Some(source))
            && ((forall e :: e in events ==> !Tears(e)) ==> !w.torn)
  {
    var start := NewWorld(id, source, node);
    assert WorldOk(start);
    if forall e :: e in events ==> !Tears(e) {
      TornOnlyByDisk(start, events);
    }
    RunKeeps(start, events);
    RunKeepsTheJob(start, events);
  }

  // ---- Ordered delivery ----

  /** The last delivery so far: its chunk, and the node's answer. */
  function LastDelivery(w: World, events: seq<Event>): Option<(nat, Answer)> {
    if events == [] then None
    else
      var init, last := events[..|events| - 1], events[|events| - 1];
      var before := Run(w, init);
      if last.Deliver? && last.chunk < ChunkCount(|w.source|) then
        Some((last.chunk, WriteChunk(before.node, w.id, ChunkAt(w.source, last.chunk), last.disk).1))
      else LastDelivery(w, init)
  }

  lemma LastDeliveryIs(w: World, events: seq<Event>, e: Event)
    ensures var before, after := LastDelivery(w, events), LastDelivery(w, events + [e]);
            if e.Deliver? && e.chunk < ChunkCount(|w.source|) then
              after.Some? && after.value.0 == e.chunk
              && (Run(w, events).source == w.source && Run(w, events).id == w.id && e.chunk <= Run(w, events).next ==>
                    after.value in Run(w, events + [e]).answers)
            else after == before
  {
    assert (events + [e])[..|events|] == events;
    hide WriteChunk, ChunkAt;
  }

  /** The link delivers in the order of sending, and the sender hears what became of its latest attempt: only the chunk
      being sent arrives, none once the write resolved, and the answer heard is to the last delivery. */
  predicate InOrder(w: World, e: Event, last: Option<(nat, Answer)>) {
    match e
    case Deliver(chunk, _) => chunk == w.next && !w.status.Resolved?
    case Hear(answer) => last == Some((w.next, answer))
    case _ => true
  }

  predicate OrderedRun(w: World, events: seq<Event>) {
    events == [] ||
    var init, last := events[..|events| - 1], events[|events| - 1];
    OrderedRun(w, init) && InOrder(Run(w, init), last, LastDelivery(w, init))
  }

  /** A long write that was placed has left nothing to place again; and when the last delivery placed the write, or
      found it placed, the target holds the source. */
  ghost predicate OrderedOk(w: World, last: Option<(nat, Answer)>) {
    && (w.placed ==> w.next == ChunkCount(|w.source|) - 1)
    && (w.placed && w.next > 0 ==> KeptBytes(w.node) == [] && w.node.target == Some(w.source))
    && (last == Some((ChunkCount(|w.source|) - 1, Done)) ==> w.node.target == Some(w.source) && w.placed)
    && (w.status.Resolved? ==> w.node.target == Some(w.source))
  }

  /** What one more delivery of the chunk being sent leaves. */
  lemma OrderedDelivery(w: World, last: Option<(nat, Answer)>, disk: Disk)
    requires WorldOk(w) && OrderedOk(w, last) && !w.status.Resolved?
    ensures var w' := Deliveries(w, w.next, disk);
            OrderedOk(w', Some((w.next, WriteChunk(w.node, w.id, ChunkAt(w.source, w.next), disk).1)))
  {
    hide Remember, Prefix, ChunkCount;
    var sent := ChunkAt(w.source, w.next);
    LastIsLast(w.source, w.next);
    if w.next == 0 && sent.last {
      SingleChunk(w.source, w.next);
    } else if sent.last && w.id !in w.node.finished && sent.offset <= |KeptBytes(w.node)| {
      KeepExtends(w.source, KeptBytes(w.node), w.next, 0);
    }
  }

  lemma LastIsLast(source: seq<Byte>, i: nat)
    requires i < ChunkCount(|source|)
    ensures ChunkAt(source, i).last <==> i == ChunkCount(|source|) - 1
    ensures ChunkAt(source, i).offset == 0 <==> i == 0
  {
  }

  lemma OrderedStep(w: World, e: Event, last: Option<(nat, Answer)>)
    requires WorldOk(w) && OrderedOk(w, last) && InOrder(w, e, last) && !e.Deliver?
    ensures OrderedOk(Step(w, e), last)
  {
    hide ChunkAt, Remember, Prefix;
  }

  lemma {:induction false} OrderedRunKeeps(w: World, events: seq<Event>)
    requires WorldOk(w) && OrderedOk(w, None) && OrderedRun(w, events)
    ensures OrderedOk(Run(w, events), LastDelivery(w, events))
  {
    if events != [] {
      var init, e := events[..|events| - 1], events[|events| - 1];
      OrderedRunKeeps(w, init);
      RunKeeps(w, init);
      RunKeepsTheJob(w, init);
      var before := Run(w, init);
      assert before.next < ChunkCount(|w.source|);
      hide WorldOk, OrderedOk, WriteChunk, ChunkAt;
      if e.Deliver? {
        OrderedDelivery(before, LastDelivery(w, init), e.disk);
      } else {
        OrderedStep(before, e, LastDelivery(w, init));
      }
    }
  }

  /** On a link that keeps the order, a write that has resolved left the source at its path, even when placing it
      failed in part before. */
  lemma OrderedWriteResolvesWhole(id: WriteId, source: seq<Byte>, node: Store, events: seq<Event>)
    requires id !in node.finished && node.kept.None?
    requires OrderedRun(NewWorld(id, source, node), events)
    ensures var w := Run(NewWorld(id, source, node), events);
            w.status.Resolved? ==> w.node.target == Some(source)
  {
    var start := NewWorld(id, source, node);
    assert WorldOk(start) by { EmptyPrefix(source); }
    OrderedRunKeeps(start, events);
    RunKeepsTheJob(start, events);
  }

  // ---- Progress ----

  /** Deliveries that keep up: each repeats the chunk being sent, and no disk fails. */
  predicate Gentle(w: World, e: Event) {
    match e
    case Deliver(chunk, disk) => chunk == w.next && disk.Works?
    case Restart => false
    case _ => true
  }

  predicate GentleRun(w: World, events: seq<Event>) {
    events == [] || (GentleRun(w, events[..|events| - 1])
      && Gentle(Run(w, events[..|events| - 1]), events[|events| - 1]))
  }

  function Others(events: seq<Event>): nat {
    if events == [] then 0
    else Others(events[..|events| - 1]) + if events[|events| - 1].OtherFinishes? then 1 else 0
  }

  /** At most `n` writes finished after `id` did. */
  ghost predicate Recent(finished: seq<WriteId>, id: WriteId, n: nat) {
    exists p :: 0 <= p < |finished| && finished[p] == id && |finished| - 1 - p <= n
  }

  /** The kept bytes reach the chunk being sent, or the write is done and remembered. */
  ghost predicate OnCourse(w: World, others: nat) {
    && w.next < ChunkCount(|w.source|) && |w.node.finished| <= FINISHED_WRITES
    && (forall a :: a in w.answers ==> a.1.Done?)
    && (w.placed && w.next > 0 ==> Recent(w.node.finished, w.id, others))
    && (!w.placed ==> |KeptBytes(w.node)| >= ChunkAt(w.source, w.next).offset)
    && ((w.next, Done) in w.answers ==>
          if w.next == ChunkCount(|w.source|) - 1 then w.placed else |KeptBytes(w.node)| >= EndOf(|w.source|, w.next))
    && (forall a :: a in w.answers ==> a.0 <= w.next)
    && (w.placed ==> w.next == ChunkCount(|w.source|) - 1)
  }

  lemma StillRecent(finished: seq<WriteId>, id: WriteId, other: WriteId, n: nat)
    requires Recent(finished, id, n) && n + 1 < FINISHED_WRITES && |finished| <= FINISHED_WRITES
    ensures Recent(Remember(finished, other), id, n + 1) && |Remember(finished, other)| <= FINISHED_WRITES
  {
    var p :| 0 <= p < |finished| && finished[p] == id && |finished| - 1 - p <= n;
    var later := Remember(finished, other);
    if other in finished {
      assert later[p] == id;
    } else if |finished| < FINISHED_WRITES {
      assert later[p] == id;
    } else {
      assert later[p - 1] == id;
    }
  }

  lemma NowRecent(finished: seq<WriteId>, id: WriteId, n: nat)
    requires id !in finished && |finished| <= FINISHED_WRITES
    ensures Recent(Remember(finished, id), id, n) && |Remember(finished, id)| <= FINISHED_WRITES
  {
    var later := Remember(finished, id);
    assert later[|later| - 1] == id;
  }

  lemma InOrderAccepted(w: World, others: nat)
    requires WorldOk(w) && OnCourse(w, others)
    ensures var (node, answer) := WriteChunk(w.node, w.id, ChunkAt(w.source, w.next), Works);
            var last := w.next == ChunkCount(|w.source|) - 1;
            && answer == Done
            && |node.finished| <= FINISHED_WRITES
            && (last && w.next > 0 ==> Recent(node.finished, w.id, others))
            && (!last ==> node.finished == w.node.finished && |KeptBytes(node)| == EndOf(|w.source|, w.next))
  {
    hide Recent, Remember, Prefix;
    var sent := ChunkAt(w.source, w.next);
    if w.next > 0 && w.placed {
      RecentIsRemembered(w.node.finished, w.id, others);
    } else if w.next > 0 && sent.last {
      NowRecent(w.node.finished, w.id, others);
    }
  }

  lemma RecentIsRemembered(finished: seq<WriteId>, id: WriteId, n: nat)
    requires Recent(finished, id, n)
    ensures id in finished
  {
  }

  lemma DeliverStaysOnCourse(w: World, others: nat)
    requires WorldOk(w) && OnCourse(w, others)
    ensures OnCourse(Deliveries(w, w.next, Works), others)
  {
    hide Recent, Remember, Prefix, ChunkCount, WriteChunk;
    InOrderAccepted(w, others);
    NextIsReached(w);
  }

  /** A chunk's own offset is reached once the chunk is. */
  lemma NextIsReached(w: World)
    requires w.next < ChunkCount(|w.source|)
    ensures ChunkAt(w.source, w.next).offset <= EndOf(|w.source|, w.next)
    ensures w.next + 1 < ChunkCount(|w.source|) ==> ChunkAt(w.source, w.next + 1).offset == EndOf(|w.source|, w.next)
  {
  }

  lemma StepStaysOnCourse(w: World, e: Event, others: nat)
    requires WorldOk(w) && OnCourse(w, others) && Gentle(w, e) && (e.OtherFinishes? ==> others + 1 < FINISHED_WRITES)
    ensures OnCourse(Step(w, e), others + if e.OtherFinishes? then 1 else 0)
  {
    hide Remember, Prefix, ChunkCount, WriteChunk;
    match e
    case Deliver(chunk, disk) => DeliverStaysOnCourse(w, others);
    case Restart =>
    case OtherFinishes(other) => OthersStayOnCourse(w, other, others);
    case Hear(answer) => NextIsReached(w);
    case GiveUp =>
  }

  lemma OthersStayOnCourse(w: World, other: WriteId, others: nat)
    requires OnCourse(w, others) && others + 1 < FINISHED_WRITES
    ensures OnCourse(Step(w, OtherFinishes(other)), others + 1)
  {
    hide Prefix, ChunkCount, ChunkAt, Recent;
    if w.placed && w.next > 0 {
      StillRecent(w.node.finished, w.id, other, others);
      assert Recent(w.node.finished, w.id, others + 1) by { RecentLonger(w.node.finished, w.id, others); }
    }
  }

  lemma RecentLonger(finished: seq<WriteId>, id: WriteId, n: nat)
    requires Recent(finished, id, n)
    ensures Recent(finished, id, n + 1)
  {
    var p :| 0 <= p < |finished| && finished[p] == id && |finished| - 1 - p <= n;
  }

  lemma {:induction false} GentleRunStaysOnCourse(w: World, events: seq<Event>)
    requires WorldOk(w) && OnCourse(w, 0) && GentleRun(w, events) && Others(events) < FINISHED_WRITES
    ensures OnCourse(Run(w, events), Others(events))
  {
    hide WorldOk, OnCourse, Step, Gentle;
    if events != [] {
      var init := events[..|events| - 1];
      GentleRunStaysOnCourse(w, init);
      RunKeeps(w, init);
      StepStaysOnCourse(Run(w, init), events[|events| - 1], Others(init));
    }
  }

  /** When no disk fails, the node does not restart and nothing but the chunk being sent is delivered, however
      often, then no chunk is ever refused, so the write fails only when given up; and from any such point one
      more delivery, heard, brings the next chunk or resolves the write with the source at its path. */
  lemma GentleWriteSucceeds(id: WriteId, source: seq<Byte>, node: Store, events: seq<Event>)
    requires id !in node.finished && node.kept.None? && |node.finished| <= FINISHED_WRITES
    requires GentleRun(NewWorld(id, source, node), events) && Others(events) < FINISHED_WRITES
    ensures var w := Run(NewWorld(id, source, node), events);
            && (forall a :: a in w.answers ==> a.1 == Done)
            && w.next < ChunkCount(|w.source|)
            && (w.status.Sending? ==>
                  var w' := Step(Step(w, Deliver(w.next, Works)), Hear(Done));
                  if w.next == ChunkCount(|source|) - 1 then w'.status.Resolved?
                  else w' == w.(node := w'.node, answers := w'.answers, next := w.next + 1))
  {
    hide Recent, Remember, Prefix, ChunkCount;
    var start := NewWorld(id, source, node);
    assert WorldOk(start) by { EmptyPrefix(source); }
    assert OnCourse(start, 0);
    GentleRunStaysOnCourse(start, events);
    RunKeeps(start, events);
    RunKeepsTheJob(start, events);
    InOrderAccepted(Run(start, events), Others(events));
  }
}
