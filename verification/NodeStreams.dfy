/** The streams one node connection carries (`createStreamRegistry`): what reaches each body, and how each ends. */
module NodeStreams {
  import opened Bytes

  type StreamId = nat
  type Chunk = seq<Byte>

  datatype Why = Gap | Overflow | StartRefused | BodyCancelled | NodeError | ConnectionClosed

  datatype Ended = Pending | Resolved(exit: Option<int>) | Rejected(why: Why)

  /** A body takes chunks until it is closed, which leaves those buffered to be read, or fails, which drops them. */
  datatype Body = Taking | Closing | Gone

  /** `read` is all the consumer was given, and `asked` a read that waits for the next chunk. */
  datatype Stream = Stream(received: nat, buffered: seq<Chunk>, read: seq<Byte>, asked: bool, body: Body, ended: Ended)

  /** `streams` are all that were opened, `open` those registered, `cancels` the IDs the node was told to cancel. */
  datatype Registry = Registry(max: nat, streams: map<StreamId, Stream>, open: set<StreamId>, closed: bool,
    cancels: seq<StreamId>)

  const NEW_STREAM := Stream(0, [], [], false, Taking, Pending)

  function NewRegistry(max: nat): Registry {
    Registry(max, map[], {}, false, [])
  }

  function Failed(s: Stream, why: Why): Stream {
    s.(body := Gone, buffered := [], ended := Rejected(why))
  }

  function Fail(r: Registry, id: StreamId, why: Why): Registry
    requires id in r.streams
  {
    r.(open := r.open - {id}, streams := r.streams[id := Failed(r.streams[id], why)], cancels := r.cancels + [id])
  }

  /** An open stream's ID is new. */
  function Open(r: Registry, id: StreamId): Registry {
    if r.closed || id in r.streams then r
    else r.(open := r.open + {id}, streams := r.streams[id := NEW_STREAM])
  }

  function RefuseStart(r: Registry, id: StreamId): Registry {
    if id in r.open && id in r.streams then Fail(r, id, StartRefused) else r
  }

  /** A chunk goes to the read that waits for it, or into the buffer. */
  function Taken(s: Stream, bytes: Chunk): Stream {
    if s.asked then s.(received := s.received + |bytes|, read := s.read + bytes, asked := false)
    else s.(received := s.received + |bytes|, buffered := s.buffered + [bytes])
  }

  function Data(r: Registry, id: StreamId, offset: nat, bytes: Chunk): Registry {
    if id !in r.open || id !in r.streams then r.(cancels := r.cancels + [id])
    else if offset != r.streams[id].received then Fail(r, id, Gap)
    else
      var taken := Taken(r.streams[id], bytes);
      var kept := r.(streams := r.streams[id := taken]);
      if |Flatten(taken.buffered)| > r.max then Fail(kept, id, Overflow) else kept
  }

  function End(r: Registry, id: StreamId, failed: bool, exit: Option<int>): Registry {
    if id !in r.open || id !in r.streams then r
    else
      var s := r.streams[id];
      r.(open := r.open - {id},
         streams := r.streams[id := if failed then Failed(s, NodeError)
           else s.(body := Closing, ended := Resolved(exit))])
  }

  /** The consumer reads: a buffered chunk, or it waits for one while the body takes any. */
  function Read(r: Registry, id: StreamId): Registry {
    if id !in r.streams then r
    else
      var s := r.streams[id];
      if s.buffered != [] then r.(streams := r.streams[id := s.(read := s.read + s.buffered[0],
        buffered := s.buffered[1..])])
      else if s.body.Taking? then r.(streams := r.streams[id := s.(asked := true)])
      else r
  }

  function CancelBody(r: Registry, id: StreamId): Registry {
    if id !in r.streams || r.streams[id].body.Gone? then r
    else if id in r.open then Fail(r, id, BodyCancelled)
    else r.(streams := r.streams[id := r.streams[id].(body := Gone, buffered := [])])
  }

  function CloseAll(r: Registry): Registry {
    r.(closed := true, open := {},
       streams := map id | id in r.streams :: if id in r.open then Failed(r.streams[id], ConnectionClosed)
         else r.streams[id])
  }

  datatype Event =
    | Opens(id: StreamId)
    | StartRefuses(id: StreamId)
    | DataComes(id: StreamId, offset: nat, bytes: Chunk)
    | EndComes(id: StreamId, failed: bool, exit: Option<int>)
    | Reads(id: StreamId)
    | Cancels(id: StreamId)
    | Closes

  function Step(r: Registry, e: Event): Registry {
    match e
    case Opens(id) => Open(r, id)
    case StartRefuses(id) => RefuseStart(r, id)
    case DataComes(id, offset, bytes) => Data(r, id, offset, bytes)
    case EndComes(id, failed, exit) => End(r, id, failed, exit)
    case Reads(id) => Read(r, id)
    case Cancels(id) => CancelBody(r, id)
    case Closes => CloseAll(r)
  }

  function Run(max: nat, events: seq<Event>): Registry {
    if events == [] then NewRegistry(max) else Step(Run(max, events[..|events| - 1]), events[|events| - 1])
  }

  // ---- What every step keeps ----

  /** What a body was given, read or not. */
  function Given(s: Stream): seq<Byte> {
    s.read + Flatten(s.buffered)
  }

  /** `isOpen`: the stream is registered. */
  predicate StreamOk(max: nat, s: Stream, isOpen: bool) {
    && (isOpen <==> s.ended.Pending?) && (isOpen ==> s.body.Taking? && s.received == |Given(s)|)
    && (s.body.Taking? ==> isOpen)
    && (s.asked ==> s.buffered == []) && (s.body.Gone? ==> s.buffered == [])
    && |Flatten(s.buffered)| <= max
  }

  ghost predicate RegistryOk(r: Registry) {
    && r.open <= r.streams.Keys
    && (forall id :: id in r.streams ==> StreamOk(r.max, r.streams[id], id in r.open))
    && (r.closed ==> r.open == {})
  }

  lemma FailKeeps(r: Registry, id: StreamId, why: Why)
    requires RegistryOk(r) && id in r.streams
    ensures RegistryOk(Fail(r, id, why))
  {
  }

  lemma GivenMore(s: Stream, bytes: Chunk)
    requires s.asked ==> s.buffered == []
    ensures Given(Taken(s, bytes)) == Given(s) + bytes
  {
    if !s.asked {
      FlattenLast(s.buffered, bytes);
      Associate(s.read, Flatten(s.buffered), bytes);
    }
  }

  lemma DataKeeps(r: Registry, id: StreamId, offset: nat, bytes: Chunk)
    requires RegistryOk(r)
    ensures RegistryOk(Data(r, id, offset, bytes))
  {
    if id in r.open {
      var taken := Taken(r.streams[id], bytes);
      GivenMore(r.streams[id], bytes);
      FailKeeps(r, id, Gap);
      hide Flatten;
      var kept := r.(streams := r.streams[id := taken]);
      assert Fail(kept, id, Overflow) == Fail(r, id, Overflow).(streams := r.streams[id := Failed(taken, Overflow)]);
      assert Flatten<Byte>([]) == [] by { EmptyFlatten(); }
    }
  }

  lemma EmptyFlatten()
    ensures Flatten<Byte>([]) == []
  {
  }

  lemma ReadKeeps(r: Registry, id: StreamId)
    requires RegistryOk(r)
    ensures RegistryOk(Read(r, id))
    ensures id in r.streams ==> Given(Read(r, id).streams[id]) == Given(r.streams[id])
  {
    if id in r.streams && r.streams[id].buffered != [] {
      var s := r.streams[id];
      Associate(s.read, s.buffered[0], Flatten(s.buffered[1..]));
    }
  }

  lemma StepKeeps(r: Registry, e: Event)
    requires RegistryOk(r)
    ensures RegistryOk(Step(r, e))
  {
    match e
    case DataComes(id, offset, bytes) => DataKeeps(r, id, offset, bytes);
    case Reads(id) => ReadKeeps(r, id);
    case _ =>
  }

  lemma {:induction false} RunKeeps(max: nat, events: seq<Event>)
    ensures RegistryOk(Run(max, events)) && Run(max, events).max == max
  {
    if events != [] {
      RunKeeps(max, events[..|events| - 1]);
      StepKeeps(Run(max, events[..|events| - 1]), events[|events| - 1]);
    }
  }

  // ---- What the registry promises ----

  /** Every chunk that comes for the stream carries the source's bytes at its offset, in whatever order and however
      often chunks come. */
  ghost predicate Carries(events: seq<Event>, id: StreamId, source: seq<Byte>) {
    forall i :: 0 <= i < |events| && events[i].DataComes? && events[i].id == id ==>
      IsPart(events[i].offset, events[i].bytes, source)
  }

  predicate IsPart(offset: nat, bytes: Chunk, source: seq<Byte>) {
    offset + |bytes| <= |source| && bytes == source[offset..offset + |bytes|]
  }

  ghost predicate GivenPrefix(r: Registry, id: StreamId, source: seq<Byte>) {
    id in r.streams ==> Given(r.streams[id]) <= source
  }

  lemma PartsJoin(given: seq<Byte>, bytes: Chunk, source: seq<Byte>)
    requires given <= source && IsPart(|given|, bytes, source)
    ensures given + bytes <= source
  {
  }

  lemma DropBuffered(s: Stream, source: seq<Byte>, why: Why)
    requires Given(s) <= source
    ensures Given(Failed(s, why)) <= source && Given(s.(body := Gone, buffered := [])) <= source
  {
  }

  lemma DataKeepsPrefix(r: Registry, id: StreamId, offset: nat, bytes: Chunk, source: seq<Byte>)
    requires RegistryOk(r) && id in r.open && GivenPrefix(r, id, source) && IsPart(offset, bytes, source)
    ensures GivenPrefix(Data(r, id, offset, bytes), id, source)
  {
    var s := r.streams[id];
    assert StreamOk(r.max, s, true);
    DropBuffered(s, source, Gap);
    hide RegistryOk, Flatten;
    if offset == s.received {
      GivenMore(s, bytes);
      PartsJoin(Given(s), bytes, source);
      DropBuffered(Taken(s, bytes), source, Overflow);
      hide Taken, Given;
    }
  }

  lemma StepKeepsPrefix(r: Registry, e: Event, id: StreamId, source: seq<Byte>)
    requires RegistryOk(r) && GivenPrefix(r, id, source)
    requires e.DataComes? && e.id == id ==> IsPart(e.offset, e.bytes, source)
    ensures GivenPrefix(Step(r, e), id, source)
  {
    if id in r.streams {
      if !Concerns(e, id) {
        OthersAreUntouched(r, e, id);
        hide Step;
      } else if e.DataComes? {
        if id in r.open {
          DataKeepsPrefix(r, id, e.offset, e.bytes, source);
        }
      } else if e.Reads? {
        ReadKeeps(r, id);
        hide Given;
      } else {
        hide RegistryOk, Flatten;
        forall why | why in {Gap, Overflow, StartRefused, BodyCancelled, NodeError, ConnectionClosed}
          ensures Given(Failed(r.streams[id], why)) <= source
              && Given(r.streams[id].(body := Gone, buffered := [])) <= source
        {
          DropBuffered(r.streams[id], source, why);
        }
      }
    }
  }

  /** Whatever comes, a body is given a prefix of its stream's bytes, from the first, and the consumer reads a prefix of
      that: no byte is skipped, repeated or out of place. */
  lemma {:induction false} BodyIsAPrefix(max: nat, events: seq<Event>, id: StreamId, source: seq<Byte>)
    requires Carries(events, id, source)
    ensures GivenPrefix(Run(max, events), id, source)
    ensures id in Run(max, events).streams ==> Run(max, events).streams[id].read <= source
  {
    if events != [] {
      var init := events[..|events| - 1];
      forall i | 0 <= i < |init| && init[i].DataComes? && init[i].id == id
        ensures IsPart(init[i].offset, init[i].bytes, source)
      {
        assert init[i] == events[i];
      }
      BodyIsAPrefix(max, init, id, source);
      RunKeeps(max, init);
      StepKeepsPrefix(Run(max, init), events[|events| - 1], id, source);
    }
  }

  /** A stream that is open, after any chunk or other step, buffers at most the registry's bound. */
  lemma BufferIsBounded(max: nat, events: seq<Event>, id: StreamId)
    requires id in Run(max, events).streams
    ensures |Flatten(Run(max, events).streams[id].buffered)| <= max
  {
    RunKeeps(max, events);
  }

  /** A stream ends as the node ended it only with all its bytes given, none dropped. */
  lemma EndedIsWhole(r: Registry, id: StreamId, exit: Option<int>)
    requires RegistryOk(r) && id in r.open
    ensures var r' := End(r, id, false, exit);
            r'.streams[id].ended == Resolved(exit) && Given(r'.streams[id]) == Given(r.streams[id])
            && |Given(r'.streams[id])| == r.streams[id].received
  {
  }

  // ---- What the registry takes ----

  /** The chunk is the next of its stream, and a read waits for it or it fits the buffer. */
  predicate Fits(r: Registry, id: StreamId, offset: nat, bytes: Chunk)
    requires id in r.streams
  {
    var s := r.streams[id];
    offset == s.received && (s.asked || |Flatten(s.buffered)| + |bytes| <= r.max)
  }

  /** A chunk for an open stream is taken whole exactly when it is the next one and has room; any other fails its
      stream, and says why. */
  lemma TakenIffItFits(r: Registry, id: StreamId, offset: nat, bytes: Chunk)
    requires RegistryOk(r) && id in r.open
    ensures var r' := Data(r, id, offset, bytes);
            var s, s' := r.streams[id], r'.streams[id];
            && (id in r'.open <==> Fits(r, id, offset, bytes))
            && (Fits(r, id, offset, bytes) ==>
                  && Given(s') == Given(s) + bytes && s'.received == s.received + |bytes| && r'.cancels == r.cancels
                  && s'.read == (if s.asked then s.read + bytes else s.read) && !s'.asked)
            && (!Fits(r, id, offset, bytes) ==>
                  && s'.ended == Rejected(if offset != s.received then Gap else Overflow)
                  && s'.read == (if s.asked && offset == s.received then s.read + bytes else s.read)
                  && s'.buffered == [] && r'.cancels == r.cancels + [id])
  {
    var s := r.streams[id];
    assert StreamOk(r.max, s, true);
    GivenMore(s, bytes);
    BufferedMore(s, bytes);
    hide RegistryOk, Flatten, Given;
  }

  lemma BufferedMore(s: Stream, bytes: Chunk)
    requires s.asked ==> s.buffered == []
    ensures |Flatten(Taken(s, bytes).buffered)| == if s.asked then 0 else |Flatten(s.buffered)| + |bytes|
  {
    if !s.asked {
      FlattenLast(s.buffered, bytes);
    }
  }

  /** The bytes that came for the stream. */
  function Sent(events: seq<Event>, id: StreamId): seq<Byte> {
    if events == [] then []
    else
      var last := events[|events| - 1];
      Sent(events[..|events| - 1], id) + if last.DataComes? && last.id == id then last.bytes else []
  }

  /** The event does nothing amiss to the stream: a chunk follows the one before and has room, and the stream is neither
      refused, cancelled, ended nor closed. */
  predicate Proper(r: Registry, e: Event, id: StreamId, sent: seq<Byte>) {
    match e
    case DataComes(other, offset, bytes) =>
      other == id ==> id in r.streams && offset == |sent|
                      && (r.streams[id].asked || |Flatten(r.streams[id].buffered)| + |bytes| <= r.max)
    case StartRefuses(other) => other != id
    case EndComes(other, _, _) => other != id
    case Cancels(other) => other != id
    case Closes => false
    case _ => true
  }

  predicate ProperRun(max: nat, events: seq<Event>, id: StreamId) {
    events == [] ||
    var init, last := events[..|events| - 1], events[|events| - 1];
    ProperRun(max, init, id) && Proper(Run(max, init), last, id, Sent(init, id))
  }

  /** The stream is as it should be after these bytes: not opened yet, or open and given them all. */
  predicate Flows(r: Registry, id: StreamId, sent: seq<Byte>) {
    && !r.closed
    && if id !in r.streams then sent == [] else id in r.open && Given(r.streams[id]) == sent
  }

  lemma FlowsOn(r: Registry, e: Event, id: StreamId, sent: seq<Byte>)
    requires RegistryOk(r) && Flows(r, id, sent) && Proper(r, e, id, sent)
    ensures Flows(Step(r, e), id, sent + if e.DataComes? && e.id == id then e.bytes else [])
  {
    assert sent + [] == sent;
    if !Concerns(e, id) {
      OthersAreUntouched(r, e, id);
      hide Step;
    } else if e.DataComes? {
      assert StreamOk(r.max, r.streams[id], true);
      TakenIffItFits(r, id, e.offset, e.bytes);
      hide RegistryOk, Flatten;
    } else if e.Reads? {
      ReadKeeps(r, id);
      hide Given, RegistryOk;
    } else {
      assert Given(NEW_STREAM) == [];
    }
  }

  lemma {:induction false} ProperRunFlows(max: nat, events: seq<Event>, id: StreamId)
    requires ProperRun(max, events, id)
    ensures Flows(Run(max, events), id, Sent(events, id))
  {
    if events != [] {
      var init, last := events[..|events| - 1], events[|events| - 1];
      ProperRunFlows(max, init, id);
      RunKeeps(max, init);
      hide Step, Flows, Proper;
      FlowsOn(Run(max, init), last, id, Sent(init, id));
    }
  }

  /** The consumer reads so often. */
  function ReadTimes(r: Registry, id: StreamId, n: nat): Registry {
    if n == 0 then r else Read(ReadTimes(r, id, n - 1), id)
  }

  lemma {:induction false} ReadsThrough(r: Registry, id: StreamId, n: nat)
    requires id in r.streams && n <= |r.streams[id].buffered|
    ensures var r' := ReadTimes(r, id, n);
            && id in r'.streams && r'.streams[id].buffered == r.streams[id].buffered[n..]
            && r'.streams[id].ended == r.streams[id].ended && Given(r'.streams[id]) == Given(r.streams[id])
  {
    if n > 0 {
      ReadsThrough(r, id, n - 1);
      var before := ReadTimes(r, id, n - 1);
      var s := before.streams[id];
      assert s.buffered[1..] == r.streams[id].buffered[n..];
      Associate(s.read, s.buffered[0], Flatten(s.buffered[1..]));
      hide ReadTimes;
    }
  }

  /** A read of an open stream that has nothing buffered waits, and the chunk that comes next, however large, goes to it
      alone. */
  lemma WaitingReadTakesAny(r: Registry, id: StreamId, bytes: Chunk)
    requires RegistryOk(r) && id in r.open && r.streams[id].buffered == []
    ensures var r' := Data(Read(r, id), id, r.streams[id].received, bytes);
            && id in r'.open && r'.cancels == r.cancels
            && r'.streams[id].read == r.streams[id].read + bytes && r'.streams[id].buffered == []
            && r'.streams[id].received == r.streams[id].received + |bytes| && !r'.streams[id].asked
  {
    assert Flatten<Byte>([]) == [] by { EmptyFlatten(); }
    ReadKeeps(r, id);
    assert StreamOk(r.max, r.streams[id], true);
    hide Flatten, RegistryOk;
  }

  /** A cancelled body gives its consumer nothing more, whether or not its stream had ended. */
  lemma CancelledGivesNoMore(r: Registry, id: StreamId, n: nat)
    requires RegistryOk(r) && id in r.streams
    ensures var r' := ReadTimes(CancelBody(r, id), id, n);
            && id in r'.streams && r'.streams[id].read == r.streams[id].read && r'.streams[id].body.Gone?
            && r'.streams[id].buffered == [] && id !in r'.open
            && r'.streams[id].ended == if id in r.open then Rejected(BodyCancelled) else r.streams[id].ended
  {
    if n == 0 {
      assert StreamOk(r.max, r.streams[id], id in r.open);
      hide Flatten;
    } else {
      CancelledGivesNoMore(r, id, n - 1);
    }
  }

  /** Whatever happens to other streams: one that was opened, whose chunks come one after the other and have room when
      they come, and that the node then ends well, ends so, with every byte that came; and the consumer that reads on
      reads them all. */
  lemma GoodStreamArrives(max: nat, events: seq<Event>, id: StreamId, exit: Option<int>)
    requires ProperRun(max, events, id) && id in Run(max, events).streams
    ensures var r := End(Run(max, events), id, false, exit);
            && id in r.streams && r.streams[id].ended == Resolved(exit)
            && var read := ReadTimes(r, id, |r.streams[id].buffered|);
               id in read.streams && read.streams[id].read == Sent(events, id)
  {
    ProperRunFlows(max, events, id);
    var r := End(Run(max, events), id, false, exit);
    assert r.streams[id].ended == Resolved(exit) && Given(r.streams[id]) == Sent(events, id);
    hide Run, End;
    var n := |r.streams[id].buffered|;
    ReadsThrough(r, id, n);
    assert r.streams[id].buffered[n..] == [];
    var read := ReadTimes(r, id, n).streams[id];
    assert read.read + [] == read.read;
  }

  predicate Concerns(e: Event, id: StreamId) {
    e.Closes? || e.id == id
  }

  /** The events for the stream, and the connection's close. */
  function OwnEvents(events: seq<Event>, id: StreamId): seq<Event> {
    if events == [] then []
    else
      var last := events[|events| - 1];
      OwnEvents(events[..|events| - 1], id) + if Concerns(last, id) then [last] else []
  }

  /** The same stream to its caller and to the node: what it holds, whether it is registered and how often it was
      cancelled. */
  ghost predicate Alike(r: Registry, q: Registry, id: StreamId) {
    && r.max == q.max && r.closed == q.closed && (id in r.open <==> id in q.open)
    && SameStream(r.streams, q.streams, id) && Count(r.cancels, id) == Count(q.cancels, id)
  }

  predicate SameStream(streams: map<StreamId, Stream>, others: map<StreamId, Stream>, id: StreamId) {
    (id in streams <==> id in others) && (id in streams ==> streams[id] == others[id])
  }

  function Count(cancels: seq<StreamId>, id: StreamId): nat {
    multiset(cancels)[id]
  }

  lemma CountMore(cancels: seq<StreamId>, other: StreamId, id: StreamId)
    ensures Count(cancels + [other], id) == Count(cancels, id) + if other == id then 1 else 0
  {
  }

  /** Another stream set, and registered or not. */
  lemma SetLeavesOthers(r: Registry, other: StreamId, s: Stream, id: StreamId)
    requires other != id
    ensures Alike(r.(streams := r.streams[other := s]), r, id)
    ensures Alike(r.(streams := r.streams[other := s], open := r.open + {other}), r, id)
    ensures Alike(r.(streams := r.streams[other := s], open := r.open - {other}), r, id)
  {
    hide Count;
  }

  lemma CancelLeavesOthers(r: Registry, other: StreamId, id: StreamId)
    requires other != id
    ensures Alike(r.(cancels := r.cancels + [other]), r, id)
  {
    CountMore(r.cancels, other, id);
    hide Count;
  }

  lemma FailLeavesOthers(r: Registry, other: StreamId, why: Why, id: StreamId)
    requires other in r.streams && other != id
    ensures Alike(Fail(r, other, why), r, id)
  {
    var gone := r.(streams := r.streams[other := Failed(r.streams[other], why)], open := r.open - {other});
    SetLeavesOthers(r, other, Failed(r.streams[other], why), id);
    CancelLeavesOthers(gone, other, id);
    hide Alike;
    AlikeJoins(Fail(r, other, why), gone, r, id);
  }

  lemma DataLeavesOthers(r: Registry, other: StreamId, offset: nat, bytes: Chunk, id: StreamId)
    requires other != id
    ensures Alike(Data(r, other, offset, bytes), r, id)
  {
    CancelLeavesOthers(r, other, id);
    if other in r.open && other in r.streams {
      FailLeavesOthers(r, other, Gap, id);
      var kept := r.(streams := r.streams[other := Taken(r.streams[other], bytes)]);
      SetLeavesOthers(r, other, Taken(r.streams[other], bytes), id);
      FailLeavesOthers(kept, other, Overflow, id);
      AlikeJoins(Fail(kept, other, Overflow), kept, r, id);
      hide Alike, Fail, Taken, Flatten;
    }
  }

  lemma OthersAreUntouched(r: Registry, e: Event, id: StreamId)
    requires !Concerns(e, id)
    ensures Alike(Step(r, e), r, id)
  {
    assert Alike(r, r, id);
    var other := e.id;
    if e.DataComes? {
      DataLeavesOthers(r, other, e.offset, e.bytes, id);
    } else if e.Opens? {
      SetLeavesOthers(r, other, NEW_STREAM, id);
    } else if other in r.streams {
      FailLeavesOthers(r, other, if e.Cancels? then BodyCancelled else StartRefused, id);
      SetLeavesOthers(r, other, if e.EndComes? && other in r.open then End(r, other, e.failed, e.exit).streams[other]
                                else if e.Reads? then Read(r, other).streams[other]
                                else r.streams[other].(body := Gone, buffered := []), id);
    }
    hide Alike, Data, Fail, Failed;
  }

  lemma OwnStepsAgree(r: Registry, q: Registry, e: Event, id: StreamId)
    requires Alike(r, q, id) && Concerns(e, id)
    ensures Alike(Step(r, e), Step(q, e), id)
  {
    CountMore(r.cancels, id, id);
    CountMore(q.cancels, id, id);
    hide Flatten, Count;
    match e
    case DataComes(_, offset, bytes) =>
    case _ =>
  }

  /** Whatever happens to the other streams, gaps, overflows, refusals and cancels among it, a stream fares in every
      run as if its connection carried it alone. */
  lemma {:induction false} StreamsAreIndependent(max: nat, events: seq<Event>, id: StreamId)
    ensures Alike(Run(max, events), Run(max, OwnEvents(events, id)), id)
  {
    if events != [] {
      var init, last := events[..|events| - 1], events[|events| - 1];
      StreamsAreIndependent(max, init, id);
      var own := OwnEvents(init, id);
      hide Step, Alike;
      if Concerns(last, id) {
        assert (own + [last])[..|own|] == own;
        OwnStepsAgree(Run(max, init), Run(max, own), last, id);
      } else {
        assert own + [] == own;
        OthersAreUntouched(Run(max, init), last, id);
        AlikeJoins(Step(Run(max, init), last), Run(max, init), Run(max, own), id);
      }
    }
  }

  lemma AlikeJoins(r: Registry, q: Registry, other: Registry, id: StreamId)
    requires Alike(r, q, id) && Alike(q, other, id)
    ensures Alike(r, other, id)
  {
  }

  /** The node is told to cancel exactly what is given up here: a stream that fails on its chunk, its refused start or
      its cancelled body, and one a chunk comes for that is not open; never one that ended or closed with the link. */
  lemma CancelsWhatItGivesUp(r: Registry, e: Event)
    requires RegistryOk(r)
    ensures Step(r, e).cancels == r.cancels + if GivesUp(r, e) then [e.id] else []
  {
    hide Flatten;
    assert r.cancels + [] == r.cancels;
  }

  predicate GivesUp(r: Registry, e: Event) {
    match e
    case DataComes(id, _, _) => id !in r.open || id !in Data(r, e.id, e.offset, e.bytes).open
    case StartRefuses(id) => id in r.open
    case Cancels(id) => id in r.open
    case _ => false
  }

  lemma SettledStays(r: Registry, e: Event, id: StreamId)
    requires RegistryOk(r) && id in r.streams
    ensures id in Step(r, e).streams
    ensures !r.streams[id].ended.Pending? ==> Step(r, e).streams[id].ended == r.streams[id].ended
  {
    hide Flatten;
  }

  lemma ClosedSettles(r: Registry, id: StreamId)
    requires RegistryOk(r) && r.closed && id in r.streams
    ensures !r.streams[id].ended.Pending?
  {
  }

  /** `ended` settles at most once, and by the time the connection has closed it has settled. */
  lemma {:induction false} EndsOnce(max: nat, events: seq<Event>, k: nat, id: StreamId)
    requires k <= |events| && id in Run(max, events[..k]).streams
    ensures var before, after := Run(max, events[..k]), Run(max, events);
            && id in after.streams
            && (!before.streams[id].ended.Pending? ==> after.streams[id].ended == before.streams[id].ended)
            && (after.closed ==> !after.streams[id].ended.Pending?)
    decreases |events|
  {
    hide Step, RegistryOk;
    RunKeeps(max, events);
    if k == |events| {
      assert events[..k] == events;
    } else {
      var init := events[..|events| - 1];
      assert init[..k] == events[..k];
      EndsOnce(max, init, k, id);
      RunKeeps(max, init);
      SettledStays(Run(max, init), events[|events| - 1], id);
    }
    if Run(max, events).closed {
      ClosedSettles(Run(max, events), id);
    }
  }

  lemma ClosedOpensNone(r: Registry, e: Event)
    requires RegistryOk(r) && r.closed
    ensures var r' := Step(r, e); r'.closed && r'.open == {} && r'.streams.Keys == r.streams.Keys
  {
    hide Flatten, Failed, Taken;
  }

  lemma RunMore(max: nat, events: seq<Event>, e: Event)
    ensures Run(max, events + [e]) == Step(Run(max, events), e)
  {
    assert (events + [e])[..|events|] == events;
  }

  lemma {:induction false} FromClosed(max: nat, events: seq<Event>, more: seq<Event>)
    requires Run(max, events).closed
    ensures var before, after := Run(max, events), Run(max, events + more);
            after.closed && after.open == before.open && after.streams.Keys == before.streams.Keys
  {
    hide Step, RegistryOk;
    RunKeeps(max, events);
    assert Run(max, events).open == {} by { ClosedIsEmpty(Run(max, events)); }
    if more == [] {
      assert events + more == events;
    } else {
      var init, last := more[..|more| - 1], more[|more| - 1];
      FromClosed(max, events, init);
      RunKeeps(max, events + init);
      assert events + more == events + init + [last];
      RunMore(max, events + init, last);
      hide Run;
      ClosedOpensNone(Run(max, events + init), last);
    }
  }

  lemma ClosedIsEmpty(r: Registry)
    requires RegistryOk(r) && r.closed
    ensures r.open == {}
  {
  }

  /** A new stream is open, empty and unread; nothing is opened on a closed connection, nor twice. */
  lemma OpenedIsEmpty(r: Registry, id: StreamId)
    ensures Step(r, Opens(id))
      == if !r.closed && id !in r.streams then
           r.(open := r.open + {id}, streams := r.streams[id := Stream(0, [], [], false, Taking, Pending)])
         else r
  {
  }

  /** How an event ends an open stream, if it does, whose chunks are another matter (`TakenIffItFits`). */
  function EndedBy(e: Event, id: StreamId): Ended {
    match e
    case StartRefuses(x) => if x == id then Rejected(StartRefused) else Pending
    case EndComes(x, failed, exit) =>
      if x != id then Pending else if failed then Rejected(NodeError) else Resolved(exit)
    case Cancels(x) => if x == id then Rejected(BodyCancelled) else Pending
    case Closes => Rejected(ConnectionClosed)
    case _ => Pending
  }

  /** A stream ends as what ends it says, once; one that ends well keeps what its consumer has not read yet, and one
      that fails drops it. The node is told to cancel one that fails here, while the connection is open. */
  lemma EndsAsItsEventSays(r: Registry, e: Event, id: StreamId)
    requires RegistryOk(r) && id in r.open && !(e.DataComes? && e.id == id)
    ensures var s, r' := r.streams[id], Step(r, e);
            && id in r'.streams && r'.streams[id].ended == EndedBy(e, id)
            && (id in r'.open <==> EndedBy(e, id).Pending?)
            && (EndedBy(e, id).Rejected? ==>
                  r'.streams[id] == s.(body := Gone, buffered := [], ended := EndedBy(e, id)))
            && (EndedBy(e, id).Resolved? ==> r'.streams[id] == s.(body := Closing, ended := EndedBy(e, id)))
            && (e in {StartRefuses(id), Cancels(id)} ==> r'.cancels == r.cancels + [id])
            && (e.EndComes? || e.Closes? ==> r'.cancels == r.cancels)
  {
  }

  /** A read is given the first chunk buffered; with none it waits while more can come, and else is given nothing. */
  lemma ReadIsGiven(r: Registry, id: StreamId)
    requires RegistryOk(r) && id in r.streams
    ensures var s, s' := r.streams[id], Step(r, Reads(id)).streams[id];
            && (s.buffered != [] ==> s' == s.(read := s.read + s.buffered[0], buffered := s.buffered[1..]))
            && (s.buffered == [] ==> s' == s.(asked := s.asked || id in r.open))
  {
  }

  /** A closed connection opens no stream any more, and has settled each that it had. */
  lemma ClosedForGood(max: nat, events: seq<Event>, more: seq<Event>, id: StreamId)
    ensures var before, after := Run(max, events), Run(max, events + [Closes] + more);
            && (id in after.streams <==> id in before.streams)
            && (id in after.streams ==> !after.streams[id].ended.Pending?)
  {
    hide Run;
    RunMore(max, events, Closes);
    FromClosed(max, events + [Closes], more);
    RunKeeps(max, events + [Closes] + more);
    RunKeeps(max, events);
  }

  // ---- The registry ----

  class StreamRegistry {
    const max: nat
    var streams: map<StreamId, Stream>
    var open: set<StreamId>
    var closed: bool
    var cancels: seq<StreamId>

    ghost function Model(): Registry
      reads this
    {
      Registry(max, streams, open, closed, cancels)
    }

    ghost predicate Valid()
      reads this
    {
      RegistryOk(Model())
    }

    constructor (max: nat)
      ensures Valid() && Model() == NewRegistry(max)
    {
      this.max := max;
      streams, open, closed, cancels := map[], {}, false, [];
    }

    method FailStream(id: StreamId, why: Why)
      requires id in streams
      modifies this
      ensures Model() == Fail(old(Model()), id, why)
    {
      open := open - {id};
      streams := streams[id := Failed(streams[id], why)];
      cancels := cancels + [id];
    }

    method OpenStream(id: StreamId) returns (isNew: bool)
      requires Valid() && id !in streams
      modifies this
      ensures Valid() && Model() == Open(old(Model()), id) && isNew == !old(closed)
    {
      StepKeeps(Model(), Opens(id));
      if closed {
        return false;
      }
      streams := streams[id := NEW_STREAM];
      open := open + {id};
      isNew := true;
    }

    method OnStartRefused(id: StreamId)
      requires Valid()
      modifies this
      ensures Valid() && Model() == RefuseStart(old(Model()), id)
    {
      StepKeeps(Model(), StartRefuses(id));
      if id in open {
        FailStream(id, StartRefused);
      }
    }

    method OnData(id: StreamId, offset: nat, bytes: Chunk)
      requires Valid()
      modifies this
      ensures Valid() && Model() == Data(old(Model()), id, offset, bytes)
    {
      DataKeeps(Model(), id, offset, bytes);
      if id !in open {
        cancels := cancels + [id];
        return;
      }
      var s := streams[id];
      if offset != s.received {
        FailStream(id, Gap);
        return;
      }
      hide RegistryOk, Flatten;
      s := s.(received := s.received + |bytes|);
      s := if s.asked then s.(read := s.read + bytes, asked := false) else s.(buffered := s.buffered + [bytes]);
      streams := streams[id := s];
      if |Flatten(s.buffered)| > max {
        FailStream(id, Overflow);
      }
    }

    method OnEnd(id: StreamId, failed: bool, exit: Option<int>)
      requires Valid()
      modifies this
      ensures Valid() && Model() == End(old(Model()), id, failed, exit)
    {
      StepKeeps(Model(), EndComes(id, failed, exit));
      if id !in open {
        return;
      }
      open := open - {id};
      if failed {
        streams := streams[id := Failed(streams[id], NodeError)];
      } else {
        streams := streams[id := streams[id].(body := Closing, ended := Resolved(exit))];
      }
    }

    method OnClose()
      requires Valid()
      modifies this
      ensures Valid() && Model() == CloseAll(old(Model()))
    {
      StepKeeps(Model(), Closes);
      closed := true;
      var left := open;
      while left != {}
        invariant left <= open == old(open) <= streams.Keys && streams.Keys == old(streams).Keys && closed
        invariant cancels == old(cancels)
        invariant forall id :: id in streams ==>
          streams[id] == if id in open - left then Failed(old(streams)[id], ConnectionClosed) else old(streams)[id]
        decreases left
      {
        var id :| id in left;
        streams := streams[id := Failed(streams[id], ConnectionClosed)];
        left := left - {id};
      }
      open := {};
    }
  }
}
