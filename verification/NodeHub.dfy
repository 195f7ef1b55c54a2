/** The hub of node connections (`createNodeHub`): which connection is each node's link, and what browsers are told. */
module NodeHub {
  import opened Bytes
  import SP = ServerPeer

  type NodeId = SP.NodeId
  type BuildId = SP.BuildId

  datatype BuildStatus = Updating | Current | Outdated

  datatype Build = Build(id: BuildId, status: BuildStatus)

  /** The versions a node that cannot negotiate offered. */
  type Failure = (nat, nat)

  /** A connection: its transport, whether its socket is open, whether its `onclose` and its negotiation's reaction
      ran, and the node it became the link of. */
  datatype Conn = Conn(transport: SP.Transport, open: bool, closeHeard: bool, heard: bool, link: Option<NodeId>)

  /** `served` are the nodes the server serves, `published` the `connected` flag last published for each node. For the
      proofs: `news` is every flag published, `lagged` the nodes last published between their link's close and its
      `onclose`, `log` who became whose link. */
  datatype Hub = Hub(
    conns: seq<Conn>, links: map<NodeId, nat>, builds: map<NodeId, Build>, failures: map<NodeId, Failure>,
    serverBuild: Option<BuildId>, closed: bool, served: set<NodeId>, published: map<NodeId, bool>,
    news: seq<(NodeId, bool)>, lagged: set<NodeId>, log: seq<(NodeId, nat)>)

  const NEW_HUB := Hub([], map[], map[], map[], None, false, {}, map[], [], {}, [])

  predicate IsOpen(h: Hub, n: NodeId) {
    n in h.links && h.links[n] < |h.conns| && h.conns[h.links[n]].open
  }

  /** The node's link is closed and that has not been heard. */
  predicate Lagging(h: Hub, n: NodeId) {
    n in h.links && !IsOpen(h, n)
  }

  function Publish(h: Hub, n: NodeId): Hub {
    h.(published := h.published[n := IsOpen(h, n)], news := h.news + [(n, IsOpen(h, n))],
       lagged := if Lagging(h, n) then h.lagged + {n} else h.lagged - {n})
  }

  function NegotiationFailed(h: Hub, n: NodeId, failure: Failure): Hub {
    if n in h.failures && h.failures[n] == failure then h else Publish(h.(failures := h.failures[n := failure]), n)
  }

  function OfferUpdate(h: Hub, n: NodeId, build: BuildId, bundle: SP.Bundle): Hub {
    match bundle
    case Building => h
    case NoBuild => h.(serverBuild := None)
    case Built(own) =>
      var known := h.(serverBuild := Some(own));
      if own == build then known else Publish(known.(builds := h.builds[n := Build(build, Updating)]), n)
  }

  function WithTransport(h: Hub, c: nat, t: SP.Transport): Hub
    requires c < |h.conns|
  {
    h.(conns := h.conns[c := h.conns[c].(transport := t)])
  }

  function WithOpen(h: Hub, c: nat, open: bool): Hub
    requires c < |h.conns|
  {
    h.(conns := h.conns[c := h.conns[c].(open := open)])
  }

  /** A hello that was just answered for want of a common version is a failed negotiation. */
  function Noted(h: Hub, c: nat, i: nat): Hub {
    if c < |h.conns| && i < |h.conns[c].transport.hellos|
      && h.conns[c].transport.hellos[i].phase == SP.Answered(SP.NoCommonVersion) then
      var hello := h.conns[c].transport.hellos[i].hello;
      NegotiationFailed(h, hello.node, (hello.minVersion, hello.maxVersion))
    else h
  }

  function OnClose(h: Hub, c: nat): Hub
    requires c < |h.conns|
  {
    var conn := h.conns[c];
    var left := h.(conns := h.conns[c := conn.(transport := SP.Close(conn.transport), closeHeard := true)]);
    if conn.link.Some? && conn.link.value in h.links && h.links[conn.link.value] == c then
      var n := conn.link.value;
      Publish(left.(links := h.links - {n}, builds := h.builds - {n}), n)
    else left
  }

  function CloseSocket(h: Hub, c: nat): Hub {
    if c < |h.conns| then WithOpen(h, c, false) else h
  }

  /** The hub once `c` is the link of `n`, before anything is published. */
  function Linked(h: Hub, c: nat, n: NodeId): Hub
    requires c < |h.conns|
  {
    var linked := h.(conns := h.conns[c := h.conns[c].(heard := true, link := Some(n))], links := h.links[n := c],
      log := h.log + [(n, c)]);
    if n in h.links && h.links[n] != c then CloseSocket(linked, h.links[n]) else linked
  }

  /** The negotiation's reaction. */
  function OnNegotiated(h: Hub, c: nat): Hub
    requires c < |h.conns| && h.conns[c].transport.negotiation.Negotiated?
  {
    var conn := h.conns[c];
    if !conn.open || h.closed then h.(conns := h.conns[c := conn.(heard := true, open := false)])
    else
      var n, build := conn.transport.negotiation.node, conn.transport.negotiation.build;
      var known := Linked(h, c, n).(failures := h.failures - {n}, builds := BuildsWith(h, n, build));
      if n !in h.links || (n in h.builds && h.builds[n].status.Updating?) then Publish(known, n) else known
  }

  function BuildsWith(h: Hub, n: NodeId, build: Option<BuildId>): map<NodeId, Build> {
    if build.None? then h.builds - {n}
    else h.builds[n := Build(build.value, if build == h.serverBuild then Current else Outdated)]
  }

  function CloseLinks(conns: seq<Conn>, links: map<NodeId, nat>): (closed: seq<Conn>)
    ensures |closed| == |conns|
    ensures forall c :: 0 <= c < |conns| ==> closed[c] == if c in links.Values then conns[c].(open := false)
        else conns[c]
  {
    seq(|conns|, c requires 0 <= c < |conns| => if c in links.Values then conns[c].(open := false) else conns[c])
  }

  function CloseAll(h: Hub): Hub {
    h.(closed := true, conns := CloseLinks(h.conns, h.links), links := map[])
  }

  datatype Event =
    | Accepts(challenges: bool)
    | HelloArrives(c: nat, hello: SP.Hello)
    | ChallengeAnswered(c: nat, node: NodeId, valid: bool)
    | HelloResumes(c: nat, i: nat)
    | BuildAnswered(c: nat, i: nat, bundle: SP.Bundle)
    | NegotiationHeard(c: nat)
    | SocketCloses(c: nat)
    | TimesOut(c: nat)
    | CloseHeard(c: nat)
    | Disconnects(n: NodeId)
    | Publishes(n: NodeId)
    | ServesFrom(n: NodeId, served: bool)
    | HubCloses

  predicate Enabled(h: Hub, e: Event) {
    match e
    case Accepts(_) => !h.closed
    case HelloArrives(c, _) => c < |h.conns| && h.conns[c].open
    case ChallengeAnswered(c, _, _) => c < |h.conns| && h.conns[c].open
    case HelloResumes(c, i) => c < |h.conns| && i < |h.conns[c].transport.hellos|
      && h.conns[c].transport.hellos[i].phase.AwaitsAuth?
    case BuildAnswered(c, i, _) =>
      c < |h.conns| && i < |h.conns[c].transport.hellos| && h.conns[c].transport.hellos[i].phase.AwaitsBuild?
      && h.conns[c].transport.hellos[i].hello.build.Some?
    case NegotiationHeard(c) => c < |h.conns| && h.conns[c].transport.negotiation.Negotiated? && !h.conns[c].heard
    case SocketCloses(c) => c < |h.conns| && h.conns[c].open
    case TimesOut(c) => c < |h.conns| && h.conns[c].open && !h.conns[c].transport.ready
    case CloseHeard(c) => c < |h.conns| && !h.conns[c].open && !h.conns[c].closeHeard
    case _ => true
  }

  function Step(h: Hub, e: Event): Hub {
    if !Enabled(h, e) then h
    else
      match e
      case Accepts(challenges) => h.(conns := h.conns + [Conn(SP.NewTransport(challenges), true, false, false, None)])
      case HelloArrives(c, hello) =>
        var t := h.conns[c].transport;
        Noted(WithTransport(h, c, SP.Step(t, SP.HelloArrives(hello, hello.node in h.served))), c, |t.hellos|)
      case ChallengeAnswered(c, node, valid) => WithTransport(h, c,
        SP.Step(h.conns[c].transport, SP.ChallengeAnswered(node, valid)))
      case HelloResumes(c, i) =>
        var t := h.conns[c].transport;
        Noted(WithTransport(h, c, SP.Step(t, SP.HelloResumes(i, t.hellos[i].hello.node in h.served))), c, i)
      case BuildAnswered(c, i, bundle) =>
        var t := h.conns[c].transport;
        var offered := OfferUpdate(h, t.hellos[i].hello.node, t.hellos[i].hello.build.value, bundle);
        Noted(offered.(conns := h.conns[c := h.conns[c].(transport := SP.Step(t, SP.BuildAnswered(i, bundle)))]), c, i)
      case NegotiationHeard(c) => OnNegotiated(h, c)
      case SocketCloses(c) => WithOpen(h, c, false)
      case TimesOut(c) => WithOpen(WithTransport(h, c, SP.Close(h.conns[c].transport)), c, false)
      case CloseHeard(c) => OnClose(h, c)
      case Disconnects(n) => if n in h.links then CloseSocket(h, h.links[n]) else h
      case Publishes(n) => Publish(h, n)
      case ServesFrom(n, served) => h.(served := if served then h.served + {n} else h.served - {n})
      case HubCloses => CloseAll(h)
  }

  function Run(events: seq<Event>): Hub {
    if events == [] then NEW_HUB else Step(Run(events[..|events| - 1]), events[|events| - 1])
  }

  // ---- What every step keeps ----

  /** The connection that became the node's link last. */
  function LastLink(log: seq<(NodeId, nat)>, n: NodeId): Option<nat> {
    if log == [] then None
    else if log[|log| - 1].0 == n then Some(log[|log| - 1].1)
    else LastLink(log[..|log| - 1], n)
  }

  ghost predicate ConnOk(conn: Conn) {
    && SP.TransportOk(conn.transport)
    && (conn.closeHeard ==> !conn.open)
    && (conn.link.Some? ==>
         conn.heard && conn.transport.negotiation.Negotiated? && conn.transport.negotiation.node == conn.link.value)
  }

  ghost predicate ConnsOk(h: Hub) {
    forall c :: 0 <= c < |h.conns| ==> ConnOk(h.conns[c])
  }

  predicate IsLinkOf(h: Hub, n: NodeId, c: nat) {
    n in h.links && h.links[n] == c
  }

  ghost predicate LinkFor(h: Hub, n: NodeId) {
    n in h.links ==> h.links[n] < |h.conns| && h.conns[h.links[n]].link == Some(n) && !h.conns[h.links[n]].closeHeard
  }

  ghost predicate OpenFor(h: Hub, c: nat)
    requires c < |h.conns|
  {
    h.conns[c].open && h.conns[c].link.Some? ==> IsLinkOf(h, h.conns[c].link.value, c)
  }

  ghost predicate LinksOk(h: Hub) {
    && (forall n: NodeId :: LinkFor(h, n))
    && (forall c: nat :: c < |h.conns| ==> OpenFor(h, c))
    && (h.closed ==> h.links == map[])
  }

  /** The node's link is the connection that became it last, until that one's close is heard. */
  ghost predicate LogFor(h: Hub, n: NodeId) {
    var last := LastLink(h.log, n);
    && (last.Some? ==> last.value < |h.conns| && h.conns[last.value].link == Some(n))
    && (!h.closed ==> if last.Some? && !h.conns[last.value].closeHeard then IsLinkOf(h, n, last.value)
          else n !in h.links)
  }

  ghost predicate LogOk(h: Hub) {
    forall n: NodeId :: LogFor(h, n)
  }

  ghost predicate PublishedFor(h: Hub, n: NodeId) {
    && (n in h.links ==> n in h.published)
    && (n in h.published ==> (h.published[n] <==> n in h.links && n !in h.lagged))
    && (n in h.lagged ==> n in h.links)
  }

  ghost predicate PublishedOk(h: Hub) {
    !h.closed ==> forall n: NodeId :: PublishedFor(h, n)
  }

  ghost predicate HubOk(h: Hub) {
    ConnsOk(h) && LinksOk(h) && LogOk(h) && PublishedOk(h)
  }

  /** What a state takes over from another that differs in neither links, log nor what is published. */
  lemma SameLinks(h: Hub, h': Hub)
    requires HubOk(h) && ConnsOk(h') && |h'.conns| == |h.conns|
    requires h'.links == h.links && h'.log == h.log && h'.closed == h.closed && h'.published == h.published
        && h'.lagged == h.lagged
    requires forall c: nat :: c < |h.conns| ==>
      h'.conns[c].link == h.conns[c].link && h'.conns[c].closeHeard == h.conns[c].closeHeard
        && (h'.conns[c].open ==> h.conns[c].open)
    ensures HubOk(h')
  {
    hide ConnsOk;
    forall n: NodeId
      ensures LinkFor(h', n) && LogFor(h', n)
    {
      assert LinkFor(h, n) && LogFor(h, n);
    }
    forall c: nat | c < |h.conns|
      ensures OpenFor(h', c)
    {
      assert OpenFor(h, c);
    }
    forall n: NodeId | !h.closed
      ensures PublishedFor(h', n)
    {
      assert PublishedFor(h, n);
    }
  }

  /** Publishing a node sets what is published of it, whatever that was. */
  lemma PublishKeeps(h: Hub, n: NodeId)
    requires ConnsOk(h) && LinksOk(h) && LogOk(h)
    requires forall m: NodeId :: !h.closed && m != n ==> PublishedFor(h, m)
    ensures HubOk(Publish(h, n))
  {
    hide ConnOk;
    var h' := Publish(h, n);
    assert ConnsOk(h');
    assert LinksOk(h') by {
      forall m: NodeId
        ensures LinkFor(h', m)
      {
        assert LinkFor(h, m);
      }
      forall c: nat | c < |h.conns|
        ensures OpenFor(h', c)
      {
        assert OpenFor(h, c);
      }
    }
    assert LogOk(h') by {
      forall m: NodeId
        ensures LogFor(h', m)
      {
        assert LogFor(h, m);
      }
    }
    forall m: NodeId | !h.closed
      ensures PublishedFor(h', m)
    {
      if m != n {
        assert PublishedFor(h, m);
      }
    }
  }

  lemma FailureKeeps(h: Hub, n: NodeId, failure: Failure)
    requires HubOk(h)
    ensures HubOk(NegotiationFailed(h, n, failure))
  {
    var h' := h.(failures := h.failures[n := failure]);
    assert ConnsOk(h');
    SameLinks(h, h');
    hide ConnsOk, LinksOk, LogOk;
    PublishKeeps(h', n);
  }

  lemma NotedKeeps(h: Hub, c: nat, i: nat)
    requires HubOk(h)
    ensures HubOk(Noted(h, c, i))
  {
    hide HubOk;
    if c < |h.conns| && i < |h.conns[c].transport.hellos| {
      var hello := h.conns[c].transport.hellos[i].hello;
      FailureKeeps(h, hello.node, (hello.minVersion, hello.maxVersion));
    }
  }

  /** A connection that goes a step further without its link, its `onclose` or a reopening. */
  lemma ConnStepKeeps(h: Hub, c: nat, conn: Conn)
    requires HubOk(h) && c < |h.conns| && ConnOk(conn)
    requires conn.link == h.conns[c].link && conn.closeHeard == h.conns[c].closeHeard && (conn.open ==> h.conns[c].open)
    ensures HubOk(h.(conns := h.conns[c := conn]))
  {
    var h' := h.(conns := h.conns[c := conn]);
    assert ConnsOk(h');
    hide ConnsOk, ConnOk, LinksOk, LogOk, PublishedOk;
    SameLinks(h, h');
  }

  lemma NegotiationStands(t: SP.Transport, e: SP.Event)
    requires SP.TransportOk(t)
    ensures SP.TransportOk(SP.Step(t, e))
    ensures t.negotiation.Negotiated? ==> SP.Step(t, e).negotiation == t.negotiation
  {
    SP.StepKeeps(t, e);
  }

  lemma TransportStepKeeps(h: Hub, c: nat, e: SP.Event)
    requires HubOk(h) && c < |h.conns|
    ensures HubOk(WithTransport(h, c, SP.Step(h.conns[c].transport, e)))
  {
    NegotiationStands(h.conns[c].transport, e);
    var conn := h.conns[c].(transport := SP.Step(h.conns[c].transport, e));
    assert ConnOk(h.conns[c]);
    hide HubOk, SP.Step, SP.TransportOk;
    ConnStepKeeps(h, c, conn);
  }

  lemma OfferKeeps(h: Hub, n: NodeId, build: BuildId, bundle: SP.Bundle)
    requires HubOk(h)
    ensures HubOk(OfferUpdate(h, n, build, bundle))
  {
    if !bundle.Building? {
      var known := h.(serverBuild := if bundle.NoBuild? then None else Some(bundle.build));
      assert ConnsOk(known);
      SameLinks(h, known);
      var told := known.(builds := h.builds[n := Build(build, Updating)]);
      assert ConnsOk(told);
      SameLinks(h, told);
      hide ConnsOk, LinksOk, LogOk;
      PublishKeeps(told, n);
    }
  }

  lemma AcceptKeeps(h: Hub, challenges: bool)
    requires HubOk(h) && !h.closed
    ensures HubOk(Step(h, Accepts(challenges)))
  {
    SP.NewIsOk(challenges);
    hide SP.TransportOk;
    var h' := Step(h, Accepts(challenges));
    assert ConnsOk(h');
    forall n: NodeId
      ensures LinkFor(h', n) && LogFor(h', n) && PublishedFor(h', n)
    {
      assert LinkFor(h, n) && LogFor(h, n) && PublishedFor(h, n);
    }
    forall c: nat | c < |h'.conns|
      ensures OpenFor(h', c)
    {
      if c < |h.conns| {
        assert OpenFor(h, c);
      }
    }
  }

  /** What stays of a hub when its node loses its link. */
  lemma UnlinkKeeps(h: Hub, n: NodeId, conn: Conn, builds: map<NodeId, Build>)
    requires HubOk(h) && n in h.links && ConnOk(conn)
    requires h.links[n] < |h.conns| && conn.link == Some(n) && conn.closeHeard && !conn.open
    ensures HubOk(Publish(h.(conns := h.conns[h.links[n] := conn], links := h.links - {n}, builds := builds), n))
  {
    hide ConnOk;
    var h' := h.(conns := h.conns[h.links[n] := conn], links := h.links - {n}, builds := builds);
    assert ConnsOk(h');
    assert LinkFor(h, n) && LogFor(h, n);
    forall m: NodeId
      ensures LinkFor(h', m) && LogFor(h', m)
      ensures !h.closed && m != n ==> PublishedFor(h', m)
    {
      assert LinkFor(h, m) && LogFor(h, m);
      assert !h.closed ==> PublishedFor(h, m);
    }
    forall c: nat | c < |h.conns|
      ensures OpenFor(h', c)
    {
      assert OpenFor(h, c);
    }
    assert LinksOk(h') && LogOk(h');
    hide ConnsOk, LinksOk, LogOk, PublishedFor;
    PublishKeeps(h', n);
  }

  lemma CloseHeardKeeps(h: Hub, c: nat)
    requires HubOk(h) && Enabled(h, CloseHeard(c))
    ensures HubOk(OnClose(h, c))
  {
    assert ConnOk(h.conns[c]) && OpenFor(h, c);
    NegotiationStands(h.conns[c].transport, SP.Closes);
    var conn := h.conns[c].(transport := SP.Close(h.conns[c].transport), closeHeard := true);
    assert ConnOk(conn);
    if conn.link.Some? && IsLinkOf(h, conn.link.value, c) {
      UnlinkKeeps(h, conn.link.value, conn, h.builds - {conn.link.value});
    } else {
      SupersededCloseKeeps(h, c, conn);
    }
  }

  /** The close of a connection that is no node's link, or no longer. */
  lemma SupersededCloseKeeps(h: Hub, c: nat, conn: Conn)
    requires HubOk(h) && c < |h.conns| && ConnOk(conn) && !conn.open && conn.closeHeard && conn.link == h.conns[c].link
    requires conn.link.Some? ==> !IsLinkOf(h, conn.link.value, c)
    ensures HubOk(h.(conns := h.conns[c := conn]))
  {
    hide ConnOk;
    var h' := h.(conns := h.conns[c := conn]);
    assert ConnsOk(h');
    forall n: NodeId
      ensures LinkFor(h', n) && LogFor(h', n)
      ensures !h.closed ==> PublishedFor(h', n)
    {
      assert LinkFor(h, n) && LogFor(h, n);
      assert !h.closed ==> PublishedFor(h, n);
    }
    forall d: nat | d < |h.conns|
      ensures OpenFor(h', d)
    {
      assert OpenFor(h, d);
    }
  }

  lemma LastLinkAppend(log: seq<(NodeId, nat)>, n: NodeId, c: nat, m: NodeId)
    ensures LastLink(log + [(n, c)], m) == if m == n then Some(c) else LastLink(log, m)
  {
    assert (log + [(n, c)])[..|log|] == log;
  }

  lemma LinkedKeepsConns(h: Hub, c: nat, n: NodeId)
    requires HubOk(h) && c < |h.conns|
    requires h.conns[c].transport.negotiation.Negotiated? && h.conns[c].transport.negotiation.node == n
    ensures ConnsOk(Linked(h, c, n))
  {
    var h' := Linked(h, c, n);
    forall d | 0 <= d < |h.conns|
      ensures ConnOk(h'.conns[d])
    {
      assert ConnOk(h.conns[d]);
    }
  }

  /** The new link is the node's only open one: the link it replaces is closed. */
  lemma LinkedKeeps(h: Hub, c: nat, n: NodeId)
    requires HubOk(h) && !h.closed && c < |h.conns| && h.conns[c].open && !h.conns[c].closeHeard
        && h.conns[c].link.None?
    ensures LinksOk(Linked(h, c, n)) && LogOk(Linked(h, c, n))
    ensures forall m: NodeId :: m != n || n in h.links ==> PublishedFor(Linked(h, c, n), m)
  {
    hide ConnsOk;
    var h' := Linked(h, c, n);
    assert LinkFor(h, n);
    forall m: NodeId
      ensures LinkFor(h', m) && LogFor(h', m)
      ensures m != n || n in h.links ==> PublishedFor(h', m)
    {
      assert LinkFor(h, m) && LogFor(h, m) && PublishedFor(h, m);
      LastLinkAppend(h.log, n, c, m);
    }
    forall d: nat | d < |h.conns|
      ensures OpenFor(h', d)
    {
      assert OpenFor(h, d);
    }
  }

  lemma NegotiatedKeeps(h: Hub, c: nat)
    requires HubOk(h) && c < |h.conns| && h.conns[c].transport.negotiation.Negotiated? && !h.conns[c].heard
    ensures HubOk(OnNegotiated(h, c))
  {
    var conn := h.conns[c];
    assert ConnOk(conn);
    if !conn.open || h.closed {
      ConnStepKeeps(h, c, conn.(heard := true, open := false));
    } else {
      var n, build := conn.transport.negotiation.node, conn.transport.negotiation.build;
      LinkedKeepsConns(h, c, n);
      LinkedKeeps(h, c, n);
      KnownKeeps(h, c, n, h.failures - {n}, BuildsWith(h, n, build));
    }
  }

  lemma KnownKeeps(h: Hub, c: nat, n: NodeId, failures: map<NodeId, Failure>, builds: map<NodeId, Build>)
    requires c < |h.conns| && ConnsOk(Linked(h, c, n)) && LinksOk(Linked(h, c, n)) && LogOk(Linked(h, c, n))
    requires forall m: NodeId :: m != n || n in h.links ==> PublishedFor(Linked(h, c, n), m)
    ensures var known := Linked(h, c, n).(failures := failures, builds := builds);
            HubOk(Publish(known, n)) && (n in h.links ==> HubOk(known))
  {
    hide ConnOk;
    var linked := Linked(h, c, n);
    hide Linked;
    var known := linked.(failures := failures, builds := builds);
    assert ConnsOk(known);
    forall m: NodeId
      ensures LinkFor(known, m) && LogFor(known, m)
      ensures PublishedFor(linked, m) ==> PublishedFor(known, m)
    {
      assert LinkFor(linked, m) && LogFor(linked, m);
    }
    forall d: nat | d < |known.conns|
      ensures OpenFor(known, d)
    {
      assert OpenFor(linked, d);
    }
    assert LinksOk(known) && LogOk(known);
    hide ConnsOk, LinksOk, LogOk, LinkFor, LogFor;
    PublishKeeps(known, n);
  }

  lemma HubCloseKeeps(h: Hub)
    requires HubOk(h)
    ensures HubOk(CloseAll(h))
  {
    var h' := CloseAll(h);
    forall c: nat | c < |h.conns|
      ensures ConnOk(h'.conns[c]) && OpenFor(h', c)
    {
      assert ConnOk(h.conns[c]) && OpenFor(h, c);
      if h.conns[c].open && h.conns[c].link.Some? {
        assert h.links[h.conns[c].link.value] in h.links.Values;
      }
    }
    forall n: NodeId
      ensures LinkFor(h', n) && LogFor(h', n)
    {
      assert LogFor(h, n);
    }
  }

  lemma StepKeeps(h: Hub, e: Event)
    requires HubOk(h)
    ensures HubOk(Step(h, e))
  {
    if Enabled(h, e) {
      assert e.SocketCloses? || e.TimesOut? ==> ConnOk(h.conns[e.c]);
      assert e.Disconnects? ==> LinkFor(h, e.n);
      assert e.Disconnects? && e.n in h.links ==> ConnOk(h.conns[h.links[e.n]]);
      assert e.SocketCloses? ==> ConnOk(h.conns[e.c].(open := false));
      assert e.Disconnects? && e.n in h.links ==> ConnOk(h.conns[h.links[e.n]].(open := false));
      hide HubOk, ConnOk, LinkFor, SP.Step, Noted, OnNegotiated, OnClose, Publish;
      match e
      case Accepts(challenges) => AcceptKeeps(h, challenges);
      case HelloArrives(c, hello) => ArriveKeeps(h, c, hello);
      case ChallengeAnswered(c, node, valid) => TransportStepKeeps(h, c, SP.ChallengeAnswered(node, valid));
      case HelloResumes(c, i) => ResumeKeeps(h, c, i);
      case BuildAnswered(c, i, bundle) => BuildKeeps(h, c, i, bundle);
      case NegotiationHeard(c) => NegotiatedKeeps(h, c);
      case SocketCloses(c) => ConnStepKeeps(h, c, h.conns[c].(open := false));
      case TimesOut(c) => TimeOutKeeps(h, c);
      case CloseHeard(c) => CloseHeardKeeps(h, c);
      case Disconnects(n) => if n in h.links { ConnStepKeeps(h, h.links[n], h.conns[h.links[n]].(open := false)); }
      case Publishes(n) => PublishKeepsAll(h, n);
      case ServesFrom(n, served) => ServesKeeps(h, n, served);
      case HubCloses => HubCloseKeeps(h);
    }
  }

  lemma TimeOutKeeps(h: Hub, c: nat)
    requires HubOk(h) && c < |h.conns|
    ensures HubOk(WithOpen(WithTransport(h, c, SP.Close(h.conns[c].transport)), c, false))
  {
    assert ConnOk(h.conns[c]);
    ClosedConnOk(h.conns[c]);
    hide HubOk, ConnOk, SP.Close, SP.TransportOk;
    var conn := h.conns[c].(transport := SP.Close(h.conns[c].transport), open := false);
    ConnStepKeeps(h, c, conn);
    assert WithOpen(WithTransport(h, c, conn.transport), c, false).conns == h.conns[c := conn];
  }

  lemma ClosedConnOk(conn: Conn)
    requires ConnOk(conn)
    ensures ConnOk(conn.(transport := SP.Close(conn.transport), open := false))
  {
    NegotiationStands(conn.transport, SP.Closes);
  }

  lemma ArriveKeeps(h: Hub, c: nat, hello: SP.Hello)
    requires HubOk(h) && c < |h.conns|
    ensures var t := h.conns[c].transport;
            HubOk(Noted(WithTransport(h, c, SP.Step(t, SP.HelloArrives(hello, hello.node in h.served))), c, |t.hellos|))
  {
    hide HubOk;
    var t, e := h.conns[c].transport, SP.HelloArrives(hello, hello.node in h.served);
    TransportStepKeeps(h, c, e);
    NotedKeeps(WithTransport(h, c, SP.Step(t, e)), c, |t.hellos|);
  }

  lemma ResumeKeeps(h: Hub, c: nat, i: nat)
    requires HubOk(h) && Enabled(h, HelloResumes(c, i))
    ensures HubOk(Step(h, HelloResumes(c, i)))
  {
    hide HubOk;
    var t := h.conns[c].transport;
    var e := SP.HelloResumes(i, t.hellos[i].hello.node in h.served);
    TransportStepKeeps(h, c, e);
    NotedKeeps(WithTransport(h, c, SP.Step(t, e)), c, i);
  }

  lemma BuildKeeps(h: Hub, c: nat, i: nat, bundle: SP.Bundle)
    requires HubOk(h) && Enabled(h, BuildAnswered(c, i, bundle))
    ensures HubOk(Step(h, BuildAnswered(c, i, bundle)))
  {
    hide HubOk, Noted, SP.Step;
    var t := h.conns[c].transport;
    var offered := OfferUpdate(h, t.hellos[i].hello.node, t.hellos[i].hello.build.value, bundle);
    OfferKeeps(h, t.hellos[i].hello.node, t.hellos[i].hello.build.value, bundle);
    TransportStepKeeps(offered, c, SP.BuildAnswered(i, bundle));
    NotedKeeps(WithTransport(offered, c, SP.Step(t, SP.BuildAnswered(i, bundle))), c, i);
  }

  lemma PublishKeepsAll(h: Hub, n: NodeId)
    requires HubOk(h)
    ensures HubOk(Publish(h, n))
  {
    PublishKeeps(h, n);
  }

  lemma ServesKeeps(h: Hub, n: NodeId, served: bool)
    requires HubOk(h)
    ensures HubOk(Step(h, ServesFrom(n, served)))
  {
    var h' := Step(h, ServesFrom(n, served));
    assert ConnsOk(h');
    SameLinks(h, h');
  }

  lemma {:induction false} RunKeeps(events: seq<Event>)
    ensures HubOk(Run(events))
  {
    hide Step;
    if events == [] {
      forall n: NodeId
        ensures LinkFor(NEW_HUB, n) && LogFor(NEW_HUB, n) && PublishedFor(NEW_HUB, n)
      {
      }
    } else {
      RunKeeps(events[..|events| - 1]);
      StepKeeps(Run(events[..|events| - 1]), events[|events| - 1]);
    }
  }

  // ---- What its events come to ----

  /** Publishing tells whether the node has an open link now. */
  predicate Publishing(h: Hub, h': Hub, n: NodeId) {
    h'.news == h.news + [(n, n in h.links && h.links[n] < |h.conns| && h.conns[h.links[n]].open)]
  }

  /** The hello `i` of connection `c` is answered that there is no common version. */
  predicate FindsNoVersion(h: Hub, c: nat, i: nat) {
    c < |h.conns| && i < |h.conns[c].transport.hellos|
    && h.conns[c].transport.hellos[i].phase == SP.Answered(SP.NoCommonVersion)
  }

  /** Its versions are the node's failure, published just when it is another than the one known. */
  predicate KeepsFailure(h: Hub, h': Hub, hello: SP.Hello) {
    && h'.failures == h.failures[hello.node := (hello.minVersion, hello.maxVersion)]
    && (if hello.node in h.failures && h.failures[hello.node] == (hello.minVersion, hello.maxVersion) then
          h'.news == h.news
        else Publishing(h, h', hello.node))
  }

  lemma NotedKeepsFailure(h: Hub, c: nat, i: nat)
    ensures var h' := Noted(h, c, i);
            && h'.links == h.links && h'.builds == h.builds && h'.serverBuild == h.serverBuild && h'.conns == h.conns
            && (if FindsNoVersion(h, c, i) then KeepsFailure(h, h', h.conns[c].transport.hellos[i].hello) else h' == h)
  {
  }

  /** A hello answered as it arrives leaves its failure, if it is one, and no other. */
  lemma ArrivalIsNoted(h: Hub, c: nat, hello: SP.Hello)
    requires c < |h.conns| && h.conns[c].open
    ensures var h' := Step(h, HelloArrives(c, hello));
            && h'.links == h.links && h'.builds == h.builds
            && (if !h.conns[c].transport.closed && FindsNoVersion(h', c, |h.conns[c].transport.hellos|) then
                  KeepsFailure(h, h', hello)
                else h'.news == h.news && h'.failures == h.failures)
  {
    var t := h.conns[c].transport;
    var arrival := SP.HelloArrives(hello, hello.node in h.served);
    SP.ArrivalDecides(t, hello, hello.node in h.served);
    hide Noted, SP.Step;
    NotedKeepsFailure(WithTransport(h, c, SP.Step(t, arrival)), c, |t.hellos|);
  }

  lemma SameHello(t: SP.Transport, e: SP.Event, i: nat)
    requires i < |t.hellos| && (e.HelloResumes? || e.BuildAnswered?)
    ensures |SP.Step(t, e).hellos| == |t.hellos| && SP.Step(t, e).hellos[i].hello == t.hellos[i].hello
  {
  }

  /** So does one answered once authenticated. */
  lemma ResumptionIsNoted(h: Hub, c: nat, i: nat)
    requires Enabled(h, HelloResumes(c, i))
    ensures var h' := Step(h, HelloResumes(c, i));
            && h'.links == h.links && h'.builds == h.builds
            && (if FindsNoVersion(h', c, i) then KeepsFailure(h, h', h.conns[c].transport.hellos[i].hello)
                else h'.news == h.news && h'.failures == h.failures)
  {
    var t := h.conns[c].transport;
    var resumption := SP.HelloResumes(i, t.hellos[i].hello.node in h.served);
    SameHello(t, resumption, i);
    hide Noted, SP.Step;
    NotedKeepsFailure(WithTransport(h, c, SP.Step(t, resumption)), c, i);
  }

  lemma OfferIs(h: Hub, n: NodeId, build: BuildId, bundle: SP.Bundle)
    ensures var h' := OfferUpdate(h, n, build, bundle);
            && h'.links == h.links && h'.conns == h.conns && h'.failures == h.failures
            && h'.serverBuild == (match bundle
                case Building => h.serverBuild
                case NoBuild => None
                case Built(own) => Some(own))
            && (if bundle.Built? && bundle.build != build then
                  h'.builds == h.builds[n := Build(build, Updating)] && Publishing(h, h', n)
                else h'.builds == h.builds && h'.news == h.news)
  {
  }

  lemma AnotherBuildIsNoFailure(t: SP.Transport, i: nat, bundle: SP.Bundle)
    requires i < |t.hellos| && t.hellos[i].phase.AwaitsBuild?
    requires bundle.Built? && t.hellos[i].hello.build.Some? && bundle.build != t.hellos[i].hello.build.value
    ensures SP.Step(t, SP.BuildAnswered(i, bundle)).hellos[i].phase != SP.Answered(SP.NoCommonVersion)
  {
  }

  /** Once the build is known, a node with another is recorded as updating and published, and one with the same build,
      or where there is none, is not. */
  lemma BuildIsNoted(h: Hub, c: nat, i: nat, bundle: SP.Bundle)
    requires Enabled(h, BuildAnswered(c, i, bundle))
    ensures var h', hello := Step(h, BuildAnswered(c, i, bundle)), h.conns[c].transport.hellos[i].hello;
            var build, links := hello.build.value, h'.links;
            && links == h.links
            && h'.serverBuild == (match bundle
                case Building => h.serverBuild
                case NoBuild => None
                case Built(own) => Some(own))
            && (if bundle.Built? && bundle.build != build then
                  && h'.builds == h.builds[hello.node := Build(build, Updating)] && Publishing(h, h', hello.node)
                  && h'.failures == h.failures
                else if FindsNoVersion(h', c, i) then h'.builds == h.builds && KeepsFailure(h, h', hello)
                else h'.builds == h.builds && h'.news == h.news && h'.failures == h.failures)
  {
    var t := h.conns[c].transport;
    var hello, answer := t.hellos[i].hello, SP.BuildAnswered(i, bundle);
    SameHello(t, answer, i);
    OfferIs(h, hello.node, hello.build.value, bundle);
    if bundle.Built? && bundle.build != hello.build.value {
      AnotherBuildIsNoFailure(t, i, bundle);
    }
    hide Noted, SP.Step, OfferUpdate;
    var offered := OfferUpdate(h, hello.node, hello.build.value, bundle);
    NotedKeepsFailure(offered.(conns := h.conns[c := h.conns[c].(transport := SP.Step(t, answer))]), c, i);
  }

  /** A connection that negotiated and is still open becomes the node's link: no other of the node's is open then, its
      failure is forgotten, and its build is current exactly if it is this app's. One that is not open, or whose hub has
      closed, is closed and becomes none. */
  lemma LinkIsTaken(h: Hub, c: nat)
    requires HubOk(h) && Enabled(h, NegotiationHeard(c))
    ensures var h', conn := Step(h, NegotiationHeard(c)), h.conns[c];
            var n, build := conn.transport.negotiation.node, conn.transport.negotiation.build;
            if !conn.open || h.closed then
              && h' == h.(conns := h'.conns) && |h'.conns| == |h.conns| && !h'.conns[c].open && h'.conns[c].heard
              && h'.conns[c].link.None?
            else
              && h'.links == h.links[n := c] && |h'.conns| == |h.conns| && h'.conns[c].open
              && h'.failures == h.failures - {n}
              && (build.None? ==> h'.builds == h.builds - {n})
              && (build.Some? ==>
                    var status := if h.serverBuild == build then Current else Outdated;
                    h'.builds == h.builds[n := Build(build.value, status)])
  {
    var n := h.conns[c].transport.negotiation.node;
    assert h.conns[c].link.None? && (n in h.links ==> h.links[n] != c) by {
      assert ConnOk(h.conns[c]) && LinkFor(h, n);
    }
    hide HubOk, SP.Step, Noted, OfferUpdate, OnClose;
  }

  /** A node disconnected, and one that its hub closes, has no open link. */
  lemma DisconnectedIsNotOpen(h: Hub, n: NodeId)
    requires HubOk(h)
    ensures !IsOpen(Step(h, Disconnects(n)), n) && !IsOpen(Step(h, HubCloses), n)
  {
    assert LinkFor(h, n);
    hide HubOk, SP.Step, Noted, OfferUpdate, OnNegotiated, OnClose, Publish;
  }

  /** Whom the server serves is as it was last told. */
  lemma ServesAsTold(h: Hub, n: NodeId, served: bool)
    ensures Step(h, ServesFrom(n, served)) == h.(served := if served then h.served + {n} else h.served - {n})
  {
    hide SP.Step, Noted, OfferUpdate, OnNegotiated, OnClose, Publish;
  }

  // ---- What the hub promises ----

  /** A node's link negotiated as that node: its connection answered one hello `ready`, for that node, which the
      server served when asked and which proved its key if the connection challenges. */
  lemma LinkIsNegotiated(events: seq<Event>, n: NodeId)
    requires n in Run(events).links
    ensures var h := Run(events);
            && h.links[n] < |h.conns|
            && var t := h.conns[h.links[n]].transport;
               && t.ready && t.negotiation.Negotiated? && t.negotiation.node == n && SP.MayServe(t.auth, n)
               && exists i :: 0 <= i < |t.hellos| && SP.IsReady(t.hellos[i]) && t.hellos[i].hello.node == n
                    && t.hellos[i].served
  {
    RunKeeps(events);
    var h := Run(events);
    assert LinkFor(h, n) && ConnOk(h.conns[h.links[n]]);
    var t := h.conns[h.links[n]].transport;
    var i :| 0 <= i < |t.hellos| && SP.Settles(t.hellos[i], t.negotiation);
  }

  /** Until the hub closes, a node's link is the connection that became it last, unless its close has been heard: then
      the node has none. Any other connection that became its link is closed. */
  lemma LinkIsTheLatest(events: seq<Event>, n: NodeId, c: nat)
    requires !Run(events).closed && c < |Run(events).conns| && Run(events).conns[c].link == Some(n)
    ensures var h := Run(events);
            && (LastLink(h.log, n).Some? ==> LastLink(h.log, n).value < |h.conns|)
            && (IsLinkOf(h, n, c) ==> LastLink(h.log, n) == Some(c) && !h.conns[c].closeHeard)
            && (LastLink(h.log, n) == Some(c) && !h.conns[c].closeHeard ==> IsLinkOf(h, n, c))
            && (!IsLinkOf(h, n, c) ==> !h.conns[c].open)
  {
    RunKeeps(events);
    assert LogFor(Run(events), n) && OpenFor(Run(events), c);
  }

  /** The close of a superseded connection leaves every link, and publishes nothing. */
  lemma SupersededCloseIsHarmless(events: seq<Event>, c: nat)
    requires Enabled(Run(events), CloseHeard(c))
    requires forall n: NodeId :: !IsLinkOf(Run(events), n, c)
    ensures var h, h' := Run(events), Step(Run(events), CloseHeard(c));
            h'.links == h.links && h'.builds == h.builds && h'.published == h.published
  {
    var conn := Run(events).conns[c];
    assert conn.link.Some? ==> !IsLinkOf(Run(events), conn.link.value, c);
  }

  /** A step published the node. */
  predicate PublishedIn(h: Hub, h': Hub, n: NodeId) {
    exists i :: |h.news| <= i < |h'.news| && h'.news[i].0 == n
  }

  /** The node was last published by a step that left its link closed and that unheard. */
  predicate LastPublishedLagging(events: seq<Event>, n: NodeId) {
    if events == [] then false
    else
      var before, after := Run(events[..|events| - 1]), Run(events);
      if PublishedIn(before, after, n) then Lagging(after, n) else LastPublishedLagging(events[..|events| - 1], n)
  }

  /** What is new in `h'` since `h`, and so who lags. */
  ghost predicate Tells(h: Hub, h': Hub, n: NodeId) {
    && h.news <= h'.news
    && (n in h'.lagged <==> if PublishedIn(h, h', n) then Lagging(h', n) else n in h.lagged)
  }

  lemma PublishTells(h: Hub, mid: Hub, m: NodeId, n: NodeId)
    requires mid.news == h.news && mid.lagged == h.lagged
    ensures Tells(h, Publish(mid, m), n)
    ensures Lagging(Publish(mid, m), n) == Lagging(mid, n)
  {
    var h' := Publish(mid, m);
    assert h'.news[|h.news|].0 == m;
  }

  lemma NothingTold(h: Hub, h': Hub, n: NodeId)
    requires h'.news == h.news && h'.lagged == h.lagged
    ensures Tells(h, h', n)
  {
  }

  /** Two stretches of a step, the second of which changes no link or socket. */
  lemma TellsMore(h: Hub, mid: Hub, h': Hub, n: NodeId)
    requires Tells(h, mid, n) && Tells(mid, h', n) && Lagging(h', n) == Lagging(mid, n)
    ensures Tells(h, h', n)
  {
    if PublishedIn(h, mid, n) {
      var i :| |h.news| <= i < |mid.news| && mid.news[i].0 == n;
      assert h'.news[i].0 == n;
    }
    if PublishedIn(mid, h', n) {
      var i :| |mid.news| <= i < |h'.news| && h'.news[i].0 == n;
      assert PublishedIn(h, h', n);
    }
    if PublishedIn(h, h', n) && !PublishedIn(mid, h', n) {
      var i :| |h.news| <= i < |h'.news| && h'.news[i].0 == n;
      assert i < |mid.news| && mid.news[i].0 == n;
    }
  }

  lemma NotedTells(h: Hub, c: nat, i: nat, n: NodeId)
    ensures Tells(h, Noted(h, c, i), n) && Lagging(Noted(h, c, i), n) == Lagging(h, n)
  {
    hide Tells, Lagging;
    if c < |h.conns| && i < |h.conns[c].transport.hellos| {
      var hello := h.conns[c].transport.hellos[i].hello;
      var failure := (hello.minVersion, hello.maxVersion);
      var mid := h.(failures := h.failures[hello.node := failure]);
      PublishTells(h, mid, hello.node, n);
      SameLagging(h, mid, n);
    }
    NothingTold(h, h, n);
  }

  lemma SameLagging(h: Hub, h': Hub, n: NodeId)
    requires h'.links == h.links && |h'.conns| == |h.conns| && forall c: nat :: c < |h.conns| ==>
        h'.conns[c].open == h.conns[c].open
    ensures Lagging(h', n) == Lagging(h, n)
  {
  }

  lemma OfferTells(h: Hub, m: NodeId, build: BuildId, bundle: SP.Bundle, n: NodeId)
    ensures Tells(h, OfferUpdate(h, m, build, bundle), n)
  {
    hide Tells, Lagging;
    NothingTold(h, OfferUpdate(h, m, build, SP.NoBuild), n);
    NothingTold(h, h, n);
    if bundle.Built? {
      var known := h.(serverBuild := Some(bundle.build));
      NothingTold(h, known, n);
      PublishTells(h, known.(builds := h.builds[m := Build(build, Updating)]), m, n);
    }
  }

  lemma TransportTells(h: Hub, c: nat, t: SP.Transport, i: nat, n: NodeId)
    requires c < |h.conns|
    ensures Tells(h, Noted(WithTransport(h, c, t), c, i), n)
        && Lagging(Noted(WithTransport(h, c, t), c, i), n) == Lagging(h, n)
  {
    hide Tells, Noted;
    var mid := WithTransport(h, c, t);
    NothingTold(h, mid, n);
    SameLagging(h, mid, n);
    NotedTells(mid, c, i, n);
    TellsMore(h, mid, Noted(mid, c, i), n);
  }

  lemma CloseTells(h: Hub, c: nat, n: NodeId)
    requires c < |h.conns|
    ensures Tells(h, OnClose(h, c), n)
  {
    hide Tells, Lagging;
    var conn := h.conns[c];
    var left := h.(conns := h.conns[c := conn.(transport := SP.Close(conn.transport), closeHeard := true)]);
    NothingTold(h, left, n);
    if conn.link.Some? && conn.link.value in h.links && h.links[conn.link.value] == c {
      var m := conn.link.value;
      PublishTells(h, left.(links := h.links - {m}, builds := h.builds - {m}), m, n);
    }
  }

  lemma NegotiatedTells(h: Hub, c: nat, n: NodeId)
    requires c < |h.conns| && h.conns[c].transport.negotiation.Negotiated?
    ensures Tells(h, OnNegotiated(h, c), n)
  {
    hide Tells, Lagging;
    if h.conns[c].open && !h.closed {
      var m, build := h.conns[c].transport.negotiation.node, h.conns[c].transport.negotiation.build;
      var known := Linked(h, c, m).(failures := h.failures - {m}, builds := BuildsWith(h, m, build));
      NothingTold(h, known, n);
      PublishTells(h, known, m, n);
    } else {
      NothingTold(h, OnNegotiated(h, c), n);
    }
  }

  lemma StepTells(h: Hub, e: Event, n: NodeId)
    ensures Tells(h, Step(h, e), n)
  {
    hide Tells, Lagging, SP.Step, Noted, OnNegotiated, OnClose, OfferUpdate, Publish;
    NothingTold(h, h, n);
    if Enabled(h, e) {
      match e
      case HelloArrives(c, hello) =>
        var t := h.conns[c].transport;
        TransportTells(h, c, SP.Step(t, SP.HelloArrives(hello, hello.node in h.served)), |t.hellos|, n);
      case HelloResumes(c, i) =>
        var t := h.conns[c].transport;
        TransportTells(h, c, SP.Step(t, SP.HelloResumes(i, t.hellos[i].hello.node in h.served)), i, n);
      case BuildAnswered(c, i, bundle) =>
        var t := h.conns[c].transport;
        var offered := OfferUpdate(h, t.hellos[i].hello.node, t.hellos[i].hello.build.value, bundle);
        SameConns(h, t.hellos[i].hello.node, t.hellos[i].hello.build.value, bundle);
        OfferTells(h, t.hellos[i].hello.node, t.hellos[i].hello.build.value, bundle, n);
        TransportTells(offered, c, SP.Step(t, SP.BuildAnswered(i, bundle)), i, n);
        TellsMore(h, offered, Step(h, e), n);
      case NegotiationHeard(c) => NegotiatedTells(h, c, n);
      case CloseHeard(c) => CloseTells(h, c, n);
      case Publishes(m) => PublishTells(h, h, m, n);
      case _ => NothingTold(h, Step(h, e), n);
    }
  }

  lemma {:induction false} LaggedIsLastPublication(events: seq<Event>, n: NodeId)
    ensures n in Run(events).lagged <==> LastPublishedLagging(events, n)
  {
    hide Step, Lagging, PublishedIn;
    if events != [] {
      LaggedIsLastPublication(events[..|events| - 1], n);
      StepTells(Run(events[..|events| - 1]), events[|events| - 1], n);
    }
  }

  /** What browsers were last told of a node agrees with its having an open link, although replacing a link publishes
      nothing, exactly unless it was last published while its link was closed and that unheard, or its link is closed
      and unheard now (not both). */
  lemma ObserversAgree(events: seq<Event>, n: NodeId)
    requires !Run(events).closed && n in Run(events).published
    ensures var h := Run(events);
            h.published[n] == IsOpen(h, n) <==> (LastPublishedLagging(events, n) <==> Lagging(h, n))
  {
    hide Run;
    RunKeeps(events);
    LaggedIsLastPublication(events, n);
    assert PublishedFor(Run(events), n) && LinkFor(Run(events), n);
  }

  ghost predicate NoneLagging(h: Hub) {
    forall n: NodeId :: !Lagging(h, n)
  }

  /** A link's close and its `onclose` are one step: while a link's close is unheard, the next to run hears one. */
  ghost predicate HeardAtOnce(events: seq<Event>) {
    events == [] || (HeardAtOnce(events[..|events| - 1])
      && (NoneLagging(Run(events[..|events| - 1])) || events[|events| - 1].CloseHeard?))
  }

  lemma NotedNotLagged(h: Hub, c: nat, i: nat)
    requires h.lagged == {} && NoneLagging(h)
    ensures Noted(h, c, i).lagged == {}
  {
    if c < |h.conns| && i < |h.conns[c].transport.hellos| {
      var n := h.conns[c].transport.hellos[i].hello.node;
      assert !Lagging(h, n);
    }
  }

  lemma TransportNotLagging(h: Hub, c: nat, t: SP.Transport)
    requires c < |h.conns| && NoneLagging(h)
    ensures NoneLagging(WithTransport(h, c, t))
  {
    forall n: NodeId
      ensures !Lagging(WithTransport(h, c, t), n)
    {
      assert !Lagging(h, n);
    }
  }

  lemma OfferNotLagged(h: Hub, n: NodeId, build: BuildId, bundle: SP.Bundle)
    requires h.lagged == {} && NoneLagging(h)
    ensures OfferUpdate(h, n, build, bundle).lagged == {} && NoneLagging(OfferUpdate(h, n, build, bundle))
  {
    assert !Lagging(h, n);
    var h' := OfferUpdate(h, n, build, bundle);
    forall m: NodeId
      ensures !Lagging(h', m)
    {
      assert !Lagging(h, m);
    }
  }

  lemma NegotiatedNotLagged(h: Hub, c: nat)
    requires HubOk(h) && h.lagged == {} && c < |h.conns| && h.conns[c].transport.negotiation.Negotiated?
    ensures OnNegotiated(h, c).lagged == {}
  {
    assert LinkFor(h, h.conns[c].transport.negotiation.node);
  }

  lemma NotLagged(h: Hub, e: Event)
    requires HubOk(h) && h.lagged == {} && (NoneLagging(h) || e.CloseHeard?)
    ensures Step(h, e).lagged == {}
  {
    hide HubOk, NoneLagging, SP.Step, Noted, OnNegotiated, OfferUpdate;
    if Enabled(h, e) {
      match e
      case HelloArrives(c, hello) =>
        var t := SP.Step(h.conns[c].transport, SP.HelloArrives(hello, hello.node in h.served));
        TransportNotLagging(h, c, t);
        NotedNotLagged(WithTransport(h, c, t), c, |h.conns[c].transport.hellos|);
      case HelloResumes(c, i) =>
        var t := SP.Step(h.conns[c].transport, SP.HelloResumes(i,
          h.conns[c].transport.hellos[i].hello.node in h.served));
        TransportNotLagging(h, c, t);
        NotedNotLagged(WithTransport(h, c, t), c, i);
      case BuildAnswered(c, i, bundle) =>
        var hello := h.conns[c].transport.hellos[i].hello;
        OfferNotLagged(h, hello.node, hello.build.value, bundle);
        var offered := OfferUpdate(h, hello.node, hello.build.value, bundle);
        SameConns(h, hello.node, hello.build.value, bundle);
        var t := SP.Step(h.conns[c].transport, SP.BuildAnswered(i, bundle));
        TransportNotLagging(offered, c, t);
        NotedNotLagged(WithTransport(offered, c, t), c, i);
      case NegotiationHeard(c) => NegotiatedNotLagged(h, c);
      case Publishes(n) => assert !Lagging(h, n) by { NoneIsNot(h, n); }
      case _ =>
    }
  }

  lemma NoneIsNot(h: Hub, n: NodeId)
    requires NoneLagging(h)
    ensures !Lagging(h, n)
  {
  }

  lemma SameConns(h: Hub, n: NodeId, build: BuildId, bundle: SP.Bundle)
    ensures OfferUpdate(h, n, build, bundle).conns == h.conns
  {
  }

  lemma {:induction false} NeverLagged(events: seq<Event>)
    requires HeardAtOnce(events)
    ensures Run(events).lagged == {}
  {
    hide Step, Enabled;
    if events != [] {
      NeverLagged(events[..|events| - 1]);
      RunKeeps(events[..|events| - 1]);
      NotLagged(Run(events[..|events| - 1]), events[|events| - 1]);
    }
  }

  /** Then, until the hub closes, the `connected` flag last published of each node is whether it has an open link. */
  lemma ObserversAgreeAtOnce(events: seq<Event>, n: NodeId)
    requires HeardAtOnce(events) && NoneLagging(Run(events)) && !Run(events).closed && n in Run(events).published
    ensures Run(events).published[n] == IsOpen(Run(events), n)
  {
    NeverLagged(events);
    LaggedIsLastPublication(events, n);
    ObserversAgree(events, n);
  }

  // ---- A published flag that misleads ----

  /** A hello from source, of this protocol. */
  function PlainHello(n: NodeId): SP.Hello {
    SP.Hello(n, None, SP.PROTOCOL_VERSION, SP.PROTOCOL_VERSION, true)
  }

  function PlainReady(n: NodeId): SP.Transport {
    SP.Transport(SP.Trusted, true, false, SP.Negotiated(n, None),
      [SP.Handling(PlainHello(n), SP.Answered(SP.Ready), true)], 0)
  }

  /** The node is linked and dials again; its first socket closes; it is published; then the close is heard only after
      the second connection's negotiation. */
  function MisleadingRun(n: NodeId): seq<Event> {
    [ServesFrom(n, true)] + [Accepts(false)] + [HelloArrives(0, PlainHello(n))] + [NegotiationHeard(0)]
    + [Accepts(false)] + [HelloArrives(1, PlainHello(n))] + [SocketCloses(0)] + [Publishes(n)]
    + [NegotiationHeard(1)] + [CloseHeard(0)]
  }

  lemma RunMore(events: seq<Event>, e: Event)
    ensures Run(events + [e]) == Step(Run(events), e)
  {
    assert (events + [e])[..|events|] == events;
  }

  lemma PlainHelloIsReady(n: NodeId)
    ensures SP.Step(SP.NewTransport(false), SP.HelloArrives(PlainHello(n), true)) == PlainReady(n)
  {
    var begun := [SP.Handling(PlainHello(n), SP.AwaitsAuth, false)];
    assert [] + begun == begun;
  }

  /** The connection `c` of `h`, its hello answered. */
  function Answered(h: Hub, c: nat, n: NodeId): Hub {
    h.(conns := h.conns + [Conn(PlainReady(n), true, false, false, None)])
  }

  lemma DialsIn(h: Hub, n: NodeId)
    requires !h.closed && n in h.served
    ensures Step(Step(h, Accepts(false)), HelloArrives(|h.conns|, PlainHello(n))) == Answered(h, |h.conns|, n)
  {
    PlainHelloIsReady(n);
    hide SP.Step;
    var c := |h.conns|;
    var accepted := Step(h, Accepts(false));
    assert accepted.conns[c].transport == SP.NewTransport(false);
    assert WithTransport(accepted, c, PlainReady(n)).conns == Answered(h, c, n).conns;
  }

  function Serving(n: NodeId): Hub {
    NEW_HUB.(served := {n})
  }

  /** The first link, published as connected. */
  function FirstLinked(n: NodeId): Hub {
    Serving(n).(conns := [Conn(PlainReady(n), true, false, true, Some(n))], links := map[n := 0],
      published := map[n := true],
                news := [(n, true)], log := [(n, 0)])
  }

  lemma FirstLinks(n: NodeId)
    ensures Step(Answered(Serving(n), 0, n), NegotiationHeard(0)) == FirstLinked(n)
  {
    var h := Answered(Serving(n), 0, n);
    assert h.conns == [Conn(PlainReady(n), true, false, false, None)];
    assert h.conns[0 := h.conns[0].(heard := true, link := Some(n))] == FirstLinked(n).conns;
    var none: map<NodeId, Build> := map[];
    assert none - {n} == none;
  }

  /** Its socket closed, the second connection negotiated, and the node published meanwhile as not connected. */
  function ClosedUnheard(n: NodeId): Hub {
    FirstLinked(n).(
      conns := [Conn(PlainReady(n), false, false, true, Some(n)), Conn(PlainReady(n), true, false, false, None)],
      published := map[n := false], news := [(n, true), (n, false)], lagged := {n})
  }

  lemma ClosesUnheard(n: NodeId)
    ensures Step(Step(Answered(FirstLinked(n), 1, n), SocketCloses(0)), Publishes(n)) == ClosedUnheard(n)
  {
    var h := Step(Answered(FirstLinked(n), 1, n), SocketCloses(0));
    assert h.conns == ClosedUnheard(n).conns;
    assert h.published[n := false] == map[n := false];
    assert {} + {n} == {n};
  }

  /** That run, which no other publication follows, leaves the node shown as not connected although its link is open,
      for the replacement publishes nothing and the superseded close neither. */
  lemma LateCloseMisleads(n: NodeId)
    ensures var h := Run(MisleadingRun(n));
            !h.closed && IsOpen(h, n) && n in h.published && !h.published[n]
  {
    hide Run;
    var none: seq<Event> := [];
    RunOfNone();
    assert none + [ServesFrom(n, true)] == [ServesFrom(n, true)];
    RunMore(none, ServesFrom(n, true));
    assert {} + {n} == {n};
    assert Run([ServesFrom(n, true)]) == Serving(n);
    hide Step;
    var e1 := [ServesFrom(n, true)] + [Accepts(false)] + [HelloArrives(0, PlainHello(n))];
    RunMore([ServesFrom(n, true)], Accepts(false));
    RunMore([ServesFrom(n, true)] + [Accepts(false)], HelloArrives(0, PlainHello(n)));
    DialsIn(Serving(n), n);
    RunMore(e1, NegotiationHeard(0));
    FirstLinks(n);
    var e2 := e1 + [NegotiationHeard(0)];
    RunMore(e2, Accepts(false));
    RunMore(e2 + [Accepts(false)], HelloArrives(1, PlainHello(n)));
    DialsIn(FirstLinked(n), n);
    var e3 := e2 + [Accepts(false)] + [HelloArrives(1, PlainHello(n))];
    RunMore(e3, SocketCloses(0));
    RunMore(e3 + [SocketCloses(0)], Publishes(n));
    ClosesUnheard(n);
    var e4 := e3 + [SocketCloses(0)] + [Publishes(n)];
    RunMore(e4, NegotiationHeard(1));
    RunMore(e4 + [NegotiationHeard(1)], CloseHeard(0));
    SecondLinks(n);
  }

  lemma RunOfNone()
    ensures Run([]) == NEW_HUB
  {
  }

  lemma SecondLinks(n: NodeId)
    ensures var h := Step(Step(ClosedUnheard(n), NegotiationHeard(1)), CloseHeard(0));
            !h.closed && IsOpen(h, n) && n in h.published && !h.published[n]
  {
    hide SP.Close;
    var h := Step(ClosedUnheard(n), NegotiationHeard(1));
    assert h.links == map[n := 1] && h.conns[1].open && !h.conns[0].open && |h.conns| == 2;
    assert h.conns[0].link == Some(n) && !h.conns[0].closeHeard;
  }

  // ---- The hub ----

  /** The hub's maps; each connection's transport is a `ServerPeer.ServerTransport`, held here by its state. */
  class NodeLinks {
    var conns: seq<Conn>
    var links: map<NodeId, nat>
    var builds: map<NodeId, Build>
    var failures: map<NodeId, Failure>
    var serverBuild: Option<BuildId>
    var closed: bool
    var served: set<NodeId>
    var published: map<NodeId, bool>
    ghost var news: seq<(NodeId, bool)>
    ghost var lagged: set<NodeId>
    ghost var log: seq<(NodeId, nat)>

    ghost function Model(): Hub
      reads this
    {
      Hub(conns, links, builds, failures, serverBuild, closed, served, published, news, lagged, log)
    }

    ghost predicate Valid()
      reads this
    {
      HubOk(Model())
    }

    constructor ()
      ensures Valid() && Model() == NEW_HUB
    {
      conns, links, builds, failures, serverBuild, closed := [], map[], map[], map[], None, false;
      served, published, news, lagged, log := {}, map[], [], {}, [];
      new;
      RunKeeps([]);
    }

    method PublishNode(n: NodeId)
      modifies this`published, this`news, this`lagged
      ensures Model() == Publish(old(Model()), n)
    {
      var connected := n in links && links[n] < |conns| && conns[links[n]].open;
      published := published[n := connected];
      news := news + [(n, connected)];
      lagged := if n in links && !connected then lagged + {n} else lagged - {n};
    }

    method Accept(challenges: bool)
      requires Valid() && !closed
      modifies this
      ensures Valid() && Model() == Step(old(Model()), Accepts(challenges))
    {
      AcceptKeeps(Model(), challenges);
      conns := conns + [Conn(SP.NewTransport(challenges), true, false, false, None)];
    }

    method NoteFailure(n: NodeId, failure: Failure)
      requires Valid()
      modifies this
      ensures Valid() && Model() == NegotiationFailed(old(Model()), n, failure)
    {
      FailureKeeps(Model(), n, failure);
      hide HubOk;
      if n in failures && failures[n] == failure {
        return;
      }
      failures := failures[n := failure];
      PublishNode(n);
    }

    /** What the node is told to update to, if anything: `ServerPeer.Offer`. */
    method OfferBuild(n: NodeId, build: BuildId, bundle: SP.Bundle) returns (offer: Option<BuildId>)
      requires Valid()
      modifies this
      ensures Valid() && Model() == OfferUpdate(old(Model()), n, build, bundle)
      ensures offer == SP.Offer(bundle, Some(build))
    {
      OfferKeeps(Model(), n, build, bundle);
      hide HubOk;
      match bundle {
        case Building =>
          offer := None;
        case NoBuild =>
          serverBuild := None;
          offer := None;
        case Built(own) =>
          serverBuild := Some(own);
          if own == build {
            return None;
          }
          builds := builds[n := Build(build, Updating)];
          PublishNode(n);
          offer := Some(own);
      }
    }

    method SocketClosed(c: nat)
      requires Valid() && Enabled(Model(), CloseHeard(c))
      modifies this
      ensures Valid() && Model() == OnClose(old(Model()), c)
    {
      CloseHeardKeeps(Model(), c);
      hide HubOk, SP.Close;
      var conn := conns[c];
      conns := conns[c := conn.(transport := SP.Close(conn.transport), closeHeard := true)];
      if conn.link.Some? && conn.link.value in links && links[conn.link.value] == c {
        links := links - {conn.link.value};
        builds := builds - {conn.link.value};
        PublishNode(conn.link.value);
      }
    }

    method NegotiationSettled(c: nat)
      requires Valid() && c < |conns| && conns[c].transport.negotiation.Negotiated? && !conns[c].heard
      modifies this
      ensures Valid() && Model() == OnNegotiated(old(Model()), c)
    {
      NegotiatedKeeps(Model(), c);
      hide HubOk, Linked, BuildsWith, Publish;
      if !conns[c].open || closed {
        conns := conns[c := conns[c].(heard := true, open := false)];
        return;
      }
      BecomeNegotiated(c);
    }

    method BecomeNegotiated(c: nat)
      requires c < |conns| && conns[c].transport.negotiation.Negotiated? && conns[c].open && !closed
      modifies this
      ensures Model() == OnNegotiated(old(Model()), c)
    {
      hide Linked, Publish;
      var n, build := conns[c].transport.negotiation.node, conns[c].transport.negotiation.build;
      var replaced := n in links;
      var updated := n in builds && builds[n].status.Updating?;
      BecomeLink(c, n);
      RecordBuild(n, build);
      if !replaced || updated {
        PublishNode(n);
      }
    }

    method RecordBuild(n: NodeId, build: Option<BuildId>)
      modifies this`builds, this`failures
      ensures Model() == old(Model()).(failures := old(failures) - {n}, builds := BuildsWith(old(Model()), n, build))
    {
      failures := failures - {n};
      builds := if build.None? then builds - {n}
                else builds[n := Build(build.value, if build == serverBuild then Current else Outdated)];
    }

    /** The node's previous link is closed. */
    method BecomeLink(c: nat, n: NodeId)
      requires c < |conns|
      modifies this`conns, this`links, this`log
      ensures Model() == Linked(old(Model()), c, n)
    {
      conns := conns[c := conns[c].(heard := true, link := Some(n))];
      if n in links && links[n] != c && links[n] < |conns| {
        conns := conns[links[n] := conns[links[n]].(open := false)];
      }
      links := links[n := c];
      log := log + [(n, c)];
    }

    method Disconnect(n: NodeId)
      requires Valid()
      modifies this
      ensures Valid() && Model() == Step(old(Model()), Disconnects(n))
    {
      StepKeeps(Model(), Disconnects(n));
      hide HubOk;
      if n in links && links[n] < |conns| {
        conns := conns[links[n] := conns[links[n]].(open := false)];
      }
    }

    /** Closes every link's socket; their calls end with their outcome unknown. */
    method CloseHub()
      requires Valid()
      modifies this
      ensures Valid() && Model() == CloseAll(old(Model()))
    {
      HubCloseKeeps(Model());
      hide HubOk;
      closed := true;
      CloseSockets();
      links := map[];
    }

    method CloseSockets()
      modifies this`conns
      ensures conns == CloseLinks(old(conns), links)
    {
      var c := 0;
      while c < |conns|
        invariant c <= |conns| == |old(conns)|
        invariant forall d :: 0 <= d < |conns| ==>
          conns[d] == if d < c && d in links.Values then old(conns)[d].(open := false) else old(conns)[d]
      {
        if c in links.Values {
          conns := conns[c := conns[c].(open := false)];
        }
        c := c + 1;
      }
    }
  }
}
