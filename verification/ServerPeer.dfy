/** The server's half of one node connection (`createServerTransport`): whom it challenges, which hellos it answers,
    and when it is negotiated. Several hellos may be under way at once, each waiting where its handler awaits. */
module ServerPeer {
  import opened Bytes

  const PROTOCOL_VERSION := 16

  type NodeId = nat
  type BuildId = nat

  datatype Hello = Hello(node: NodeId, build: Option<BuildId>, minVersion: nat, maxVersion: nat, docs: bool)

  /** `Trusted`: this transport does not challenge. A challenge is answered once, or never when the connection
      closes first. */
  datatype Auth = Trusted | Challenged | Proven(node: NodeId) | Unproven

  datatype Answer =
    | Ready | UpdateTo(build: BuildId) | NotAuthenticated | WrongNode | NotServed | AlreadyNegotiated | BuildNotReady
    | NoCommonVersion | NoDocs

  datatype Phase = AwaitsAuth | AwaitsBuild | Answered(answer: Answer)

  /** A hello's handler; for the proofs, `served` is whether the server served its node when last asked. */
  datatype Handling = Handling(hello: Hello, phase: Phase, served: bool)

  /** How the promise of the negotiation settled. */
  datatype Negotiation = Pending | Negotiated(node: NodeId, build: Option<BuildId>) | Rejected

  /** `asked`: the calls and streams handed on for the node. */
  datatype Transport = Transport(
    auth: Auth, ready: bool, closed: bool, negotiation: Negotiation, hellos: seq<Handling>, asked: nat)

  function NewTransport(challenges: bool): Transport {
    Transport(if challenges then Challenged else Trusted, false, false, Pending, [], 0)
  }

  /** This app's node build: still running, failed, or there. */
  datatype Bundle = Building | NoBuild | Built(build: BuildId)

  function WithPhase(t: Transport, i: nat, phase: Phase): Transport
    requires i < |t.hellos|
  {
    t.(hellos := t.hellos[i := t.hellos[i].(phase := phase)])
  }

  /** The last of the checks, and the answer. */
  function Agree(t: Transport, i: nat): Transport
    requires i < |t.hellos|
  {
    var hello := t.hellos[i].hello;
    if hello.minVersion > PROTOCOL_VERSION || hello.maxVersion < PROTOCOL_VERSION then
      WithPhase(t, i, Answered(NoCommonVersion))
    else if !hello.docs then WithPhase(t, i, Answered(NoDocs))
    else WithPhase(t, i, Answered(Ready)).(
      ready := true,
      negotiation := if t.negotiation.Pending? then Negotiated(hello.node, hello.build) else t.negotiation)
  }

  /** Once authenticated, when the transport requires it. */
  function Check(t: Transport, i: nat, served: bool): Transport
    requires i < |t.hellos|
  {
    var asked := t.(hellos := t.hellos[i := t.hellos[i].(served := served)]);
    if t.ready then WithPhase(t, i, Answered(AlreadyNegotiated))
    else if !served then WithPhase(asked, i, Answered(NotServed))
    else if t.hellos[i].hello.build.Some? then WithPhase(asked, i, AwaitsBuild)
    else Agree(asked, i)
  }

  function Begin(t: Transport, hello: Hello, served: bool): Transport {
    var begun := t.(hellos := t.hellos + [Handling(hello, AwaitsAuth, false)]);
    if t.auth.Trusted? then Check(begun, |t.hellos|, served) else begun
  }

  /** The hello goes on when the challenge has been answered. */
  function Resume(t: Transport, i: nat, served: bool): Transport
    requires i < |t.hellos|
  {
    match t.auth
    case Unproven => WithPhase(t, i, Answered(NotAuthenticated))
    case Proven(node) => if t.hellos[i].hello.node != node then WithPhase(t, i, Answered(WrongNode))
      else Check(t, i, served)
    case _ => t
  }

  /** What the node is told to update to, if anything. */
  function Offer(bundle: Bundle, build: Option<BuildId>): Option<BuildId> {
    if bundle.Built? && build.Some? && bundle.build != build.value then Some(bundle.build) else None
  }

  function OnBuild(t: Transport, i: nat, bundle: Bundle): Transport
    requires i < |t.hellos|
  {
    if bundle.Building? then WithPhase(t, i, Answered(BuildNotReady))
    else if Offer(bundle, t.hellos[i].hello.build).Some? then
      WithPhase(t, i, Answered(UpdateTo(Offer(bundle, t.hellos[i].hello.build).value)))
    else if t.ready then WithPhase(t, i, Answered(AlreadyNegotiated))
    else Agree(t, i)
  }

  function OnChallengeAnswer(t: Transport, node: NodeId, valid: bool): Transport {
    if t.auth.Challenged? then t.(auth := if valid then Proven(node) else Unproven) else t
  }

  /** A call or a stream from the server: handed on once the connection is negotiated, and else rejected. */
  function Ask(t: Transport): Transport {
    if t.ready then t.(asked := t.asked + 1) else t
  }

  function Close(t: Transport): Transport {
    t.(closed := true, auth := if t.auth.Challenged? then Unproven else t.auth,
       negotiation := if t.negotiation.Pending? then Rejected else t.negotiation)
  }

  // ---- What every step keeps ----

  predicate IsReady(h: Handling) {
    h.phase == Answered(Ready)
  }

  predicate Settles(h: Handling, negotiation: Negotiation) {
    IsReady(h) && negotiation == Negotiated(h.hello.node, h.hello.build)
  }

  predicate MayServe(auth: Auth, node: NodeId) {
    auth.Trusted? || auth == Proven(node)
  }

  predicate Compatible(hello: Hello) {
    hello.minVersion <= PROTOCOL_VERSION <= hello.maxVersion && hello.docs
  }

  ghost predicate TransportOk(t: Transport) {
    && (forall i :: 0 <= i < |t.hellos| && (t.hellos[i].phase.AwaitsBuild? || IsReady(t.hellos[i])) ==>
          t.hellos[i].served && MayServe(t.auth, t.hellos[i].hello.node))
    && (forall i :: 0 <= i < |t.hellos| && t.hellos[i].phase.AwaitsBuild? ==> t.hellos[i].hello.build.Some?)
    && (forall i :: 0 <= i < |t.hellos| && IsReady(t.hellos[i]) ==> Compatible(t.hellos[i].hello))
    && (forall i, j :: 0 <= i < j < |t.hellos| ==> !(IsReady(t.hellos[i]) && IsReady(t.hellos[j])))
    && (t.ready <==> exists i :: 0 <= i < |t.hellos| && IsReady(t.hellos[i]))
    && (t.negotiation.Pending? ==> !t.ready && !t.closed)
    && (t.negotiation.Negotiated? ==> exists i :: 0 <= i < |t.hellos| && Settles(t.hellos[i], t.negotiation))
    && (t.negotiation.Rejected? ==> t.closed)
    && (t.asked > 0 ==> t.ready)
  }

  /** A handler that takes a further step, short of `Ready`. */
  lemma PhaseKeeps(t: Transport, i: nat, h: Handling)
    requires TransportOk(t) && i < |t.hellos| && !IsReady(t.hellos[i]) && h.hello == t.hellos[i].hello && !IsReady(h)
    requires h.phase.AwaitsBuild? ==> h.served && MayServe(t.auth, h.hello.node) && h.hello.build.Some?
    ensures TransportOk(t.(hellos := t.hellos[i := h]))
  {
    var t' := t.(hellos := t.hellos[i := h]);
    forall j | 0 <= j < |t.hellos| && IsReady(t.hellos[j])
      ensures IsReady(t'.hellos[j]) && t'.hellos[j] == t.hellos[j]
    {
    }
  }

  lemma AgreeKeeps(t: Transport, i: nat)
    requires TransportOk(t) && i < |t.hellos| && !t.ready
    requires t.hellos[i].served && MayServe(t.auth, t.hellos[i].hello.node) && !IsReady(t.hellos[i])
    ensures TransportOk(Agree(t, i))
  {
    if Compatible(t.hellos[i].hello) {
      assert IsReady(Agree(t, i).hellos[i]);
    } else {
      PhaseKeeps(t, i, t.hellos[i].(phase := Answered(NoCommonVersion)));
      PhaseKeeps(t, i, t.hellos[i].(phase := Answered(NoDocs)));
    }
  }

  lemma CheckKeeps(t: Transport, i: nat, served: bool)
    requires TransportOk(t) && i < |t.hellos| && MayServe(t.auth, t.hellos[i].hello.node)
        && t.hellos[i].phase.AwaitsAuth?
    ensures TransportOk(Check(t, i, served))
  {
    hide TransportOk;
    var h := t.hellos[i];
    PhaseKeeps(t, i, h.(phase := Answered(AlreadyNegotiated)));
    PhaseKeeps(t, i, h.(served := served, phase := Answered(NotServed)));
    PhaseKeeps(t, i, h.(served := served));
    var asked := t.(hellos := t.hellos[i := h.(served := served)]);
    if !t.ready && served {
      if h.hello.build.Some? {
        PhaseKeeps(asked, i, h.(served := served, phase := AwaitsBuild));
      } else {
        AgreeKeeps(asked, i);
      }
    }
    assert WithPhase(asked, i, Answered(NotServed)).hellos
        == t.hellos[i := h.(served := served, phase := Answered(NotServed))];
  }

  lemma BeginKeeps(t: Transport, hello: Hello, served: bool)
    requires TransportOk(t)
    ensures TransportOk(Begin(t, hello, served))
  {
    var begun := t.(hellos := t.hellos + [Handling(hello, AwaitsAuth, false)]);
    forall j | 0 <= j < |t.hellos|
      ensures begun.hellos[j] == t.hellos[j]
    {
    }
    assert TransportOk(begun);
    if t.auth.Trusted? {
      CheckKeeps(begun, |t.hellos|, served);
    }
  }

  lemma ResumeKeeps(t: Transport, i: nat, served: bool)
    requires TransportOk(t) && i < |t.hellos| && t.hellos[i].phase.AwaitsAuth?
    ensures TransportOk(Resume(t, i, served))
  {
    PhaseKeeps(t, i, t.hellos[i].(phase := Answered(NotAuthenticated)));
    PhaseKeeps(t, i, t.hellos[i].(phase := Answered(WrongNode)));
    if t.auth.Proven? && t.hellos[i].hello.node == t.auth.node {
      CheckKeeps(t, i, served);
    }
  }

  lemma OnBuildKeeps(t: Transport, i: nat, bundle: Bundle)
    requires TransportOk(t) && i < |t.hellos| && t.hellos[i].phase.AwaitsBuild?
    ensures TransportOk(OnBuild(t, i, bundle))
  {
    var h := t.hellos[i];
    PhaseKeeps(t, i, h.(phase := Answered(BuildNotReady)));
    PhaseKeeps(t, i, h.(phase := Answered(AlreadyNegotiated)));
    var offer := Offer(bundle, h.hello.build);
    if offer.Some? {
      PhaseKeeps(t, i, h.(phase := Answered(UpdateTo(offer.value))));
    } else if !t.ready {
      AgreeKeeps(t, i);
    }
  }

  lemma ChallengeKeeps(t: Transport, node: NodeId, valid: bool)
    requires TransportOk(t)
    ensures TransportOk(OnChallengeAnswer(t, node, valid))
  {
  }

  lemma CloseKeeps(t: Transport)
    requires TransportOk(t)
    ensures TransportOk(Close(t))
  {
  }

  lemma AskKeeps(t: Transport)
    requires TransportOk(t)
    ensures TransportOk(Ask(t))
  {
  }

  // ---- Runs of one connection ----

  /** `HelloArrives` and `HelloResumes` ask the server whether it serves the hello's node: `served` is its answer. */
  datatype Event =
    | HelloArrives(hello: Hello, served: bool)
    | ChallengeAnswered(node: NodeId, valid: bool)
    | HelloResumes(i: nat, served: bool)
    | BuildAnswered(i: nat, bundle: Bundle)
    | Asks
    | Closes

  function Step(t: Transport, e: Event): Transport {
    match e
    case HelloArrives(hello, served) => if t.closed then t else Begin(t, hello, served)
    case ChallengeAnswered(node, valid) => OnChallengeAnswer(t, node, valid)
    case HelloResumes(i, served) => if i < |t.hellos| && t.hellos[i].phase.AwaitsAuth? then Resume(t, i, served) else t
    case BuildAnswered(i, bundle) => if i < |t.hellos| && t.hellos[i].phase.AwaitsBuild? then OnBuild(t, i, bundle)
      else t
    case Asks => Ask(t)
    case Closes => Close(t)
  }

  function Run(challenges: bool, events: seq<Event>): Transport {
    if events == [] then NewTransport(challenges)
      else Step(Run(challenges, events[..|events| - 1]), events[|events| - 1])
  }

  lemma StepKeeps(t: Transport, e: Event)
    requires TransportOk(t)
    ensures TransportOk(Step(t, e))
  {
    hide TransportOk;
    match e
    case HelloArrives(hello, served) => BeginKeeps(t, hello, served);
    case ChallengeAnswered(node, valid) => ChallengeKeeps(t, node, valid);
    case HelloResumes(i, served) => if i < |t.hellos| && t.hellos[i].phase.AwaitsAuth? { ResumeKeeps(t, i, served); }
    case BuildAnswered(i, bundle) => if i < |t.hellos| && t.hellos[i].phase.AwaitsBuild? { OnBuildKeeps(t, i, bundle); }
    case Asks => AskKeeps(t);
    case Closes => CloseKeeps(t);
  }

  lemma NewIsOk(challenges: bool)
    ensures TransportOk(NewTransport(challenges))
  {
  }

  lemma {:induction false} RunKeeps(challenges: bool, events: seq<Event>)
    ensures TransportOk(Run(challenges, events))
    ensures Run(challenges, events).auth.Trusted? <==> !challenges
  {
    hide TransportOk;
    if events == [] {
      NewIsOk(challenges);
    } else {
      RunKeeps(challenges, events[..|events| - 1]);
      StepKeeps(Run(challenges, events[..|events| - 1]), events[|events| - 1]);
    }
  }

  /** However hellos, the answer to the challenge, the build and the close interleave: at most one hello is answered
      `ready`; its node proved its key where the connection challenges, the server served it when asked, and it
      offers this protocol version and its docs; and the negotiation resolves for no other node or build. */
  lemma ReadyOnceAndOnlyForItsNode(challenges: bool, events: seq<Event>, i: nat)
    requires i < |Run(challenges, events).hellos| && IsReady(Run(challenges, events).hellos[i])
    ensures var t := Run(challenges, events);
            var hello := t.hellos[i].hello;
            && (forall j :: 0 <= j < |t.hellos| && j != i ==> !IsReady(t.hellos[j]))
            && (challenges ==> t.auth == Proven(hello.node))
            && t.hellos[i].served && Compatible(hello)
            && (t.negotiation == Negotiated(hello.node, hello.build) || (t.negotiation.Rejected? && t.closed))
  {
    RunKeeps(challenges, events);
  }

  /** Whatever the server asks and when: a call or a stream was handed on only for a node whose hello was answered
      `ready` by then, so one that proved its key where the connection challenges, was served and is compatible. */
  lemma CallsOnlyOnceReady(challenges: bool, events: seq<Event>, k: nat)
    requires k < |events| && Run(challenges, events[..k + 1]).asked != Run(challenges, events[..k]).asked
    ensures var t := Run(challenges, events[..k]);
            && events[k].Asks?
            && exists i :: 0 <= i < |t.hellos| && IsReady(t.hellos[i]) && t.hellos[i].served
                           && (challenges ==> t.auth == Proven(t.hellos[i].hello.node)) && Compatible(t.hellos[i].hello)
  {
    RunKeeps(challenges, events[..k]);
    assert events[..k + 1][..k] == events[..k];
    var t := Run(challenges, events[..k]);
    assert Run(challenges, events[..k + 1]) == Step(t, events[k]);
    AskedByAsking(t, events[k]);
    var i :| 0 <= i < |t.hellos| && IsReady(t.hellos[i]);
    ReadyOnceAndOnlyForItsNode(challenges, events[..k], i);
  }

  lemma AskedByAsking(t: Transport, e: Event)
    ensures Step(t, e).asked == if e.Asks? && t.ready then t.asked + 1 else t.asked
  {
  }

  /** A hello that announces no build is answered in the step that asks whether its node is served, so the answer is
      `ready` only if it is served then. */
  lemma WithoutABuildServedWhenReady(t: Transport, i: nat, served: bool)
    requires TransportOk(t) && i < |t.hellos| && t.hellos[i].hello.build.None? && t.hellos[i].phase.AwaitsAuth?
    ensures !Check(t, i, served).hellos[i].phase.AwaitsBuild?
    ensures IsReady(Check(t, i, served).hellos[i]) <==> served && !t.ready && Compatible(t.hellos[i].hello)
  {
  }

  /** What became of the challenge first: its answer, or the connection's close before any. */
  function FirstVerdict(events: seq<Event>): Option<Event> {
    if events == [] then None
    else
      var before, last := FirstVerdict(events[..|events| - 1]), events[|events| - 1];
      if before.Some? then before
      else if last.ChallengeAnswered? || last.Closes? then Some(last)
      else None
  }

  /** In every run of a connection that challenges, a node is authenticated exactly by the first answer to the
      challenge, when that is valid and comes before the close. */
  lemma {:induction false} AuthenticatedByItsAnswer(events: seq<Event>)
    ensures var auth, first := Run(true, events).auth, FirstVerdict(events);
            && (forall node :: auth == Proven(node) <==> first == Some(ChallengeAnswered(node, true)))
            && (auth.Challenged? <==> first.None?) && !auth.Trusted?
  {
    if events != [] {
      var init, last := events[..|events| - 1], events[|events| - 1];
      AuthenticatedByItsAnswer(init);
      AuthMoves(Run(true, init), last);
      hide Step;
    }
  }

  lemma AuthMoves(t: Transport, e: Event)
    ensures Step(t, e).auth == if !t.auth.Challenged? then t.auth
                               else if e.ChallengeAnswered? && e.valid then Proven(e.node)
                               else if e.ChallengeAnswered? || e.Closes? then Unproven
                               else t.auth
  {
  }

  /** So a hello is answered `ready` only to the node that signed the challenge. */
  lemma ReadyOnlyToTheSigner(events: seq<Event>, i: nat)
    requires i < |Run(true, events).hellos| && IsReady(Run(true, events).hellos[i])
    ensures FirstVerdict(events) == Some(ChallengeAnswered(Run(true, events).hellos[i].hello.node, true))
  {
    ReadyOnceAndOnlyForItsNode(true, events, i);
    AuthenticatedByItsAnswer(events);
  }

  /** Whether the hello's versions leave one out that this server speaks. */
  predicate SpeaksOther(hello: Hello) {
    PROTOCOL_VERSION < hello.minVersion || hello.maxVersion < PROTOCOL_VERSION
  }

  /** What a node bundle's hello is answered once the build is known: an update exactly when this app has another build,
      and else by what was negotiated meanwhile, its versions and its docs. */
  lemma BuildDecides(t: Transport, i: nat, bundle: Bundle)
    requires TransportOk(t) && i < |t.hellos| && t.hellos[i].phase.AwaitsBuild?
    ensures var hello, phase := t.hellos[i].hello, Step(t, BuildAnswered(i, bundle)).hellos[i].phase;
            var same := bundle.Built? && hello.build == Some(bundle.build);
            && hello.build.Some?
            && (phase == Answered(BuildNotReady) <==> bundle.Building?)
            && (bundle.Built? && !same <==> exists build :: phase == Answered(UpdateTo(build)))
            && (forall build :: phase == Answered(UpdateTo(build)) ==> bundle == Built(build))
            && (bundle.NoBuild? || same ==>
                  phase == Answered(if t.ready then AlreadyNegotiated
                                    else if SpeaksOther(hello) then NoCommonVersion
                                    else if !hello.docs then NoDocs else Ready))
  {
    hide TransportOk;
    BundleAnnounced(t, i);
    if bundle.Built? && t.hellos[i].hello.build != Some(bundle.build) {
      assert Step(t, BuildAnswered(i, bundle)).hellos[i].phase == Answered(UpdateTo(bundle.build));
    }
  }

  lemma BundleAnnounced(t: Transport, i: nat)
    requires TransportOk(t) && i < |t.hellos| && t.hellos[i].phase.AwaitsBuild?
    ensures t.hellos[i].hello.build.Some?
  {
  }

  /** What a hello of the right node comes to before any wait for the build. */
  predicate Decided(t: Transport, hello: Hello, served: bool, phase: Phase) {
    phase == if t.ready then Answered(AlreadyNegotiated)
             else if !served then Answered(NotServed)
             else if hello.build.Some? then AwaitsBuild
             else if SpeaksOther(hello) then Answered(NoCommonVersion)
             else if !hello.docs then Answered(NoDocs) else Answered(Ready)
  }

  /** Once the challenge's answer is known: one that was not valid is refused as such, one of another node as that, and
      the right node's hello goes on. */
  lemma ServedDecides(t: Transport, i: nat, served: bool)
    requires i < |t.hellos| && t.hellos[i].phase.AwaitsAuth?
    ensures var hello, phase := t.hellos[i].hello, Step(t, HelloResumes(i, served)).hellos[i].phase;
            && (t.auth.Unproven? ==> phase == Answered(NotAuthenticated))
            && (t.auth.Proven? && t.auth.node != hello.node ==> phase == Answered(WrongNode))
            && (t.auth.Proven? && t.auth.node == hello.node ==> Decided(t, hello, served, phase))
            && (t.auth.Challenged? ==> phase.AwaitsAuth?)
  {
  }

  /** A hello on a connection that does not challenge is decided as it arrives, one on any other waits, and one on a
      closed connection is not heard. */
  lemma ArrivalDecides(t: Transport, hello: Hello, served: bool)
    ensures var t' := Step(t, HelloArrives(hello, served));
            && (t.closed ==> t' == t)
            && (!t.closed ==>
                  && |t'.hellos| == |t.hellos| + 1 && t'.hellos[..|t.hellos|] == t.hellos
                  && t'.hellos[|t.hellos|].hello == hello
                  && (t.auth.Trusted? ==> Decided(t, hello, served, t'.hellos[|t.hellos|].phase))
                  && (!t.auth.Trusted? ==> t'.hellos[|t.hellos|].phase.AwaitsAuth?))
  {
  }

  /** The negotiation settles once: with the node and build of the hello answered `ready`, or as rejected by a close
      before. */
  lemma NegotiationSettles(t: Transport, e: Event)
    requires TransportOk(t)
    ensures var t' := Step(t, e);
            && (!t.negotiation.Pending? ==> t'.negotiation == t.negotiation)
            && (t.negotiation.Pending? && e.Closes? ==> t'.negotiation.Rejected?)
            && (t.negotiation.Pending? && !e.Closes? ==>
                  if t'.ready then exists i :: 0 <= i < |t'.hellos| && Settles(t'.hellos[i], t'.negotiation)
                  else t'.negotiation.Pending?)
  {
    StepKeeps(t, e);
    ReadyIsPending(t, e);
    hide Step;
  }

  lemma ReadyIsPending(t: Transport, e: Event)
    requires TransportOk(t)
    ensures var t' := Step(t, e);
            && (!t.negotiation.Pending? ==> t'.negotiation == t.negotiation)
            && (t.negotiation.Pending? && !e.Closes? && !t'.ready ==> t'.negotiation.Pending?)
            && (e.Closes? ==> !t'.negotiation.Pending?)
  {
  }

  // ---- The connection ----

  class ServerTransport {
    var auth: Auth
    var ready: bool
    var closed: bool
    var negotiation: Negotiation
    var hellos: seq<Handling>
    var asked: nat

    ghost function Model(): Transport
      reads this
    {
      Transport(auth, ready, closed, negotiation, hellos, asked)
    }

    ghost predicate Valid()
      reads this
    {
      TransportOk(Model())
    }

    constructor (challenges: bool)
      ensures Valid() && Model() == NewTransport(challenges)
    {
      auth := if challenges then Challenged else Trusted;
      ready, closed, negotiation, hellos, asked := false, false, Pending, [], 0;
    }

    /** The hello's handler up to its first await. */
    method HandleHello(hello: Hello, served: bool)
      requires Valid()
      modifies this
      ensures Valid() && Model() == Begin(old(Model()), hello, served)
    {
      BeginKeeps(Model(), hello, served);
      hide TransportOk;
      var i := |hellos|;
      hellos := hellos + [Handling(hello, AwaitsAuth, false)];
      if auth.Trusted? {
        GoOn(i, served);
      }
    }

    /** From the authentication's settling. */
    method Authenticated(i: nat, served: bool)
      requires Valid() && i < |hellos| && hellos[i].phase.AwaitsAuth?
      modifies this
      ensures Valid() && Model() == Resume(old(Model()), i, served)
    {
      ResumeKeeps(Model(), i, served);
      hide TransportOk;
      match auth {
        case Unproven =>
          Reply(i, NotAuthenticated);
        case Proven(node) =>
          if hellos[i].hello.node != node {
            Reply(i, WrongNode);
          } else {
            GoOn(i, served);
          }
        case _ =>
      }
    }

    method Reply(i: nat, answer: Answer)
      requires i < |hellos|
      modifies this`hellos
      ensures Model() == WithPhase(old(Model()), i, Answered(answer))
    {
      hellos := hellos[i := hellos[i].(phase := Answered(answer))];
    }

    /** Whether the node is served, up to the wait for the build. */
    method GoOn(i: nat, served: bool)
      requires i < |hellos|
      modifies this
      ensures Model() == Check(old(Model()), i, served)
    {
      if ready {
        Reply(i, AlreadyNegotiated);
        return;
      }
      hellos := hellos[i := hellos[i].(served := served)];
      if !served {
        Reply(i, NotServed);
        return;
      }
      if hellos[i].hello.build.Some? {
        hellos := hellos[i := hellos[i].(phase := AwaitsBuild)];
        return;
      }
      CompareVersions(i);
    }

    /** From the build's answer. */
    method BuildKnown(i: nat, bundle: Bundle)
      requires Valid() && i < |hellos| && hellos[i].phase.AwaitsBuild?
      modifies this
      ensures Valid() && Model() == OnBuild(old(Model()), i, bundle)
    {
      OnBuildKeeps(Model(), i, bundle);
      hide TransportOk;
      if bundle.Building? {
        Reply(i, BuildNotReady);
        return;
      }
      if bundle.Built? && hellos[i].hello.build.Some? && bundle.build != hellos[i].hello.build.value {
        Reply(i, UpdateTo(bundle.build));
        return;
      }
      if ready {
        Reply(i, AlreadyNegotiated);
        return;
      }
      CompareVersions(i);
    }

    method CompareVersions(i: nat)
      requires i < |hellos|
      modifies this
      ensures Model() == Agree(old(Model()), i)
    {
      var hello := hellos[i].hello;
      if hello.minVersion > PROTOCOL_VERSION || hello.maxVersion < PROTOCOL_VERSION {
        Reply(i, NoCommonVersion);
        return;
      }
      if !hello.docs {
        Reply(i, NoDocs);
        return;
      }
      ready := true;
      if negotiation.Pending? {
        negotiation := Negotiated(hello.node, hello.build);
      }
      Reply(i, Ready);
    }

    /** `call` and `openStream`, up to the peer they hand the request to. */
    method CallNode() returns (negotiated: bool)
      requires Valid()
      modifies this`asked
      ensures Valid() && Model() == Ask(old(Model())) && negotiated == ready
    {
      if !ready {
        return false;
      }
      asked := asked + 1;
      return true;
    }

    method CloseTransport()
      requires Valid()
      modifies this
      ensures Valid() && Model() == Close(old(Model()))
    {
      CloseKeeps(Model());
      closed := true;
      if negotiation.Pending? {
        negotiation := Rejected;
      }
      if auth.Challenged? {
        auth := Unproven;
      }
    }
  }
}
