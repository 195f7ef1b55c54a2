/** The node's link to its server across connections (`connectNode`): dial, redial, update, refuse. */
module NodeConnection {
  import opened Bytes

  const PROTOCOL_VERSION := 16

  // ---- The hello's reply ----

  /** A failure's text, by number: equal texts have equal numbers. */
  type Message = nat

  const INVALID_RESPONSE: Message := 0
  const INVALID_ERROR: Message := 1
  const INVALID_NEGOTIATION: Message := 2
  const CONNECTION_CLOSED: Message := 3

  /** What answers a hello. `valid`: it matches the schema of its kind. An error reply carries the server's text. */
  datatype HelloAnswer =
    | Ready(valid: bool, version: int)
    | Update(valid: bool, build: nat)
    | HelloError(valid: bool)
    | OtherKind
    | ErrorReply(nodeRefused: bool, message: Message)
    | BadError
    | NoEnvelope

  /** How the node reads the answer: the connection serves, or the build to install, or never to be served, or a
      failure that retrying may cure. */
  datatype Verdict = Serves | Updates(build: nat) | Refuses | Fails(message: Message)

  function Reading(answer: HelloAnswer): Verdict {
    match answer
    case Ready(valid, version) =>
      if !valid then Fails(INVALID_RESPONSE)
      else if version != PROTOCOL_VERSION then Fails(INVALID_NEGOTIATION)
      else Serves
    case Update(valid, build) => if valid then Updates(build) else Refuses
    case HelloError(_) => Refuses
    case OtherKind => Refuses
    case ErrorReply(nodeRefused, message) => if nodeRefused then Refuses else Fails(message)
    case BadError => Fails(INVALID_ERROR)
    case NoEnvelope => Fails(INVALID_RESPONSE)
  }

  // ---- Backoff ----

  const RECONNECT_INITIAL := 100
  const RECONNECT_MAX := 5000
  const UPDATE_INITIAL := 5000
  const UPDATE_MAX := 300000

  function Power(n: nat): nat {
    if n == 0 then 1 else 2 * Power(n - 1)
  }

  /** The longest wait after so many failures. */
  function Ceiling(initial: nat, max: nat, failures: nat): nat {
    if initial * Power(failures) < max then initial * Power(failures) else max
  }

  lemma {:induction false} CeilingDoubles(initial: nat, max: nat, failures: nat)
    requires 0 < initial <= max
    ensures initial <= Ceiling(initial, max, failures) <= max && Ceiling(initial, max, 0) == initial
    ensures Ceiling(initial, max, failures + 1) == AtMost(max, 2 * Ceiling(initial, max, failures))
  {
    assert Ceiling(initial, max, 0) == initial;
    if failures > 0 {
      CeilingDoubles(initial, max, failures - 1);
    }
    assert Power(failures + 1) == 2 * Power(failures);
    hide Power;
    TwiceTimes(initial, Power(failures));
  }

  lemma TwiceTimes(a: nat, b: nat)
    ensures a * (2 * b) == 2 * (a * b)
  {
  }

  function AtMost(max: nat, n: nat): nat {
    if n < max then n else max
  }

  /** What an armed timer waits for: the backoff after so many attempts, or so many failed updates. */
  datatype Wait = Reconnect(attempt: nat) | RetryUpdate(failures: nat)

  function Initial(w: Wait): nat {
    if w.Reconnect? then RECONNECT_INITIAL else UPDATE_INITIAL
  }

  function Bound(w: Wait): nat {
    if w.Reconnect? then RECONNECT_MAX else UPDATE_MAX
  }

  /** How long the timer waits at most. */
  function Longest(w: Wait): nat {
    Ceiling(Initial(w), Bound(w), if w.Reconnect? then w.attempt else w.failures)
  }

  /** The delay drawn, by a number from 0 up to 1. */
  function Drawn(ceiling: real, random: real): real {
    ceiling / 2.0 + random * ceiling / 2.0
  }

  lemma DrawnIsWithin(ceiling: real, random: real)
    requires 0.0 < ceiling && 0.0 <= random < 1.0
    ensures ceiling / 2.0 <= Drawn(ceiling, random) < ceiling
  {
    var part := random * ceiling;
    assert (1.0 - random) * ceiling > 0.0;
    assert 0.0 <= part < ceiling;
  }

  /** The wait after the next failure. */
  function NextWait(w: Wait): Wait {
    match w
    case Reconnect(attempt) => Reconnect(attempt + 1)
    case RetryUpdate(failures) => RetryUpdate(failures + 1)
  }

  /** Whatever number is drawn, the delay is at least half its ceiling and below it; and the ceiling doubles from
      failure to failure until it stays at its bound. */
  lemma BackoffDoubles(w: Wait, random: real)
    requires 0.0 <= random < 1.0
    ensures Initial(w) <= Longest(w) <= Bound(w) && Longest(NextWait(w)) == AtMost(Bound(w), 2 * Longest(w))
    ensures var ceiling := Longest(w) as real; ceiling / 2.0 <= Drawn(ceiling, random) < ceiling
  {
    CeilingDoubles(Initial(w), Bound(w), if w.Reconnect? then w.attempt else w.failures);
    hide Ceiling, Drawn;
    DrawnIsWithin(Longest(w) as real, random);
  }

  // ---- The link ----

  /** `Answered`: its reply arrived and `ready` is about to settle with it. */
  datatype Hello = Waiting | Answered(verdict: Verdict) | Settled(verdict: Verdict)

  /** One socket: whether it is open, whether its `onclose` ran, its hello, whether `ready`'s reaction ran, and
      whether that took it as negotiated. */
  datatype Conn = Conn(open: bool, closeHeard: bool, hello: Hello, reacted: bool, negotiated: bool)

  datatype Failure = Unreachable(why: Message) | NegotiationFailed(message: Message) | UpdateFailed(why: Message)

  datatype Report = Connecting(failure: Option<Failure>) | Connected | Refused

  /** `dials` and `updates` are those in flight, `reports` every state reported. */
  datatype Link = Link(
    stopped: bool, updating: bool, attempt: nat, updateFailures: nat, lastFailure: Option<Failure>, timer: Option<Wait>,
    current: Option<nat>, conns: seq<Conn>, dials: nat, updates: nat, reports: seq<Report>)

  const CLOSED := Fails(CONNECTION_CLOSED)
  const NEW_CONN := Conn(true, false, Waiting, false, false)

  /** `connectNode` dials at once. */
  const FIRST_DIAL := Link(false, false, 0, 0, None, None, None, [], 1, 0, [])

  function Report1(l: Link, report: Report): Link {
    l.(reports := l.reports + [report])
  }

  function Schedule(l: Link): Link {
    if l.stopped || l.updating || l.timer.Some? then l
    else l.(timer := Some(Reconnect(l.attempt)), attempt := l.attempt + 1)
  }

  function Failed(l: Link, failure: Failure): Link {
    if l.stopped || l.lastFailure == Some(failure) then l
    else Report1(l.(lastFailure := Some(failure)), Connecting(Some(failure)))
  }

  /** Closing a connection rejects a hello without its reply and closes the socket. */
  function Closing(conn: Conn): Conn {
    conn.(open := false, hello := if conn.hello.Waiting? then Settled(CLOSED) else conn.hello)
  }

  function WithConn(l: Link, c: nat, conn: Conn): Link
    requires c < |l.conns|
  {
    l.(conns := l.conns[c := conn])
  }

  function CloseCurrent(l: Link): Link {
    if l.current.Some? && l.current.value < |l.conns| then
      WithConn(l, l.current.value, Closing(l.conns[l.current.value])) else l
  }

  function Stop(l: Link): Link {
    CloseCurrent(l).(stopped := true, timer := None, current := None)
  }

  function Refuse(l: Link): Link {
    Report1(Stop(l), Refused)
  }

  function StartUpdate(l: Link, canUpdate: bool): Link {
    if !canUpdate then Refuse(l) else l.(updating := true, timer := None, updates := l.updates + 1)
  }

  function Dial(l: Link): Link {
    if l.stopped then l else l.(dials := l.dials + 1)
  }

  function Opened(l: Link): Link {
    if l.stopped then l else l.(conns := l.conns + [NEW_CONN], current := Some(|l.conns|))
  }

  function OnClose(l: Link, c: nat): Link
    requires c < |l.conns|
  {
    var conn := l.conns[c];
    var left := WithConn(l, c, Closing(conn).(closeHeard := true)).(current := if l.current == Some(c) then None
      else l.current);
    Schedule(if conn.negotiated && !l.stopped then Report1(left, Connecting(None)) else left)
  }

  /** `ready`'s reaction. */
  function OnReady(l: Link, c: nat, canUpdate: bool): Link
    requires c < |l.conns| && l.conns[c].hello.Settled?
  {
    var conn := l.conns[c];
    var heard := WithConn(l, c, conn.(reacted := true));
    match conn.hello.verdict
    case Serves =>
      var reset := heard.(attempt := 0, updateFailures := 0, lastFailure := None);
      if !conn.open then reset
      else Report1(WithConn(reset, c, conn.(reacted := true, negotiated := true)), Connected)
    case Updates(_) => if l.stopped then heard else StartUpdate(heard, canUpdate)
    case Refuses => if l.stopped then heard else Refuse(heard)
    case Fails(message) => Failed(heard, NegotiationFailed(message))
  }

  function OnUpdateEnd(l: Link, installed: bool, why: Message): Link {
    if installed then Stop(l)
    else if l.stopped then l.(updating := false)
    else
      var failed := Failed(l.(updating := false, updateFailures := l.updateFailures + 1), UpdateFailed(why));
      if failed.timer.Some? then failed else failed.(timer := Some(RetryUpdate(l.updateFailures)))
  }

  /** Microtasks run before any timer or I/O: a reply read and not yet settled, a settled hello not yet reacted
      to, and a closed socket whose `onclose` has not run. */
  predicate Busy(l: Link) {
    exists c :: 0 <= c < |l.conns| && BusyConn(l.conns[c])
  }

  predicate BusyConn(conn: Conn) {
    conn.hello.Answered? || (conn.hello.Settled? && !conn.reacted) || (!conn.open && !conn.closeHeard)
  }

  /** `SocketCloses`: either end closed the socket; `PeerCloses`: the hello timed out, the server fell silent or sent
      a frame out of protocol. */
  datatype Event =
    | TimerFires
    | DialOpens
    | DialFails(why: Message)
    | Replies(c: nat, answer: HelloAnswer)
    | SocketCloses(c: nat)
    | PeerCloses(c: nat)
    | HelloSettles(c: nat)
    | ReadyReacts(c: nat, canUpdate: bool)
    | CloseHeard(c: nat)
    | UpdateEnds(installed: bool, why: Message)
    | Stops

  predicate Enabled(l: Link, e: Event) {
    match e
    case TimerFires => l.timer.Some? && !Busy(l)
    case DialOpens => l.dials > 0
    case DialFails(_) => l.dials > 0
    case Replies(c, _) => c < |l.conns| && l.conns[c].open && l.conns[c].hello.Waiting?
    case SocketCloses(c) => c < |l.conns| && l.conns[c].open
    case PeerCloses(c) => c < |l.conns| && l.conns[c].open
    case HelloSettles(c) => c < |l.conns| && l.conns[c].hello.Answered?
    case ReadyReacts(c, _) => c < |l.conns| && l.conns[c].hello.Settled? && !l.conns[c].reacted
    case CloseHeard(c) => c < |l.conns| && !l.conns[c].open && !l.conns[c].closeHeard
    case UpdateEnds(_, _) => l.updates > 0
    case Stops => true
  }

  /** A hello settled with anything but service closes its connection. */
  function SettledConn(conn: Conn): Conn
    requires conn.hello.Answered?
  {
    var settled := conn.(hello := Settled(conn.hello.verdict));
    if conn.hello.verdict.Serves? then settled else Closing(settled)
  }

  function Step(l: Link, e: Event): Link {
    if !Enabled(l, e) then l
    else
      match e
      case TimerFires => Dial(l.(timer := None))
      case DialOpens => Opened(l.(dials := l.dials - 1))
      case DialFails(why) => Schedule(Failed(l.(dials := l.dials - 1), Unreachable(why)))
      case Replies(c, answer) => WithConn(l, c, l.conns[c].(hello := Answered(Reading(answer))))
      case SocketCloses(c) => WithConn(l, c, l.conns[c].(open := false))
      case PeerCloses(c) => WithConn(l, c, Closing(l.conns[c]))
      case HelloSettles(c) => WithConn(l, c, SettledConn(l.conns[c]))
      case ReadyReacts(c, canUpdate) => OnReady(l, c, canUpdate)
      case CloseHeard(c) => OnClose(l, c)
      case UpdateEnds(installed, why) => OnUpdateEnd(l.(updates := l.updates - 1), installed, why)
      case Stops => Stop(l)
  }

  function Run(events: seq<Event>): Link {
    if events == [] then FIRST_DIAL else Step(Run(events[..|events| - 1]), events[|events| - 1])
  }

  // ---- What every step keeps ----

  predicate Finished(conn: Conn) {
    !conn.open && conn.closeHeard && conn.reacted && conn.hello.Settled?
  }

  predicate ConnOk(conn: Conn) {
    && (conn.reacted ==> conn.hello.Settled?)
    && (conn.closeHeard ==> !conn.open && !conn.hello.Waiting?)
    && (conn.negotiated ==> conn.reacted && conn.hello == Settled(Serves))
    && (conn.hello.Settled? && !conn.hello.verdict.Serves? ==> !conn.open)
  }

  /** No connection yet, or the last: all earlier ones are finished. */
  predicate Idle(l: Link) {
    l.conns == [] || Finished(l.conns[|l.conns| - 1])
  }

  predicate HasOpen(l: Link) {
    l.conns != [] && l.conns[|l.conns| - 1].open
  }

  ghost predicate ConnsOk(l: Link) {
    && (forall c :: 0 <= c < |l.conns| ==> ConnOk(l.conns[c]))
    && (forall c :: 0 <= c < |l.conns| - 1 ==> Finished(l.conns[c]))
    && (l.current.Some? ==> l.current.value == |l.conns| - 1 && !l.conns[l.current.value].closeHeard)
    && (HasOpen(l) ==> l.current == Some(|l.conns| - 1))
    && (l.stopped ==> l.current.None?)
  }

  /** Of a timer, a dial, an open connection and an update there is at most one, and until the link stops one
      unless a closed connection's `onclose` or reply is still to be heard. */
  ghost predicate OneOk(l: Link) {
    && l.updates <= 1 && (l.updates == 1 ==> l.updating) && (l.updating && !l.stopped ==> l.updates == 1)
    && (l.dials > 0 ==> l.dials == 1 && l.timer.None? && !l.updating && Idle(l))
    && (l.updating ==> l.timer.None? && l.conns != [] && l.conns[|l.conns| - 1].hello.Settled?
                       && l.conns[|l.conns| - 1].hello.verdict.Updates? && l.conns[|l.conns| - 1].reacted)
    && (l.timer.Some? ==> !l.stopped && !HasOpen(l))
    && (l.conns != [] && l.conns[|l.conns| - 1].negotiated && !l.conns[|l.conns| - 1].closeHeard ==>
          l.attempt == 0 && l.timer.None?)
    && (!l.stopped && (l.conns == [] || l.conns[|l.conns| - 1].closeHeard) && l.dials == 0 ==>
          l.timer.Some? || l.updating)
  }

  /** The state last reported: connected or not. */
  predicate Up(reports: seq<Report>) {
    reports != [] && reports[|reports| - 1].Connected?
  }

  ghost predicate ReportsOk(l: Link) {
    && (!l.stopped ==> (Up(l.reports) <==>
         l.conns != [] && l.conns[|l.conns| - 1].negotiated && !l.conns[|l.conns| - 1].closeHeard))
    && (forall i :: 0 <= i < |l.reports| && l.reports[i].Refused? ==> l.stopped && i == |l.reports| - 1)
    && (forall i :: 0 < i < |l.reports| && l.reports[i].Connected? ==> !l.reports[i - 1].Connected?)
  }

  ghost predicate LinkOk(l: Link) {
    ConnsOk(l) && OneOk(l) && ReportsOk(l)
  }

  lemma OnlyLastBusy(l: Link, c: nat)
    requires ConnsOk(l) && c < |l.conns| && !Finished(l.conns[c])
    ensures c == |l.conns| - 1
  {
  }

  lemma StopKeeps(l: Link)
    requires LinkOk(l)
    ensures LinkOk(Stop(l)) && (forall c :: 0 <= c < |l.conns| ==> !Stop(l).conns[c].open)
  {
    StopClosesAll(l);
    var l' := Stop(l);
    assert ConnsOk(l');
    assert OneOk(l');
  }

  lemma StopClosesAll(l: Link)
    requires ConnsOk(l)
    ensures ConnsOk(Stop(l)) && |Stop(l).conns| == |l.conns|
    ensures forall c :: 0 <= c < |l.conns| ==> !Stop(l).conns[c].open
  {
  }

  lemma RefuseKeeps(l: Link)
    requires LinkOk(l) && !l.stopped
    ensures LinkOk(Refuse(l))
  {
    StopKeeps(l);
    var l', l'' := Stop(l), Refuse(l);
    assert ConnsOk(l'') && OneOk(l'');
    assert ReportsOk(l'');
  }

  lemma CloseHeardKeeps(l: Link, c: nat)
    requires LinkOk(l) && Enabled(l, CloseHeard(c))
    ensures LinkOk(OnClose(l, c))
  {
    OnlyLastBusy(l, c);
    CloseKeepsConns(l, c);
    CloseKeepsOne(l, c);
    CloseKeepsReports(l, c);
  }

  lemma CloseKeepsConns(l: Link, c: nat)
    requires ConnsOk(l) && c == |l.conns| - 1 && !l.conns[c].open && !l.conns[c].closeHeard
    ensures ConnsOk(OnClose(l, c))
  {
  }

  lemma CloseKeepsOne(l: Link, c: nat)
    requires ConnsOk(l) && OneOk(l) && c == |l.conns| - 1 && !l.conns[c].open && !l.conns[c].closeHeard
    ensures OneOk(OnClose(l, c))
  {
  }

  lemma CloseKeepsReports(l: Link, c: nat)
    requires ReportsOk(l) && c == |l.conns| - 1 && !l.conns[c].open && !l.conns[c].closeHeard
    ensures ReportsOk(OnClose(l, c))
  {
  }

  lemma ReactedKeeps(l: Link, c: nat)
    requires LinkOk(l) && c < |l.conns| && l.conns[c].hello.Settled? && !l.conns[c].reacted
    ensures LinkOk(WithConn(l, c, l.conns[c].(reacted := true)))
  {
    OnlyLastBusy(l, c);
    var heard := WithConn(l, c, l.conns[c].(reacted := true));
    assert ConnsOk(heard);
    assert OneOk(heard);
    assert ReportsOk(heard);
  }

  lemma NegotiatedKeeps(l: Link, c: nat)
    requires LinkOk(l) && c < |l.conns| && l.conns[c].open && l.conns[c].reacted && !l.conns[c].negotiated
        && l.conns[c].hello == Settled(Serves)
    requires l.attempt == 0
    ensures LinkOk(Report1(WithConn(l, c, l.conns[c].(negotiated := true)), Connected))
  {
    OnlyLastBusy(l, c);
    var l' := Report1(WithConn(l, c, l.conns[c].(negotiated := true)), Connected);
    assert ConnsOk(l');
    assert OneOk(l');
    assert ReportsOk(l');
  }

  lemma UpdateStartKeeps(l: Link, c: nat)
    requires LinkOk(l) && !l.stopped && l.dials == 0 && !l.updating && c == |l.conns| - 1
    requires l.conns[c].reacted && l.conns[c].hello.Settled? && l.conns[c].hello.verdict.Updates?
    ensures LinkOk(StartUpdate(l, true))
  {
    var l' := StartUpdate(l, true);
    assert ConnsOk(l');
    assert OneOk(l');
    assert ReportsOk(l');
  }

  /** What a connection whose hello has just settled says of the rest: no dial, no update. */
  lemma UnreactedIsAlone(l: Link, c: nat)
    requires LinkOk(l) && c < |l.conns| && !l.conns[c].reacted
    ensures c == |l.conns| - 1 && l.dials == 0 && !l.updating && !l.conns[c].negotiated
        && (!l.stopped ==> !Up(l.reports))
  {
    OnlyLastBusy(l, c);
  }

  lemma ReadyKeeps(l: Link, c: nat, canUpdate: bool)
    requires LinkOk(l) && Enabled(l, ReadyReacts(c, canUpdate))
    ensures LinkOk(OnReady(l, c, canUpdate))
  {
    UnreactedIsAlone(l, c);
    ReactedKeeps(l, c);
    hide LinkOk, Stop;
    var conn := l.conns[c];
    var heard := WithConn(l, c, conn.(reacted := true));
    match conn.hello.verdict
    case Serves =>
      var reset := heard.(attempt := 0, updateFailures := 0, lastFailure := None);
      ResetKeeps(heard);
      if conn.open {
        NegotiatedKeeps(reset, c);
        assert WithConn(reset, c, reset.conns[c].(negotiated := true))
            == WithConn(reset, c, conn.(reacted := true, negotiated := true));
      }
    case Updates(_) =>
      if !l.stopped {
        RefuseKeeps(heard);
        UpdateStartKeeps(heard, c);
      }
    case Refuses => if !l.stopped { RefuseKeeps(heard); }
    case Fails(message) => FailedKeeps(heard, NegotiationFailed(message));
  }

  lemma ResetKeeps(l: Link)
    requires LinkOk(l)
    ensures LinkOk(l.(attempt := 0, updateFailures := 0, lastFailure := None))
  {
    var l' := l.(attempt := 0, updateFailures := 0, lastFailure := None);
    assert ConnsOk(l') && OneOk(l') && ReportsOk(l');
  }

  lemma FailedKeeps(l: Link, failure: Failure)
    requires LinkOk(l) && (l.stopped || !Up(l.reports))
    ensures LinkOk(Failed(l, failure))
  {
    var l' := Failed(l, failure);
    assert ConnsOk(l') && OneOk(l');
    assert ReportsOk(l');
  }

  lemma UpdateEndKeeps(l: Link, installed: bool, why: Message)
    requires LinkOk(l) && l.updates > 0
    ensures LinkOk(OnUpdateEnd(l.(updates := l.updates - 1), installed, why))
  {
    hide LinkOk;
    if installed {
      InstalledKeeps(l);
    } else if l.stopped {
      UpdateOverKeeps(l);
    } else {
      RetryKeeps(l);
      FailedKeeps(Retrying(l), UpdateFailed(why));
    }
  }

  lemma UpdateOverKeeps(l: Link)
    requires LinkOk(l) && l.updates > 0 && l.stopped
    ensures LinkOk(l.(updates := l.updates - 1, updating := false)) && LinkOk(l.(updates := l.updates - 1))
  {
    var l', l'' := l.(updates := l.updates - 1, updating := false), l.(updates := l.updates - 1);
    assert ConnsOk(l') && OneOk(l') && ReportsOk(l');
    assert ConnsOk(l'') && OneOk(l'') && ReportsOk(l'');
  }

  lemma InstalledKeeps(l: Link)
    requires LinkOk(l) && l.updates > 0
    ensures LinkOk(Stop(l.(updates := l.updates - 1)))
  {
    StopKeeps(l);
    UpdateOverKeeps(Stop(l));
    hide LinkOk;
    assert Stop(l.(updates := l.updates - 1)) == Stop(l).(updates := l.updates - 1);
  }

  function Retrying(l: Link): Link
    requires l.updates > 0
  {
    l.(updates := l.updates - 1, updating := false, updateFailures := l.updateFailures + 1,
      timer := Some(RetryUpdate(l.updateFailures)))
  }

  lemma RetryKeeps(l: Link)
    requires LinkOk(l) && l.updates > 0 && !l.stopped
    ensures LinkOk(Retrying(l)) && !Up(l.reports) && l.timer.None?
  {
    var l' := Retrying(l);
    assert ConnsOk(l');
    assert OneOk(l');
    assert ReportsOk(l');
  }

  /** A connection that goes a step further without its reaction or `onclose` having run. */
  lemma ConnStepKeeps(l: Link, c: nat, conn: Conn)
    requires LinkOk(l) && c < |l.conns| && !Finished(l.conns[c]) && ConnOk(conn)
    requires var was := l.conns[c];
             && conn.reacted == was.reacted && conn.negotiated == was.negotiated && conn.closeHeard == was.closeHeard
             && (conn.open ==> was.open) && (was.hello.Settled? ==> conn.hello == was.hello)
    ensures LinkOk(WithConn(l, c, conn))
  {
    OnlyLastBusy(l, c);
    var l' := WithConn(l, c, conn);
    assert ConnsOk(l');
    assert OneOk(l');
    assert ReportsOk(l');
  }

  lemma DialKeeps(l: Link)
    requires LinkOk(l) && l.timer.Some? && !Busy(l)
    ensures LinkOk(Dial(l.(timer := None)))
  {
    var l' := Dial(l.(timer := None));
    if l.conns != [] {
      assert !BusyConn(l.conns[|l.conns| - 1]);
    }
    assert ConnsOk(l');
    assert OneOk(l');
    assert ReportsOk(l');
  }

  lemma OpenKeeps(l: Link)
    requires LinkOk(l) && l.dials > 0
    ensures LinkOk(Opened(l.(dials := l.dials - 1)))
  {
    var l' := Opened(l.(dials := l.dials - 1));
    assert ConnsOk(l');
    assert OneOk(l');
    assert ReportsOk(l');
  }

  lemma DialFailKeeps(l: Link, why: Message)
    requires LinkOk(l) && l.dials > 0
    ensures LinkOk(Schedule(Failed(l.(dials := l.dials - 1), Unreachable(why))))
  {
    FailedKeeps(l, Unreachable(why));
    var failed := Failed(l, Unreachable(why));
    var l' := Schedule(failed.(dials := l.dials - 1));
    assert ConnsOk(l');
    assert OneOk(l');
    assert ReportsOk(l');
  }

  lemma StepKeeps(l: Link, e: Event)
    requires LinkOk(l)
    ensures LinkOk(Step(l, e))
  {
    if Enabled(l, e) {
      assert e.Replies? || e.SocketCloses? || e.PeerCloses? || e.HelloSettles? ==> ConnOk(l.conns[e.c]);
      hide LinkOk, Stop, Busy;
      match e
      case TimerFires => DialKeeps(l);
      case DialOpens => OpenKeeps(l);
      case DialFails(why) => DialFailKeeps(l, why);
      case Replies(c, answer) => ConnStepKeeps(l, c, l.conns[c].(hello := Answered(Reading(answer))));
      case SocketCloses(c) => ConnStepKeeps(l, c, l.conns[c].(open := false));
      case PeerCloses(c) => ConnStepKeeps(l, c, Closing(l.conns[c]));
      case HelloSettles(c) => ConnStepKeeps(l, c, SettledConn(l.conns[c]));
      case ReadyReacts(c, canUpdate) => ReadyKeeps(l, c, canUpdate);
      case CloseHeard(c) => CloseHeardKeeps(l, c);
      case UpdateEnds(installed, why) => UpdateEndKeeps(l, installed, why);
      case Stops => StopKeeps(l);
    }
  }

  lemma {:induction false} RunKeeps(events: seq<Event>)
    ensures LinkOk(Run(events))
  {
    if events != [] {
      RunKeeps(events[..|events| - 1]);
      StepKeeps(Run(events[..|events| - 1]), events[|events| - 1]);
    }
  }

  // ---- What the link promises ----

  /** What will make the link go on: a timer, a dial, an open connection, an update. */
  function Outstanding(l: Link): nat {
    (if l.timer.Some? then 1 else 0) + l.dials + (if HasOpen(l) then 1 else 0) + l.updates
  }

  function OpenConns(conns: seq<Conn>): nat {
    if conns == [] then 0 else OpenConns(conns[..|conns| - 1]) + if conns[|conns| - 1].open then 1 else 0
  }

  lemma {:induction false} NoneOpen(conns: seq<Conn>)
    requires forall c :: 0 <= c < |conns| ==> !conns[c].open
    ensures OpenConns(conns) == 0
  {
    if conns != [] {
      NoneOpen(conns[..|conns| - 1]);
    }
  }

  /** Over every run there is never more than one of them, so the link never dials twice; and whenever its
      microtasks have run there is one until it stops, so it never stalls. */
  lemma OneOutstanding(events: seq<Event>)
    ensures var l := Run(events);
            && Outstanding(l) <= 1
            && (!l.stopped && !Busy(l) ==> Outstanding(l) == 1)
            && OpenConns(l.conns) == (if HasOpen(l) then 1 else 0)
  {
    RunKeeps(events);
    var l := Run(events);
    if l.conns != [] {
      NoneOpen(l.conns[..|l.conns| - 1]);
      assert BusyConn(l.conns[|l.conns| - 1]) ==> Busy(l);
    }
    hide Run;
  }

  /** Once stopped, by the caller, a refusal or an installed update, nothing is dialed or reported again, and no
      connection is open. */
  lemma StoppedForGood(events: seq<Event>, e: Event)
    requires Run(events).stopped
    ensures var l, l' := Run(events), Step(Run(events), e);
            && l'.stopped && l'.dials <= l.dials && l'.reports == l.reports && !HasOpen(l') && l'.timer.None?
  {
    RunKeeps(events);
    StepKeeps(Run(events), e);
  }

  /** A refusal is the last report, so there is at most one; and two `connected` reports have another between. */
  lemma RefusedOnce(events: seq<Event>)
    ensures var reports := Run(events).reports;
            && (forall i :: 0 <= i < |reports| - 1 ==> !reports[i].Refused?)
            && (forall i :: 0 <= i < |reports| - 1 ==> !(reports[i].Connected? && reports[i + 1].Connected?))
  {
    RunKeeps(events);
  }

  /** Until it stops, the last report says `connected` exactly when a negotiated connection's close has not been
      heard; hearing it reports `connecting` and arms the timer that dials again, with the first backoff. The close of
      any other is not reported. */
  lemma DropIsReported(events: seq<Event>, c: nat)
    requires !Run(events).stopped && Enabled(Run(events), CloseHeard(c))
    ensures var l, l' := Run(events), Step(Run(events), CloseHeard(c));
            && (l.conns[c].negotiated <==> Up(l.reports))
            && (l.conns[c].negotiated ==>
                 l'.reports == l.reports + [Connecting(None)] && l'.timer == Some(Reconnect(0)))
            && (!l.conns[c].negotiated ==> l'.reports == l.reports)
            && !Up(l'.reports) && (l'.timer.Some? || l'.updating)
  {
    hide Run;
    RunKeeps(events);
    CloseIsReported(Run(events), c);
  }

  lemma CloseIsReported(l: Link, c: nat)
    requires LinkOk(l) && !l.stopped && Enabled(l, CloseHeard(c))
    ensures var l' := OnClose(l, c);
            && (l.conns[c].negotiated <==> Up(l.reports))
            && (l.conns[c].negotiated ==>
                 l'.reports == l.reports + [Connecting(None)] && l'.timer == Some(Reconnect(0)))
            && (!l.conns[c].negotiated ==> l'.reports == l.reports)
            && !Up(l'.reports) && (l'.timer.Some? || l'.updating)
  {
    OnlyLastBusy(l, c);
  }

  /** A hello that is served starts the counts over. */
  predicate Resets(l: Link, e: Event) {
    e.ReadyReacts? && Enabled(l, e) && l.conns[e.c].hello.verdict.Serves?
  }

  /** The timer was armed: for an update that failed, or else to dial again. */
  predicate Armed(l: Link, l': Link, update: bool) {
    l.timer.None? && l'.timer.Some? && l'.timer.value.RetryUpdate? == update
  }

  predicate Arms(l: Link, e: Event, update: bool) {
    Armed(l, Step(l, e), update)
  }

  /** How often the run armed it since a hello was last served. */
  function Armings(events: seq<Event>, update: bool): nat {
    if events == [] then 0
    else
      var init, last := events[..|events| - 1], events[|events| - 1];
      if Resets(Run(init), last) then 0 else Armings(init, update) + if Arms(Run(init), last, update) then 1 else 0
  }

  /** Each arming takes the next wait of its kind. */
  predicate Counted(l: Link, l': Link) {
    && l'.attempt == l.attempt + (if Armed(l, l', false) then 1 else 0)
    && l'.updateFailures == l.updateFailures + (if Armed(l, l', true) then 1 else 0)
    && (Armed(l, l', false) ==> l'.timer == Some(Reconnect(l.attempt)))
    && (Armed(l, l', true) ==> l'.timer == Some(RetryUpdate(l.updateFailures)))
  }

  lemma CloseCounts(l: Link, c: nat)
    requires c < |l.conns|
    ensures Counted(l, OnClose(l, c))
  {
    hide Closing;
  }

  lemma ReadyCounts(l: Link, c: nat, canUpdate: bool)
    requires c < |l.conns| && l.conns[c].hello.Settled?
    ensures var l' := OnReady(l, c, canUpdate);
            if l.conns[c].hello.verdict.Serves? then l'.attempt == 0 && l'.updateFailures == 0 && !Armed(l, l', false)
              && !Armed(l, l', true)
            else Counted(l, l')
  {
    hide Closing;
    match l.conns[c].hello.verdict
    case Serves =>
    case Updates(_) =>
    case Refuses =>
    case Fails(_) =>
  }

  lemma UpdateEndCounts(l: Link, installed: bool, why: Message)
    requires OneOk(l) && l.updates > 0
    ensures Counted(l, OnUpdateEnd(l.(updates := l.updates - 1), installed, why))
  {
    assert l.timer.None?;
    hide OneOk, Closing;
  }

  lemma DialFailCounts(l: Link, why: Message)
    requires l.dials > 0
    ensures Counted(l, Schedule(Failed(l.(dials := l.dials - 1), Unreachable(why))))
  {
  }

  lemma StepCounts(l: Link, e: Event)
    requires OneOk(l)
    ensures Resets(l, e) ==>
        Step(l, e).attempt == 0 && Step(l, e).updateFailures == 0 && !Arms(l, e, false) && !Arms(l, e, true)
    ensures !Resets(l, e) ==> Counted(l, Step(l, e))
  {
    hide Busy, Closing, OneOk;
    if Enabled(l, e) {
      match e
      case ReadyReacts(c, canUpdate) =>
        ReadyCounts(l, c, canUpdate);
        hide OnReady;
      case CloseHeard(c) =>
        CloseCounts(l, c);
        hide OnClose;
      case UpdateEnds(installed, why) =>
        UpdateEndCounts(l, installed, why);
        hide OnUpdateEnd;
      case DialFails(why) =>
        DialFailCounts(l, why);
        hide Schedule, Failed;
      case _ =>
    }
  }

  lemma {:induction false} RunCounts(events: seq<Event>)
    ensures Run(events).attempt == Armings(events, false) && Run(events).updateFailures == Armings(events, true)
  {
    if events != [] {
      var init, last := events[..|events| - 1], events[|events| - 1];
      RunCounts(init);
      RunKeeps(init);
      StepCounts(Run(init), last);
      hide Step, Armed, Resets;
    }
  }

  /** In every run, the timer armed to dial again, and that armed by a failed update, has its first ceiling when it is
      armed first since a hello was served, and else the double of the one before, up to its bound. */
  lemma WaitsDouble(events: seq<Event>, e: Event, update: bool)
    requires Arms(Run(events), e, update)
    ensures var wait, n := Step(Run(events), e).timer.value, Armings(events, update);
            var first, bound := if update then UPDATE_INITIAL else RECONNECT_INITIAL,
                                if update then UPDATE_MAX else RECONNECT_MAX;
            && (n == 0 ==> Longest(wait) == first)
            && (n > 0 ==> exists before ::
                 wait == NextWait(before) && Longest(wait) == AtMost(bound, 2 * Longest(before)))
            && wait == if update then RetryUpdate(n) else Reconnect(n)
  {
    RunCounts(events);
    RunKeeps(events);
    StepCounts(Run(events), e);
    var n := Armings(events, update);
    hide Step, Run, Armings;
    if n == 0 {
      CeilingDoubles(RECONNECT_INITIAL, RECONNECT_MAX, 0);
      CeilingDoubles(UPDATE_INITIAL, UPDATE_MAX, 0);
    } else {
      var before := if update then RetryUpdate(n - 1) else Reconnect(n - 1);
      BackoffDoubles(before, 0.0);
      hide Longest;
      assert NextWait(before) == if update then RetryUpdate(n) else Reconnect(n);
    }
  }

  // ---- What the server's answer decides ----

  /** What the server answered the connection's hello, in the run. */
  function AnswerTo(events: seq<Event>, c: nat): Option<HelloAnswer> {
    if events == [] then None
    else
      var init, last := events[..|events| - 1], events[|events| - 1];
      if last.Replies? && last.c == c && Enabled(Run(init), last) then Some(last.answer) else AnswerTo(init, c)
  }

  /** The server accepts the node's hello, at the version both run. */
  predicate Accepts(answer: HelloAnswer) {
    answer == Ready(true, PROTOCOL_VERSION)
  }

  /** The server will not serve this node, or answers what the node cannot read. */
  predicate TurnsDown(answer: HelloAnswer) {
    || answer.HelloError? || answer.OtherKind?
    || (answer.ErrorReply? && answer.nodeRefused) || (answer.Update? && !answer.valid)
  }

  predicate AsksToUpdate(answer: HelloAnswer) {
    answer.Update? && answer.valid
  }

  /** Why any other answer fails. */
  function FailureOf(answer: HelloAnswer): Message {
    if answer.ErrorReply? then answer.message
    else if answer.BadError? then INVALID_ERROR
    else if answer.Ready? && answer.valid then INVALID_NEGOTIATION
    else INVALID_RESPONSE
  }

  lemma ReadingIs(answer: HelloAnswer)
    ensures Reading(answer).Serves? <==> Accepts(answer)
    ensures Reading(answer).Refuses? <==> TurnsDown(answer)
    ensures Reading(answer).Updates? <==> AsksToUpdate(answer)
    ensures AsksToUpdate(answer) ==> Reading(answer) == Updates(answer.build)
    ensures !Accepts(answer) && !TurnsDown(answer) && !AsksToUpdate(answer) ==>
        Reading(answer) == Fails(FailureOf(answer))
  {
  }

  /** A hello stands as its answer makes it, or as the close of its connection does. */
  ghost predicate HelloIs(hello: Hello, answer: Option<HelloAnswer>) {
    match hello
    case Waiting => answer.None?
    case Answered(verdict) => answer.Some? && verdict == Reading(answer.value)
    case Settled(verdict) => verdict == if answer.Some? then Reading(answer.value) else CLOSED
  }

  lemma StepKeepsHello(l: Link, e: Event, c: nat, answer: Option<HelloAnswer>)
    requires LinkOk(l) && (if c < |l.conns| then HelloIs(l.conns[c].hello, answer) else answer.None?)
    ensures var l' := Step(l, e);
            var answer' := if e.Replies? && e.c == c && Enabled(l, e) then Some(e.answer) else answer;
            |l'.conns| >= |l.conns| && if c < |l'.conns| then HelloIs(l'.conns[c].hello, answer') else answer'.None?
  {
    assert ConnsOk(l);
    hide LinkOk, ConnsOk, OneOk, ReportsOk, Busy, Reading;
    if e.Replies? || e.HelloSettles? || e.DialOpens? {
      hide Closing;
    } else {
      OtherStepsKeepHellos(l, e);
      hide Step;
    }
  }

  lemma OtherStepsKeepHellos(l: Link, e: Event)
    requires !e.Replies? && !e.HelloSettles? && !e.DialOpens?
    ensures SameHellos(l, Step(l, e))
  {
    hide Busy, SameHellos;
    SameConns(l, l);
    match e
    case TimerFires => SameConns(l, Dial(l.(timer := None)));
    case DialFails(why) =>
      if l.dials > 0 {
        SameConns(l, Schedule(Failed(l.(dials := l.dials - 1), Unreachable(why))));
      }
    case SocketCloses(c) =>
      if c < |l.conns| {
        OneConnClosed(l, c, l.conns[c].(open := false));
      }
    case PeerCloses(c) =>
      if c < |l.conns| {
        OneConnClosed(l, c, Closing(l.conns[c]));
      }
    case ReadyReacts(c, canUpdate) => ReactKeepsHellos(l, c, canUpdate);
    case CloseHeard(c) =>
      if c < |l.conns| {
        CloseKeepsHellos(l, c);
      }
    case UpdateEnds(installed, why) =>
      if l.updates > 0 {
        UpdateKeepsHellos(l.(updates := l.updates - 1), installed, why);
        SameHellosBefore(l, l.(updates := l.updates - 1), Step(l, e));
      }
    case Stops => StopKeepsHellos(l);
  }

  lemma SameConns(l: Link, l': Link)
    requires l'.conns == l.conns
    ensures SameHellos(l, l')
  {
  }

  lemma SameHellosBefore(l: Link, before: Link, l': Link)
    requires before.conns == l.conns && SameHellos(before, l')
    ensures SameHellos(l, l')
  {
  }

  lemma OneConnClosed(l: Link, c: nat, conn: Conn)
    requires c < |l.conns|
    requires conn.hello == l.conns[c].hello || (l.conns[c].hello.Waiting? && conn.hello == Settled(CLOSED))
    ensures SameHellos(l, WithConn(l, c, conn))
  {
  }

  lemma CloseKeepsHellos(l: Link, c: nat)
    requires c < |l.conns|
    ensures SameHellos(l, OnClose(l, c))
  {
    OneConnClosed(l, c, Closing(l.conns[c]).(closeHeard := true));
    hide SameHellos;
    SameHellosAfter(l, WithConn(l, c, Closing(l.conns[c]).(closeHeard := true)), OnClose(l, c));
  }

  lemma SameHellosAfter(l: Link, after: Link, l': Link)
    requires SameHellos(l, after) && l'.conns == after.conns
    ensures SameHellos(l, l')
  {
  }

  lemma StopKeepsHellos(l: Link)
    ensures SameHellos(l, Stop(l))
  {
  }

  /** Only the end of a hello that waits: a stop closes its connection. */
  ghost predicate SameHellos(l: Link, l': Link) {
    && |l'.conns| == |l.conns|
    && forall c: nat :: c < |l.conns| ==>
         l'.conns[c].hello == l.conns[c].hello || (l.conns[c].hello.Waiting? && l'.conns[c].hello == Settled(CLOSED))
  }

  lemma ReactKeepsHellos(l: Link, c: nat, canUpdate: bool)
    ensures c < |l.conns| && l.conns[c].hello.Settled? ==> SameHellos(l, OnReady(l, c, canUpdate))
  {
    if c < |l.conns| && l.conns[c].hello.Settled? {
      var conn := l.conns[c];
      var heard := WithConn(l, c, conn.(reacted := true));
      OneConnClosed(l, c, conn.(reacted := true));
      OneConnClosed(l, c, conn.(reacted := true, negotiated := true));
      StopKeepsHellos(heard);
      assert forall d: nat :: d < |l.conns| ==> heard.conns[d].hello == l.conns[d].hello;
      assert SameHellos(l, Stop(heard));
      hide SameHellos, Stop;
      SameHellosAfter(l, Stop(heard), Refuse(heard));
      SameHellosAfter(l, heard, OnReady(l, c, canUpdate).(conns := heard.conns));
    }
  }

  lemma UpdateKeepsHellos(l: Link, installed: bool, why: Message)
    ensures SameHellos(l, OnUpdateEnd(l, installed, why))
  {
  }

  lemma {:induction false} HellosAreAnswered(events: seq<Event>, c: nat)
    ensures var l := Run(events);
            if c < |l.conns| then HelloIs(l.conns[c].hello, AnswerTo(events, c)) else AnswerTo(events, c).None?
  {
    if events != [] {
      var init, last := events[..|events| - 1], events[|events| - 1];
      HellosAreAnswered(init, c);
      RunKeeps(init);
      StepKeepsHello(Run(init), last, c, AnswerTo(init, c));
      hide Step, Enabled;
    }
  }

  /** In every run, a connection is negotiated only if the server's answer accepted its hello at this version. */
  lemma NegotiatedWasAccepted(events: seq<Event>, c: nat)
    requires c < |Run(events).conns| && Run(events).conns[c].negotiated
    ensures AnswerTo(events, c).Some? && Accepts(AnswerTo(events, c).value)
  {
    RunKeeps(events);
    HellosAreAnswered(events, c);
    assert ConnOk(Run(events).conns[c]);
    if AnswerTo(events, c).Some? {
      ReadingIs(AnswerTo(events, c).value);
    }
  }

  /** What the reaction to a hello with this answer, or closed without one, makes of a link that is not stopped. */
  predicate Decided(l: Link, l': Link, c: nat, canUpdate: bool, answer: Option<HelloAnswer>)
    requires c < |l.conns|
  {
    && |l'.conns| == |l.conns|
    && if answer.Some? && Accepts(answer.value) then
         && l'.reports == (if l.conns[c].open then l.reports + [Connected] else l.reports)
         && l'.conns[c].negotiated == (l.conns[c].open || l.conns[c].negotiated) && l'.conns[c].open == l.conns[c].open
         && l'.attempt == 0 && l'.updateFailures == 0 && l'.lastFailure.None?
       else if answer.Some? && AsksToUpdate(answer.value) && canUpdate then
         l'.updates == l.updates + 1 && l'.updating && l'.reports == l.reports && !l'.stopped
       else if answer.Some? && (TurnsDown(answer.value) || AsksToUpdate(answer.value)) then
         l'.stopped && l'.reports == l.reports + [Refused]
       else
         var failure := NegotiationFailed(if answer.Some? then FailureOf(answer.value) else CONNECTION_CLOSED);
         && !l'.stopped && l'.lastFailure == Some(failure)
         && l'.reports == if l.lastFailure == Some(failure) then l.reports else l.reports + [Connecting(Some(failure))]
  }

  /** In every run, until it stops, what the link does about a hello is what the server's answer decides. Accepted on a
      connection still open, it is reported as connected. Turned down, or told to update without an updater, the link
      refuses for good. Told to update, it starts the update. Any other answer, and none before the close, is a failure,
      reported when it is new. */
  lemma AnswerDecides(events: seq<Event>, c: nat, canUpdate: bool)
    requires Enabled(Run(events), ReadyReacts(c, canUpdate)) && !Run(events).stopped
    ensures Decided(Run(events), Step(Run(events), ReadyReacts(c, canUpdate)), c, canUpdate, AnswerTo(events, c))
  {
    HellosAreAnswered(events, c);
    if AnswerTo(events, c).Some? {
      ReadingIs(AnswerTo(events, c).value);
    }
    hide Run, AnswerTo, Reading, CloseCurrent, Accepts, TurnsDown, AsksToUpdate, FailureOf;
  }

  /** The answer settles the hello: accepted, the connection stays open, and else it is closed. */
  lemma SettlesOpenIffAccepted(events: seq<Event>, c: nat)
    requires Enabled(Run(events), HelloSettles(c))
    ensures var l, l' := Run(events), Step(Run(events), HelloSettles(c));
            && AnswerTo(events, c).Some? && l'.conns[c].hello.Settled? && !l'.conns[c].reacted
            && (l'.conns[c].open <==> l.conns[c].open && Accepts(AnswerTo(events, c).value))
  {
    HellosAreAnswered(events, c);
    RunKeeps(events);
    assert ConnOk(Run(events).conns[c]);
    ReadingIs(AnswerTo(events, c).value);
    hide Run, AnswerTo, Reading;
  }

  predicate ReportsRefusal(before: seq<Report>, after: seq<Report>) {
    |after| > |before| && after[|after| - 1].Refused?
  }

  lemma CloseSaysNothing(l: Link)
    ensures CloseCurrent(l).reports == l.reports
  {
  }

  lemma OnlyReactionsRefuse(l: Link, e: Event)
    requires ReportsRefusal(l.reports, Step(l, e).reports)
    ensures e.ReadyReacts? && Enabled(l, e) && !l.stopped
  {
    hide Busy, CloseCurrent, Closing;
    CloseSaysNothing(l);
    match e
    case UpdateEnds(_, _) => CloseSaysNothing(l.(updates := l.updates - 1));
    case _ =>
  }

  lemma DecidedRefusal(l: Link, l': Link, c: nat, canUpdate: bool, answer: Option<HelloAnswer>)
    requires c < |l.conns| && Decided(l, l', c, canUpdate, answer) && ReportsRefusal(l.reports, l'.reports)
    ensures answer.Some? && (TurnsDown(answer.value) || (AsksToUpdate(answer.value) && !canUpdate))
  {
    hide Accepts, TurnsDown, AsksToUpdate, FailureOf;
  }

  /** In every run, the link reports a refusal only after such an answer. */
  lemma RefusedOnlyThen(events: seq<Event>, e: Event)
    requires ReportsRefusal(Run(events).reports, Step(Run(events), e).reports)
    ensures e.ReadyReacts? && AnswerTo(events, e.c).Some?
    ensures TurnsDown(AnswerTo(events, e.c).value) || (AsksToUpdate(AnswerTo(events, e.c).value) && !e.canUpdate)
  {
    var l := Run(events);
    OnlyReactionsRefuse(l, e);
    assert e.c < |l.conns|;
    hide Run, Step, Enabled, Decided, ReportsRefusal;
    AnswerDecides(events, e.c, e.canUpdate);
    DecidedRefusal(l, Step(l, e), e.c, e.canUpdate, AnswerTo(events, e.c));
  }

  // ---- The connector ----

  class Connector {
    var stopped: bool
    var updating: bool
    var attempt: nat
    var updateFailures: nat
    var lastFailure: Option<Failure>
    var timer: Option<Wait>
    var current: Option<nat>
    var conns: seq<Conn>
    var dials: nat
    var updates: nat
    var reports: seq<Report>

    ghost function Model(): Link
      reads this
    {
      Link(stopped, updating, attempt, updateFailures, lastFailure, timer, current, conns, dials, updates, reports)
    }

    ghost predicate Valid()
      reads this
    {
      LinkOk(Model())
    }

    constructor ()
      ensures Valid() && Model() == FIRST_DIAL
    {
      stopped, updating, attempt, updateFailures, lastFailure, timer := false, false, 0, 0, None, None;
      current, conns, dials, updates, reports := None, [], 1, 0, [];
    }

    method ScheduleDial()
      modifies this`timer, this`attempt
      ensures Model() == Schedule(old(Model()))
    {
      if stopped || updating || timer.Some? {
        return;
      }
      timer := Some(Reconnect(attempt));
      attempt := attempt + 1;
    }

    method ReportFailure(failure: Failure)
      modifies this`lastFailure, this`reports
      ensures Model() == Failed(old(Model()), failure)
    {
      if stopped || lastFailure == Some(failure) {
        return;
      }
      lastFailure := Some(failure);
      reports := reports + [Connecting(Some(failure))];
    }

    /** `StopKeeps`: it keeps the link valid. */
    method StopLink()
      requires ConnsOk(Model())
      modifies this`stopped, this`timer, this`current, this`conns
      ensures Model() == Stop(old(Model())) && |conns| == |old(conns)|
      ensures stopped && timer.None? && current.None? && forall c :: 0 <= c < |conns| ==> !conns[c].open
    {
      StopClosesAll(Model());
      hide ConnsOk;
      stopped := true;
      timer := None;
      if current.Some? {
        conns := conns[current.value := Closing(conns[current.value])];
      }
      current := None;
    }

    method RefuseLink()
      requires Valid() && !stopped
      modifies this
      ensures Valid() && Model() == Refuse(old(Model()))
    {
      RefuseKeeps(Model());
      hide LinkOk, OneOk, ReportsOk;
      StopLink();
      reports := reports + [Refused];
    }

    method BeginUpdate(canUpdate: bool)
      requires Valid() && !stopped
      modifies this
      ensures Model() == StartUpdate(old(Model()), canUpdate)
    {
      if !canUpdate {
        RefuseLink();
        return;
      }
      updating := true;
      timer := None;
      updates := updates + 1;
    }

    /** The timer's callback. */
    method Connect()
      requires Valid() && timer.Some? && !Busy(Model())
      modifies this
      ensures Valid() && Model() == Step(old(Model()), TimerFires)
    {
      StepKeeps(Model(), TimerFires);
      timer := None;
      if stopped {
        return;
      }
      dials := dials + 1;
    }

    method OnOpened()
      requires Valid() && dials > 0
      modifies this
      ensures Valid() && Model() == Step(old(Model()), DialOpens)
    {
      StepKeeps(Model(), DialOpens);
      dials := dials - 1;
      if stopped {
        return;
      }
      current := Some(|conns|);
      conns := conns + [NEW_CONN];
    }

    method OnDialFailed(why: Message)
      requires Valid() && dials > 0
      modifies this
      ensures Valid() && Model() == Step(old(Model()), DialFails(why))
    {
      StepKeeps(Model(), DialFails(why));
      dials := dials - 1;
      ReportFailure(Unreachable(why));
      ScheduleDial();
    }

    method OnSocketClose(c: nat)
      requires Valid() && Enabled(Model(), CloseHeard(c))
      modifies this
      ensures Valid() && Model() == OnClose(old(Model()), c)
    {
      CloseHeardKeeps(Model(), c);
      hide LinkOk;
      var negotiated := conns[c].negotiated;
      conns := conns[c := Closing(conns[c]).(closeHeard := true)];
      if current == Some(c) {
        current := None;
      }
      if negotiated && !stopped {
        reports := reports + [Connecting(None)];
      }
      ScheduleDial();
    }

    method OnReadySettled(c: nat, canUpdate: bool)
      requires Valid() && Enabled(Model(), ReadyReacts(c, canUpdate))
      modifies this
      ensures Valid() && Model() == OnReady(old(Model()), c, canUpdate)
    {
      ReadyKeeps(Model(), c, canUpdate);
      ReactedKeeps(Model(), c);
      hide LinkOk, Stop, Busy, Closing;
      conns := conns[c := conns[c].(reacted := true)];
      match conns[c].hello.verdict {
        case Serves =>
          OnServed(c);
        case Fails(message) =>
          ReportFailure(NegotiationFailed(message));
        case _ =>
          OnNotServed(conns[c].hello.verdict, canUpdate);
      }
    }

    method OnServed(c: nat)
      requires c < |conns|
      modifies this
      ensures Model() ==
              var reset := old(Model()).(attempt := 0, updateFailures := 0, lastFailure := None);
              if !old(conns)[c].open then reset else Report1(WithConn(reset, c, old(conns)[c].(negotiated := true)),
                Connected)
    {
      attempt, updateFailures, lastFailure := 0, 0, None;
      if conns[c].open {
        conns := conns[c := conns[c].(negotiated := true)];
        reports := reports + [Connected];
      }
    }

    method OnNotServed(verdict: Verdict, canUpdate: bool)
      requires Valid() && (verdict.Updates? || verdict.Refuses?)
      modifies this
      ensures Model() ==
              if old(stopped) then old(Model())
              else if verdict.Updates? then StartUpdate(old(Model()), canUpdate) else Refuse(old(Model()))
    {
      hide LinkOk, Stop;
      if stopped {
        return;
      }
      if verdict.Updates? {
        BeginUpdate(canUpdate);
      } else {
        RefuseLink();
      }
    }

    method OnUpdateSettled(installed: bool, why: Message)
      requires Valid() && updates > 0
      modifies this
      ensures Valid() && Model() == OnUpdateEnd(old(Model()).(updates := old(updates) - 1), installed, why)
    {
      UpdateEndKeeps(Model(), installed, why);
      assert ConnsOk(Model());
      hide LinkOk, ConnsOk, OneOk, ReportsOk;
      if installed {
        StopLink();
        updates := updates - 1;
        return;
      }
      updates := updates - 1;
      OnUpdateFailed(why);
    }

    method OnUpdateFailed(why: Message)
      modifies this
      ensures Model() == OnUpdateEnd(old(Model()), false, why)
    {
      updating := false;
      if stopped {
        return;
      }
      var failures := updateFailures;
      updateFailures := updateFailures + 1;
      ReportFailure(UpdateFailed(why));
      if timer.None? {
        timer := Some(RetryUpdate(failures));
      }
    }
  }
}
