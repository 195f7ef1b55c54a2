/** An extension's service (`ServiceRunner`): its instances, one at a time, restarted with a backoff after a crash
    until the host stops it. */
module ServiceRunners {
  import opened Bytes

  const FIRST_BACKOFF_MS := 1000
  const MAX_BACKOFF_MS := 300000
  const HEALTHY_MS := 60000

  datatype State = Starting | Running | Restarting | Stopped | Failed

  /** How a promise of the service's code stands. */
  datatype Settling = Pending | Fulfilled | Thrown

  /** The end of an instance: it waits for the start, then for the instance's own `stop`. */
  datatype Ending = NotEnding | AwaitsStart | AwaitsStop | Ended

  /** An instance, from the call of `service.start`. `ended` and `running` are the host's marks; `inTime` is whether its
      end came before the timeout, once known; `endHeard` that a crash's reaction to it ran. `early`: it reported its
      failure before `service.start` had returned. */
  datatype Instance = Instance(
    start: Settling, startHeard: bool, ended: bool, running: bool, crashed: bool, early: bool,
    ending: Ending, stopped: bool, inTime: Option<bool>, endHeard: bool)

  /** `stop()`: not called, waiting for a crashed instance to end, waiting for the live one, done. */
  datatype Stopping = NotCalled | AwaitsCrashed(live: bool) | AwaitsLive | Done

  /** `ending` is the crashed instance whose end was begun last, and `retry` the armed timer's delay. */
  datatype Runner = Runner(
    state: State, restarts: nat, crashes: nat, instances: seq<Instance>, ending: Option<nat>, retry: Option<nat>,
      stopping: Stopping)

  const NEW_INSTANCE := Instance(Pending, false, false, false, false, false, NotEnding, false, None, false)
  const NEW_RUNNER := Runner(Stopped, 0, 0, [], None, None, NotCalled)

  function Power(n: nat): nat {
    if n == 0 then 1 else 2 * Power(n - 1)
  }

  function Backoff(crashes: nat): nat {
    if FIRST_BACKOFF_MS * Power(crashes) < MAX_BACKOFF_MS then FIRST_BACKOFF_MS * Power(crashes) else MAX_BACKOFF_MS
  }

  function With(r: Runner, i: nat, x: Instance): Runner
    requires i < |r.instances|
  {
    r.(instances := r.instances[i := x])
  }

  /** Ends an instance whose start's promise is known; a failure reported before `service.start` returned finds the
      placeholder in its place, so nothing is waited for and nothing stopped. */
  function Crash(r: Runner, i: nat, ranMs: nat, early: bool): Runner
    requires i < |r.instances|
  {
    var x := r.instances[i];
    if x.ended || !r.stopping.NotCalled? then r
    else
      With(r, i, x.(ended := true, crashed := true, early := early, ending := if early then Ended else AwaitsStart)).(
        crashes := if x.running && ranMs >= HEALTHY_MS then 0 else r.crashes, ending := Some(i))
  }

  function Attempt(r: Runner, early: bool): Runner {
    var begun := r.(instances := r.instances + [NEW_INSTANCE], state := Starting, retry := None);
    if early then Crash(begun, |r.instances|, 0, true) else begun
  }

  function Start(r: Runner, early: bool): Runner {
    if !r.stopping.NotCalled? || r.instances != [] then r else Attempt(r, early)
  }

  function RetryFires(r: Runner, early: bool): Runner {
    Attempt(r.(restarts := r.restarts + 1), early)
  }

  function StartHeard(r: Runner, i: nat): Runner
    requires i < |r.instances|
  {
    var x := r.instances[i].(startHeard := true);
    if x.start.Thrown? then Crash(With(r, i, x), i, 0, false)
    else if x.ended then With(r, i, x)
    else With(r, i, x.(running := true)).(state := Running)
  }

  /** What a crash does once its instance's end is known. */
  function CrashEnded(r: Runner, i: nat): Runner
    requires i < |r.instances| && r.instances[i].inTime.Some?
  {
    var heard := With(r, i, r.instances[i].(endHeard := true));
    if !r.stopping.NotCalled? then heard
    else if !r.instances[i].inTime.value then heard.(state := Failed)
    else heard.(state := Restarting, crashes := r.crashes + 1, retry := Some(Backoff(r.crashes)))
  }

  predicate IsLive(r: Runner) {
    r.instances != [] && !r.instances[|r.instances| - 1].ended
  }

  function Stop(r: Runner): Runner {
    if !r.stopping.NotCalled? then r
    else
      var marked := if IsLive(r) then With(r, |r.instances| - 1, r.instances[|r.instances| - 1].(ended := true)) else r;
      marked.(retry := None, state := if r.state.Failed? then Failed else Stopped, stopping := AwaitsCrashed(IsLive(r)))
  }

  /** Whether the end begun last is known, and whether it was in time; true before any. */
  function EndKnown(r: Runner): Option<bool> {
    if r.ending.None? then Some(true)
    else if r.ending.value < |r.instances| then r.instances[r.ending.value].inTime
    else None
  }

  function StopGoesOn(r: Runner): Runner {
    match r.stopping
    case AwaitsCrashed(live) =>
      if EndKnown(r).None? then r
      else if !EndKnown(r).value then r.(state := Failed, stopping := Done)
      else if !live || r.instances == [] then r.(stopping := Done)
      else With(r, |r.instances| - 1, r.instances[|r.instances| - 1].(ending := AwaitsStart)).(stopping := AwaitsLive)
    case AwaitsLive =>
      if r.instances == [] || r.instances[|r.instances| - 1].inTime.None? then r
      else r.(stopping := Done, state := if r.instances[|r.instances| - 1].inTime.value then r.state else Failed)
    case _ => r
  }

  /** `StartSettles` and `StopSettles` are the service's own promises; `EndTimesOut` the bound on an instance's end. */
  datatype Event =
    | HostStarts(early: bool)
    | RetryDue(early: bool)
    | StartSettles(i: nat, thrown: bool)
    | StartIsHeard(i: nat)
    | ReportsFailure(i: nat, ranMs: nat)
    | EndSeesStart(i: nat)
    | StopSettles(i: nat)
    | EndsInTime(i: nat)
    | EndTimesOut(i: nat)
    | CrashIsEnded(i: nat)
    | HostStops
    | StopContinues

  predicate Enabled(r: Runner, e: Event) {
    match e
    case RetryDue(_) => r.retry.Some?
    case StartSettles(i, _) => i < |r.instances| && r.instances[i].start.Pending?
    case StartIsHeard(i) => i < |r.instances| && !r.instances[i].start.Pending? && !r.instances[i].startHeard
    case ReportsFailure(i, _) => i < |r.instances|
    case EndSeesStart(i) => i < |r.instances| && r.instances[i].ending.AwaitsStart? && !r.instances[i].start.Pending?
    case StopSettles(i) => i < |r.instances| && r.instances[i].ending.AwaitsStop?
    case EndsInTime(i) => i < |r.instances| && r.instances[i].ending.Ended? && r.instances[i].inTime.None?
    case EndTimesOut(i) =>
      i < |r.instances| && (r.instances[i].ending.AwaitsStart? || r.instances[i].ending.AwaitsStop?)
        && r.instances[i].inTime.None?
    case CrashIsEnded(i) => i < |r.instances| && r.instances[i].crashed && r.instances[i].inTime.Some?
      && !r.instances[i].endHeard
    case _ => true
  }

  function Step(r: Runner, e: Event): Runner {
    if !Enabled(r, e) then r
    else
      match e
      case HostStarts(early) => Start(r, early)
      case RetryDue(early) => RetryFires(r, early)
      case StartSettles(i, thrown) => With(r, i, r.instances[i].(start := if thrown then Thrown else Fulfilled))
      case StartIsHeard(i) => StartHeard(r, i)
      case ReportsFailure(i, ranMs) => Crash(r, i, ranMs, false)
      case EndSeesStart(i) => With(r, i, r.instances[i].(ending := if r.instances[i].start.Thrown? then Ended
        else AwaitsStop))
      case StopSettles(i) => With(r, i, r.instances[i].(ending := Ended, stopped := true))
      case EndsInTime(i) => With(r, i, r.instances[i].(inTime := Some(true)))
      case EndTimesOut(i) => With(r, i, r.instances[i].(inTime := Some(false)))
      case CrashIsEnded(i) => CrashEnded(r, i)
      case HostStops => Stop(r)
      case StopContinues => StopGoesOn(r)
  }

  function Run(events: seq<Event>): Runner {
    if events == [] then NEW_RUNNER else Step(Run(events[..|events| - 1]), events[|events| - 1])
  }

  // ---- What every step keeps ----

  /** The instance may still do something: its start did not fail and it has not stopped. */
  predicate IsOver(x: Instance) {
    x.start.Thrown? || x.stopped
  }

  predicate InstanceOk(x: Instance) {
    && (x.ending.Ended? ==> IsOver(x) || x.early)
    && (!x.ending.NotEnding? ==> x.ended)
    && (x.stopped ==> x.ending.Ended?)
    && (x.crashed ==> !x.ending.NotEnding?)
    && (x.early ==> x.crashed && x.ending.Ended? && !x.stopped)
    && (x.inTime.Some? ==> !x.ending.NotEnding? && (x.inTime.value ==> x.ending.Ended?))
    && (x.endHeard ==> x.crashed && x.inTime.Some?)
    && (x.startHeard ==> !x.start.Pending?)
  }

  ghost predicate InstancesOk(r: Runner) {
    && (forall i :: 0 <= i < |r.instances| ==> InstanceOk(r.instances[i]))
    && (forall i :: 0 <= i < |r.instances| - 1 ==> r.instances[i].inTime == Some(true) && r.instances[i].endHeard)
    && (r.ending.Some? ==> r.ending.value < |r.instances| && r.instances[r.ending.value].crashed)
    && (r.instances != [] && r.instances[|r.instances| - 1].crashed ==> r.ending == Some(|r.instances| - 1))
  }

  /** What holds between the last instance, the state and the timer until `stop()` is called. */
  ghost predicate LastOk(r: Runner) {
    && (r.state.Restarting? <==> r.retry.Some?)
    && (r.retry.Some? ==> r.stopping.NotCalled? && r.instances != [])
    && (r.instances != [] && r.stopping.NotCalled? ==>
          var x := r.instances[|r.instances| - 1];
          && (x.ended ==> x.crashed)
          && (r.retry.Some? ==> x.endHeard && x.inTime == Some(true))
          && (x.endHeard ==> if x.inTime == Some(true) then r.state.Restarting? else r.state.Failed?)
          && (r.state.Failed? ==> x.endHeard && x.inTime == Some(false)))
    && (r.instances == [] && r.stopping.NotCalled? ==> r.state.Stopped?)
  }

  ghost predicate StoppingOk(r: Runner) {
    var last := |r.instances| - 1;
    && (!r.stopping.NotCalled? ==> r.state.Stopped? || r.state.Failed?)
    && (!r.stopping.NotCalled? ==> forall i :: 0 <= i < |r.instances| ==> r.instances[i].ended)
    && (r.stopping.AwaitsCrashed? ==> if r.stopping.live then
          last >= 0 && !r.instances[last].crashed && r.instances[last].ending.NotEnding?
                                      else last < 0 || r.instances[last].crashed)
    && (r.stopping.AwaitsLive? ==> last >= 0 && !r.instances[last].crashed && !r.instances[last].ending.NotEnding?)
    && (r.stopping.Done? && r.state.Stopped? ==> last < 0 || r.instances[last].inTime == Some(true))
  }

  ghost predicate RunnerOk(r: Runner) {
    InstancesOk(r) && LastOk(r) && StoppingOk(r)
  }

  lemma OnlyLastGoesOn(r: Runner, i: nat)
    requires InstancesOk(r) && i < |r.instances| && !(r.instances[i].inTime == Some(true) && r.instances[i].endHeard)
    ensures i == |r.instances| - 1
  {
  }

  /** An instance whose service, start or end goes a step further, with no mark of the host's changed. */
  lemma InstanceStepKeeps(r: Runner, i: nat, x: Instance)
    requires RunnerOk(r) && i < |r.instances| && InstanceOk(x)
    requires var was := r.instances[i];
             && x.ended == was.ended && x.crashed == was.crashed && x.endHeard == was.endHeard
             && (x.ending.NotEnding? <==> was.ending.NotEnding?) && (was.inTime.Some? ==> x.inTime == was.inTime)
    ensures RunnerOk(With(r, i, x))
  {
    var r' := With(r, i, x);
    assert InstancesOk(r');
    assert LastOk(r');
    assert StoppingOk(r');
  }

  lemma CrashKeeps(r: Runner, i: nat, ranMs: nat, early: bool)
    requires RunnerOk(r) && i < |r.instances|
    ensures RunnerOk(Crash(r, i, ranMs, early))
  {
    if !r.instances[i].ended && r.stopping.NotCalled? {
      OnlyLastGoesOn(r, i);
      var r' := Crash(r, i, ranMs, early);
      assert InstancesOk(r');
      assert LastOk(r');
      assert StoppingOk(r');
    }
  }

  lemma AttemptKeeps(r: Runner, early: bool)
    requires RunnerOk(r) && r.stopping.NotCalled? && (r.instances == [] || r.retry.Some?)
    ensures RunnerOk(Attempt(r, early))
  {
    var begun := r.(instances := r.instances + [NEW_INSTANCE], state := Starting, retry := None);
    assert InstancesOk(begun);
    assert LastOk(begun);
    assert StoppingOk(begun);
    CrashKeeps(begun, |r.instances|, 0, true);
  }

  lemma StartHeardKeeps(r: Runner, i: nat)
    requires RunnerOk(r) && Enabled(r, StartIsHeard(i))
    ensures RunnerOk(StartHeard(r, i))
  {
    var x := r.instances[i].(startHeard := true);
    InstanceStepKeeps(r, i, x);
    if x.start.Thrown? {
      CrashKeeps(With(r, i, x), i, 0, false);
    } else if !x.ended {
      InstanceStepKeeps(r, i, x.(running := true));
      OnlyLastGoesOn(r, i);
      var r' := StartHeard(r, i);
      assert InstancesOk(r');
      assert LastOk(r');
    }
  }

  lemma CrashEndedKeeps(r: Runner, i: nat)
    requires RunnerOk(r) && Enabled(r, CrashIsEnded(i))
    ensures RunnerOk(CrashEnded(r, i))
  {
    OnlyLastGoesOn(r, i);
    var r' := CrashEnded(r, i);
    assert InstancesOk(r');
    assert LastOk(r');
    assert StoppingOk(r');
  }

  lemma StopKeeps(r: Runner)
    requires RunnerOk(r)
    ensures RunnerOk(Stop(r))
  {
    var r' := Stop(r);
    assert InstancesOk(r');
    assert LastOk(r');
    assert StoppingOk(r');
  }

  lemma StopGoesOnKeeps(r: Runner)
    requires RunnerOk(r)
    ensures RunnerOk(StopGoesOn(r))
  {
    var r' := StopGoesOn(r);
    assert InstancesOk(r');
    assert LastOk(r');
    assert StoppingOk(r');
  }

  /** An event of one instance alone. */
  lemma InstanceEventKeeps(r: Runner, e: Event)
    requires RunnerOk(r) && Enabled(r, e)
    requires e.StartSettles? || e.EndSeesStart? || e.StopSettles? || e.EndsInTime? || e.EndTimesOut?
    ensures RunnerOk(Step(r, e))
  {
    assert InstanceOk(r.instances[e.i]);
    hide RunnerOk;
    var x := r.instances[e.i];
    match e
    case StartSettles(i, thrown) => InstanceStepKeeps(r, i, x.(start := if thrown then Thrown else Fulfilled));
    case EndSeesStart(i) => InstanceStepKeeps(r, i, x.(ending := if x.start.Thrown? then Ended else AwaitsStop));
    case StopSettles(i) => InstanceStepKeeps(r, i, x.(ending := Ended, stopped := true));
    case EndsInTime(i) => InstanceStepKeeps(r, i, x.(inTime := Some(true)));
    case EndTimesOut(i) => InstanceStepKeeps(r, i, x.(inTime := Some(false)));
  }

  lemma StepKeeps(r: Runner, e: Event)
    requires RunnerOk(r)
    ensures RunnerOk(Step(r, e))
  {
    if Enabled(r, e) {
      if e.StartSettles? || e.EndSeesStart? || e.StopSettles? || e.EndsInTime? || e.EndTimesOut? {
        InstanceEventKeeps(r, e);
        return;
      }
      assert r.retry.Some? ==> r.stopping.NotCalled?;
      hide RunnerOk, Attempt, Crash, StartHeard, CrashEnded, Stop, StopGoesOn;
      match e
      case HostStarts(early) => if r.stopping.NotCalled? && r.instances == [] { AttemptKeeps(r, early); }
      case RetryDue(early) =>
        RestartsKeep(r);
        AttemptKeeps(r.(restarts := r.restarts + 1), early);
      case StartIsHeard(i) => StartHeardKeeps(r, i);
      case ReportsFailure(i, ranMs) => CrashKeeps(r, i, ranMs, false);
      case CrashIsEnded(i) => CrashEndedKeeps(r, i);
      case HostStops => StopKeeps(r);
      case StopContinues => StopGoesOnKeeps(r);
    }
  }

  lemma RestartsKeep(r: Runner)
    requires RunnerOk(r)
    ensures RunnerOk(r.(restarts := r.restarts + 1))
  {
    var r' := r.(restarts := r.restarts + 1);
    assert InstancesOk(r') && LastOk(r') && StoppingOk(r');
  }

  lemma {:induction false} RunKeeps(events: seq<Event>)
    ensures RunnerOk(Run(events))
  {
    hide Step;
    if events != [] {
      RunKeeps(events[..|events| - 1]);
      StepKeeps(Run(events[..|events| - 1]), events[|events| - 1]);
    }
  }

  // ---- What the runner promises ----

  /** No instance reported a failure before its `service.start` returned. */
  predicate NoneEarly(r: Runner) {
    forall i :: 0 <= i < |r.instances| ==> !r.instances[i].early
  }

  /** An instance with a later one beside it is over exactly when it did not report a failure before its
      `service.start` had returned, or its start failed of itself. So where none reports one that early, there is at
      most one instance at a time. */
  lemma OneAtATime(events: seq<Event>, i: nat)
    requires i < |Run(events).instances| - 1
    ensures var x := Run(events).instances[i]; x.ended && (IsOver(x) <==> !x.early || x.start.Thrown?)
    ensures NoneEarly(Run(events)) ==> IsOver(Run(events).instances[i])
  {
    RunKeeps(events);
  }

  lemma RunMore(events: seq<Event>, e: Event)
    ensures Run(events + [e]) == Step(Run(events), e)
  {
    assert (events + [e])[..|events|] == events;
  }

  const EARLY_FAILURE: seq<Event> := [HostStarts(true)] + [EndsInTime(0)] + [CrashIsEnded(0)] + [RetryDue(false)]

  /** A service whose first instance reports a failure that early is started again while that instance still runs. */
  lemma EarlyFailureLeavesTwo()
    ensures var r := Run(EARLY_FAILURE);
            |r.instances| == 2 && !IsOver(r.instances[0]) && !IsOver(r.instances[1])
  {
    RunMore([], HostStarts(true));
    assert [] + [HostStarts(true)] == [HostStarts(true)];
    var first := [HostStarts(true)];
    RunMore(first, EndsInTime(0));
    RunMore(first + [EndsInTime(0)], CrashIsEnded(0));
    RunMore(first + [EndsInTime(0)] + [CrashIsEnded(0)], RetryDue(false));
  }

  /** `service.start` is called only by the host's first start, or by the retry timer, which is armed just while the
      state is `restarting`; never once stopped, nor after an instance did not end in time. */
  lemma StartsOnlyWhenDue(events: seq<Event>, e: Event)
    requires |Step(Run(events), e).instances| > |Run(events).instances|
    ensures var r := Run(events);
            && r.stopping.NotCalled? && !r.state.Failed?
            && (if r.instances == [] then e.HostStarts? else e.RetryDue? && r.state.Restarting? && r.retry.Some?)
            && (forall i :: 0 <= i < |r.instances| ==> r.instances[i].inTime == Some(true))
  {
    hide Run;
    RunKeeps(events);
    var r := Run(events);
    StartersAreTwo(r, e);
    RetryFollowsTheEnd(r);
    hide RunnerOk, Step;
  }

  /** What adds an instance. */
  lemma StartersAreTwo(r: Runner, e: Event)
    ensures |Step(r, e).instances| > |r.instances| ==>
              (e.RetryDue? && r.retry.Some?) || (e.HostStarts? && r.instances == [] && r.stopping.NotCalled?)
  {
  }

  lemma RetryFollowsTheEnd(r: Runner)
    requires RunnerOk(r)
    ensures r.retry.Some? ==>
              && r.state.Restarting? && r.stopping.NotCalled? && r.instances != []
              && forall i :: 0 <= i < |r.instances| ==> r.instances[i].inTime == Some(true)
    ensures r.instances == [] && r.stopping.NotCalled? ==> r.state.Stopped?
  {
    hide StoppingOk;
  }

  lemma RetryOnlyInRestarting(events: seq<Event>)
    ensures Run(events).retry.Some? <==> Run(events).state.Restarting?
  {
    RunKeeps(events);
  }

  /** Once `stop()` was called it stays so, and the runner ends `stopped` or `failed`; it has ended `stopped` only
      when every instance is over, but for those that failed early. */
  lemma StopIsFinal(events: seq<Event>, e: Event)
    requires !Run(events).stopping.NotCalled?
    ensures var r, r' := Run(events), Step(Run(events), e);
            && !r'.stopping.NotCalled? && |r'.instances| == |r.instances| && r'.retry.None?
            && (r'.state.Stopped? || r'.state.Failed?)
            && (r'.stopping.Done? && r'.state.Stopped? ==>
                  forall i :: 0 <= i < |r'.instances| ==> IsOver(r'.instances[i]) || r'.instances[i].early)
  {
    RunKeeps(events);
    StepKeeps(Run(events), e);
    StaysStopped(Run(events), e);
    if Step(Run(events), e).stopping.Done? && Step(Run(events), e).state.Stopped? {
      StoppedAreOver(Step(Run(events), e));
    }
  }

  lemma StaysStopped(r: Runner, e: Event)
    requires !r.stopping.NotCalled? && r.retry.None?
    ensures var r' := Step(r, e); !r'.stopping.NotCalled? && |r'.instances| == |r.instances| && r'.retry.None?
  {
  }

  lemma StoppedAreOver(r: Runner)
    requires RunnerOk(r) && r.stopping.Done? && r.state.Stopped?
    ensures forall i :: 0 <= i < |r.instances| ==> IsOver(r.instances[i]) || r.instances[i].early
  {
  }

  /** Delays double from a second to five minutes. */
  lemma {:induction false} BackoffDoubles(crashes: nat)
    ensures FIRST_BACKOFF_MS <= Backoff(crashes) <= MAX_BACKOFF_MS
    ensures Backoff(crashes + 1) == if 2 * Backoff(crashes) < MAX_BACKOFF_MS then 2 * Backoff(crashes)
        else MAX_BACKOFF_MS
  {
    if crashes > 0 {
      BackoffDoubles(crashes - 1);
    }
    assert Power(crashes + 1) == 2 * Power(crashes);
  }

  /** An instance that ran for a healthy minute reports its failure. */
  predicate StartsOver(r: Runner, e: Event) {
    && e.ReportsFailure? && e.i < |r.instances| && r.stopping.NotCalled?
    && !r.instances[e.i].ended && r.instances[e.i].running && e.ranMs >= HEALTHY_MS
  }

  /** A crashed instance's end is heard, in time, and the retry armed. */
  predicate ArmsRetry(r: Runner, e: Event) {
    e.CrashIsEnded? && Enabled(r, e) && r.stopping.NotCalled? && r.instances[e.i].inTime.value
  }

  /** The retries armed since a crash after a healthy minute. */
  function Retries(events: seq<Event>): nat {
    if events == [] then 0
    else
      var init, last := events[..|events| - 1], events[|events| - 1];
      if StartsOver(Run(init), last) then 0 else Retries(init) + if ArmsRetry(Run(init), last) then 1 else 0
  }

  lemma StepCounts(r: Runner, e: Event)
    ensures Step(r, e).crashes == if StartsOver(r, e) then 0 else r.crashes + if ArmsRetry(r, e) then 1 else 0
    ensures Step(r, e).retry.Some? && Step(r, e).retry != r.retry ==> ArmsRetry(r, e)
    ensures ArmsRetry(r, e) ==> Step(r, e).retry == Some(Backoff(r.crashes))
  {
    hide Power, Backoff;
  }

  lemma {:induction false} RunCounts(events: seq<Event>)
    ensures Run(events).crashes == Retries(events)
  {
    if events != [] {
      RunCounts(events[..|events| - 1]);
      StepCounts(Run(events[..|events| - 1]), events[|events| - 1]);
      hide Step, StartsOver, ArmsRetry;
    }
  }

  /** In every run a retry waits a second when it is the first after a healthy minute, or at all, and else twice as long
      as the one before, up to five minutes. */
  lemma RetriesDouble(events: seq<Event>, e: Event)
    requires Step(Run(events), e).retry.Some? && Step(Run(events), e).retry != Run(events).retry
    ensures ArmsRetry(Run(events), e)
    ensures var delay, n := Step(Run(events), e).retry.value, Retries(events);
            && delay == Backoff(n)
            && (n == 0 ==> delay == FIRST_BACKOFF_MS)
            && (n > 0 ==> delay == if 2 * Backoff(n - 1) < MAX_BACKOFF_MS then 2 * Backoff(n - 1) else MAX_BACKOFF_MS)
  {
    RunCounts(events);
    StepCounts(Run(events), e);
    hide Step, Run, Retries, Backoff;
    FirstBackoff();
    if Retries(events) > 0 {
      BackoffDoubles(Retries(events) - 1);
    }
  }

  lemma FirstBackoff()
    ensures Backoff(0) == FIRST_BACKOFF_MS
  {
  }

  // ---- What its events come to ----

  /** What the host shows, by its last instance, until it stops the service. */
  function StateBy(instances: seq<Instance>): State {
    if instances == [] then Stopped
    else
      var last := instances[|instances| - 1];
      if last.endHeard then (if last.inTime == Some(true) then Restarting else Failed)
      else if last.running then Running else Starting
  }

  predicate TimedOut(instances: seq<Instance>) {
    instances != [] && instances[|instances| - 1].inTime == Some(false)
  }

  /** Each restart adds an instance; the state is that of the last one until `stop()` is called; and `stop()` resolves
      only once the last one's end is known, as `failed` exactly if that took too long. */
  ghost predicate Shown(r: Runner) {
    && |r.instances| == (if r.instances == [] then r.restarts else r.restarts + 1)
    && (r.stopping.NotCalled? ==> r.state == StateBy(r.instances))
    && (r.state.Failed? ==> TimedOut(r.instances))
    && (r.stopping.Done? ==> r.instances == [] || r.instances[|r.instances| - 1].inTime.Some?)
    && (r.stopping.Done? ==> r.state == if TimedOut(r.instances) then Failed else Stopped)
  }

  lemma StopShows(r: Runner)
    requires RunnerOk(r) && Shown(r)
    ensures Shown(Stop(r)) && Shown(StopGoesOn(r))
  {
  }

  lemma InstanceEventShows(r: Runner, e: Event)
    requires RunnerOk(r) && Shown(r)
    requires e.StartSettles? || e.EndSeesStart? || e.StopSettles? || e.EndsInTime? || e.EndTimesOut?
    ensures Shown(Step(r, e))
  {
    hide Crash, Attempt, StartHeard, CrashEnded, Stop, StopGoesOn;
  }

  lemma HostEventShows(r: Runner, e: Event)
    requires RunnerOk(r) && Shown(r)
    requires e.StartIsHeard? || e.ReportsFailure? || e.CrashIsEnded?
    ensures Shown(Step(r, e))
  {
    hide Backoff, Stop, StopGoesOn, Attempt, StoppingOk;
  }

  lemma StartShown(r: Runner, e: Event)
    requires RunnerOk(r) && Shown(r) && (e.HostStarts? || e.RetryDue?)
    ensures Shown(Step(r, e))
  {
    hide Backoff, Stop, StopGoesOn, StartHeard, CrashEnded;
  }

  lemma StepShows(r: Runner, e: Event)
    requires RunnerOk(r) && Shown(r)
    ensures Shown(Step(r, e))
  {
    if e.HostStops? || e.StopContinues? {
      StopShows(r);
    } else if e.StartSettles? || e.EndSeesStart? || e.StopSettles? || e.EndsInTime? || e.EndTimesOut? {
      InstanceEventShows(r, e);
    } else if e.HostStarts? || e.RetryDue? {
      StartShown(r, e);
    } else {
      HostEventShows(r, e);
    }
    hide Backoff, Stop, StopGoesOn, Attempt, Crash, StartHeard, CrashEnded, Shown, RunnerOk, Enabled;
  }

  lemma {:induction false} RunShows(events: seq<Event>)
    ensures Shown(Run(events))
  {
    if events != [] {
      RunShows(events[..|events| - 1]);
      RunKeeps(events[..|events| - 1]);
      StepShows(Run(events[..|events| - 1]), events[|events| - 1]);
      hide Step, Shown, RunnerOk;
    }
  }

  /** In every run, until it is stopped, a service shows how its last instance stands: `running` once its start was
      heard to succeed, and once a crash ended it `restarting`, or `failed` where that took too long. It has restarted
      as often as it has instances after the first. And `stop()` resolves as `failed` exactly when the last one's end
      took too long. */
  lemma ShowsItsInstance(events: seq<Event>)
    ensures var r := Run(events);
            && (r.stopping.NotCalled? ==> r.state == StateBy(r.instances))
            && r.restarts == (if r.instances == [] then 0 else |r.instances| - 1)
            && (r.stopping.Done? ==> r.state == if TimedOut(r.instances) then Failed else Stopped)
  {
    RunShows(events);
  }

  lemma StaysFailed(r: Runner, e: Event)
    requires RunnerOk(r) && r.state.Failed?
    ensures Step(r, e).state.Failed?
  {
    hide Backoff;
  }

  /** A service that has failed is shown so for good, stopped or not. */
  lemma FailedForGood(events: seq<Event>, e: Event)
    requires Run(events).state.Failed?
    ensures Step(Run(events), e).state.Failed?
  {
    RunKeeps(events);
    StaysFailed(Run(events), e);
  }

  predicate TellsEarly(e: Event) {
    (e.HostStarts? || e.RetryDue?) && e.early
  }

  lemma StepIsNotEarly(r: Runner, e: Event)
    requires NoneEarly(r) && !TellsEarly(e)
    ensures NoneEarly(Step(r, e))
  {
    hide Backoff;
  }

  /** Only an instance that the run says so of reported a failure before its start returned. */
  lemma {:induction false} EarlyOnlyIfTold(events: seq<Event>)
    requires forall e :: e in events ==> !TellsEarly(e)
    ensures NoneEarly(Run(events))
  {
    hide Step, TellsEarly;
    if events != [] {
      EarlyOnlyIfTold(events[..|events| - 1]);
      StepIsNotEarly(Run(events[..|events| - 1]), events[|events| - 1]);
    }
  }

  lemma InstanceSteps(r: Runner, e: Event)
    requires Enabled(r, e) && (e.EndSeesStart? || e.StopSettles? || e.EndsInTime? || e.EndTimesOut?)
    ensures var x := r.instances[e.i];
            Step(r, e) == With(r, e.i, match e
              case EndSeesStart(_) => x.(ending := if x.start.Thrown? then Ended else AwaitsStop)
              case StopSettles(_) => x.(ending := Ended, stopped := true)
              case EndsInTime(_) => x.(inTime := Some(true))
              case _ => x.(inTime := Some(false)))
  {
    hide Crash, Attempt, StartHeard, CrashEnded, Stop, StopGoesOn;
  }

  /** The instance's own `stop` is called once its start is known to have succeeded, and settles in time. */
  function StoppedInTime(r: Runner, i: nat): Runner {
    Step(Step(Step(r, EndSeesStart(i)), StopSettles(i)), EndsInTime(i))
  }

  /** It does not settle in time. */
  function StoppedTooLate(r: Runner, i: nat): Runner {
    Step(Step(r, EndSeesStart(i)), EndTimesOut(i))
  }

  /** The start is known to have failed, so there is nothing to stop. */
  function EndedAtOnce(r: Runner, i: nat): Runner {
    Step(Step(r, EndSeesStart(i)), EndsInTime(i))
  }

  predicate Ends(r: Runner, i: nat, start: Settling) {
    && i < |r.instances| && r.instances[i].ending.AwaitsStart? && r.instances[i].inTime.None?
    && r.instances[i].start == start
  }

  lemma InTime(r: Runner, i: nat)
    requires Ends(r, i, Fulfilled)
    ensures StoppedInTime(r, i)
      == With(r, i, r.instances[i].(ending := Ended, stopped := true, inTime := Some(true)))
  {
    hide Step;
    InstanceSteps(r, EndSeesStart(i));
    var seen := Step(r, EndSeesStart(i));
    InstanceSteps(seen, StopSettles(i));
    InstanceSteps(Step(seen, StopSettles(i)), EndsInTime(i));
  }

  lemma TooLate(r: Runner, i: nat)
    requires Ends(r, i, Fulfilled)
    ensures StoppedTooLate(r, i) == With(r, i, r.instances[i].(ending := AwaitsStop, inTime := Some(false)))
  {
    hide Step;
    InstanceSteps(r, EndSeesStart(i));
    InstanceSteps(Step(r, EndSeesStart(i)), EndTimesOut(i));
  }

  lemma AtOnce(r: Runner, i: nat)
    requires Ends(r, i, Thrown)
    ensures EndedAtOnce(r, i) == With(r, i, r.instances[i].(ending := Ended, inTime := Some(true)))
  {
    hide Step;
    InstanceSteps(r, EndSeesStart(i));
    InstanceSteps(Step(r, EndSeesStart(i)), EndsInTime(i));
  }

  lemma LiveIsLast(r: Runner, i: nat)
    requires RunnerOk(r) && i < |r.instances| && !r.instances[i].ended
    ensures i == |r.instances| - 1 && r.instances[i].ending.NotEnding? && r.instances[i].inTime.None?
    ensures !r.instances[i].early && !r.instances[i].crashed && !r.instances[i].endHeard
    ensures r.instances[i].start.Pending? ==> !r.instances[i].startHeard
    ensures r.stopping.NotCalled? ==> r.retry.None?
    ensures EndKnown(r) == Some(true)
  {
    assert InstanceOk(r.instances[i]);
    OnlyLastGoesOn(r, i);
  }

  /** A service whose start succeeds is running, and one whose start fails is retried, with nothing to stop. */
  lemma StartShows(events: seq<Event>, i: nat)
    requires i < |Run(events).instances| && Run(events).instances[i].start.Pending?
    requires !Run(events).instances[i].ended && Run(events).stopping.NotCalled?
    ensures var r := Step(Step(Run(events), StartSettles(i, false)), StartIsHeard(i));
            i < |r.instances| && r.instances[i].running && !r.instances[i].ended && r.state.Running?
    ensures var thrown := Step(Step(Run(events), StartSettles(i, true)), StartIsHeard(i));
            var r := Step(EndedAtOnce(thrown, i), CrashIsEnded(i));
            && r.state.Restarting? && r.retry == Some(Backoff(Run(events).crashes))
            && i < |r.instances| && !r.instances[i].stopped && !r.instances[i].early
  {
    RunKeeps(events);
    var r := Run(events);
    LiveIsLast(r, i);
    assert InstanceOk(r.instances[i]);
    hide Run, RunnerOk, Backoff, Attempt, Stop, StopGoesOn, InstanceOk, EndedAtOnce;
    var thrown := Step(Step(r, StartSettles(i, true)), StartIsHeard(i));
    AtOnce(thrown, i);
  }

  lemma FailureBegins(r: Runner, i: nat, ranMs: nat)
    requires i < |r.instances| && !r.instances[i].ended && r.stopping.NotCalled?
    ensures var x, r' := r.instances[i], Step(r, ReportsFailure(i, ranMs));
            && |r'.instances| == |r.instances| && r'.stopping == r.stopping && r'.retry == r.retry
            && r'.instances[i] == x.(ended := true, crashed := true, early := false, ending := AwaitsStart)
  {
    hide Attempt, StartHeard, CrashEnded, Stop, StopGoesOn;
  }

  lemma EndDecides(r: Runner, i: nat)
    requires r.stopping.NotCalled? && Enabled(r, CrashIsEnded(i))
    ensures var x, r' := r.instances[i], Step(r, CrashIsEnded(i));
            && |r'.instances| == |r.instances| && r'.instances[i] == x.(endHeard := true)
            && r'.state == (if x.inTime.value then Restarting else Failed)
            && (if x.inTime.value then r'.retry.Some? else r'.retry == r.retry)
  {
    hide Attempt, StartHeard, Crash, Stop, StopGoesOn, Backoff;
  }

  /** A started instance that reports its failure is stopped and then retried; when that takes too long, the service has
      failed. */
  lemma FailureIsRetried(events: seq<Event>, i: nat, ranMs: nat)
    requires i < |Run(events).instances| && Run(events).instances[i].start.Fulfilled?
    requires !Run(events).instances[i].ended && Run(events).stopping.NotCalled?
    ensures var crashed := Step(Run(events), ReportsFailure(i, ranMs));
            var r := Step(StoppedInTime(crashed, i), CrashIsEnded(i));
            var late := Step(StoppedTooLate(crashed, i), CrashIsEnded(i));
            && r.state.Restarting? && r.retry.Some?
            && i < |r.instances| && r.instances[i].stopped && !r.instances[i].early
            && late.state.Failed? && late.retry.None?
  {
    RunKeeps(events);
    var r := Run(events);
    LiveIsLast(r, i);
    FailureBegins(r, i, ranMs);
    hide Run, RunnerOk, Step, StoppedInTime, StoppedTooLate;
    var crashed := Step(r, ReportsFailure(i, ranMs));
    InTime(crashed, i);
    TooLate(crashed, i);
    EndDecides(StoppedInTime(crashed, i), i);
    EndDecides(StoppedTooLate(crashed, i), i);
  }

  /** The retry timer starts another instance. */
  lemma RetryStartsNext(events: seq<Event>)
    requires Run(events).retry.Some?
    ensures var r, r' := Run(events), Step(Run(events), RetryDue(false));
            && r'.instances == r.instances + [NEW_INSTANCE] && r'.state.Starting? && r'.retry.None?
            && r'.restarts == r.restarts + 1
  {
  }

  lemma LastResolves(r: Runner)
    requires r.stopping.AwaitsLive? && r.instances != [] && r.instances[|r.instances| - 1].inTime == Some(true)
    ensures Step(r, StopContinues) == r.(stopping := Done)
  {
  }

  lemma AsksLive(r: Runner, i: nat)
    requires RunnerOk(r) && r.stopping.NotCalled? && i < |r.instances| && !r.instances[i].ended
    ensures Step(Step(r, HostStops), StopContinues)
      == With(r, i, r.instances[i].(ended := true, ending := AwaitsStart)).(state := Stopped, stopping := AwaitsLive)
  {
    LiveIsLast(r, i);
    assert !r.state.Failed? && r.retry.None? by {
      assert LastOk(r);
    }
    hide RunnerOk, Attempt, Crash, StartHeard, CrashEnded;
    assert EndKnown(Step(r, HostStops)) == Some(true);
  }

  /** `stop()` stops the live instance and then resolves. */
  lemma StopEndsLive(events: seq<Event>, i: nat)
    requires Run(events).stopping.NotCalled? && i < |Run(events).instances|
    requires !Run(events).instances[i].ended && Run(events).instances[i].start.Fulfilled?
    ensures var asked := Step(Step(Run(events), HostStops), StopContinues);
            var r := Step(StoppedInTime(asked, i), StopContinues);
            && asked.state.Stopped? && asked.stopping.AwaitsLive?
            && r.stopping.Done? && r.state.Stopped? && i < |r.instances| && r.instances[i].stopped
  {
    RunKeeps(events);
    var r := Run(events);
    LiveIsLast(r, i);
    AsksLive(r, i);
    var asked := Step(Step(r, HostStops), StopContinues);
    hide Run, Step, RunnerOk, StoppedInTime;
    InTime(asked, i);
    LastResolves(StoppedInTime(asked, i));
  }

  /** It waits for a crashed instance to end, and resolves once that is known. */
  lemma StopAwaitsCrashed(events: seq<Event>)
    requires Run(events).stopping.AwaitsCrashed? && !Run(events).stopping.live
    ensures var r, r' := Run(events), Step(Run(events), StopContinues);
            r'.stopping.Done? <==> r.instances == [] || r.instances[|r.instances| - 1].inTime.Some?
  {
    RunKeeps(events);
    var r := Run(events);
    assert r.instances == [] || r.ending == Some(|r.instances| - 1) by {
      assert StoppingOk(r) && InstancesOk(r);
    }
    assert r.instances == [] ==> r.ending.None?;
    hide Run, RunnerOk, Backoff, Attempt, Crash, StartHeard, CrashEnded, Stop;
  }

  // ---- The runner ----

  class ServiceRunner {
    var state: State
    var restarts: nat
    var crashes: nat
    var instances: seq<Instance>
    var ending: Option<nat>
    var retry: Option<nat>
    var stopping: Stopping

    ghost function Model(): Runner
      reads this
    {
      Runner(state, restarts, crashes, instances, ending, retry, stopping)
    }

    ghost predicate Valid()
      reads this
    {
      RunnerOk(Model())
    }

    constructor ()
      ensures Valid() && Model() == NEW_RUNNER
    {
      state, restarts, crashes, instances, ending, retry, stopping := Stopped, 0, 0, [], None, None, NotCalled;
    }

    method StartFirst(early: bool)
      requires Valid()
      modifies this
      ensures Valid() && Model() == Start(old(Model()), early)
    {
      StepKeeps(Model(), HostStarts(early));
      if !stopping.NotCalled? || instances != [] {
        return;
      }
      AttemptStart(early);
    }

    method AttemptStart(early: bool)
      modifies this
      ensures Model() == Attempt(old(Model()), early)
    {
      instances := instances + [NEW_INSTANCE];
      state := Starting;
      retry := None;
      if early {
        CrashInstance(|instances| - 1, 0, true);
      }
    }

    method CrashInstance(i: nat, ranMs: nat, early: bool)
      requires i < |instances|
      modifies this
      ensures Model() == Crash(old(Model()), i, ranMs, early)
    {
      if instances[i].ended || !stopping.NotCalled? {
        return;
      }
      if instances[i].running && ranMs >= HEALTHY_MS {
        crashes := 0;
      }
      instances := instances[i := instances[i].(ended := true, crashed := true, early := early, ending := if early then
        Ended else AwaitsStart)];
      ending := Some(i);
    }

    method OnRetry(early: bool)
      requires Valid() && retry.Some?
      modifies this
      ensures Valid() && Model() == RetryFires(old(Model()), early)
    {
      StepKeeps(Model(), RetryDue(early));
      restarts := restarts + 1;
      AttemptStart(early);
    }

    method OnStartSettled(i: nat)
      requires Valid() && Enabled(Model(), StartIsHeard(i))
      modifies this
      ensures Valid() && Model() == StartHeard(old(Model()), i)
    {
      StartHeardKeeps(Model(), i);
      hide RunnerOk;
      instances := instances[i := instances[i].(startHeard := true)];
      if instances[i].start.Thrown? {
        CrashInstance(i, 0, false);
        return;
      }
      if instances[i].ended {
        return;
      }
      instances := instances[i := instances[i].(running := true)];
      state := Running;
    }

    method OnCrashEnded(i: nat)
      requires Valid() && Enabled(Model(), CrashIsEnded(i))
      modifies this
      ensures Valid() && Model() == CrashEnded(old(Model()), i)
    {
      CrashEndedKeeps(Model(), i);
      instances := instances[i := instances[i].(endHeard := true)];
      if !stopping.NotCalled? {
        return;
      }
      if !instances[i].inTime.value {
        state := Failed;
        return;
      }
      retry := Some(Backoff(crashes));
      crashes := crashes + 1;
      state := Restarting;
    }

    method StopRunner()
      requires Valid()
      modifies this
      ensures Valid() && Model() == Stop(old(Model()))
    {
      StopKeeps(Model());
      if !stopping.NotCalled? {
        return;
      }
      retry := None;
      var live := instances != [] && !instances[|instances| - 1].ended;
      if live {
        instances := instances[|instances| - 1 := instances[|instances| - 1].(ended := true)];
      }
      if !state.Failed? {
        state := Stopped;
      }
      stopping := AwaitsCrashed(live);
    }
  }
}
