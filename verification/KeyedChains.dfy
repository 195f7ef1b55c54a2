/** Work done one at a time under a key, in call order, by chaining promises: the credential locks
    (`createCredentialLocks`) and a session's submissions (`inSessionOrder`). */
module KeyedChains {
  import opened Bytes

  type Key = nat

  /** A call's progress: its work has not begun; its work runs; its work settled, well or not; what the next call under
      the key waits for has resolved; and its entry was looked at for removal. The locks resolve and remove at once. */
  datatype Phase = Waiting | Working | Settled(failed: bool) | Released | Cleaned

  /** `previous`: the call whose release it waits for, none if the key had no entry when it was made. */
  datatype Call = Call(key: Key, previous: Option<nat>, phase: Phase)

  /** `tails` is the map of keys to the last call's promise. */
  datatype Chains = Chains(calls: seq<Call>, tails: map<Key, nat>)

  const NEW_CHAINS := Chains([], map[])

  predicate Begun(phase: Phase) {
    !phase.Waiting?
  }

  predicate Past(phase: Phase) {
    phase.Released? || phase.Cleaned?
  }

  function WithPhase(c: Chains, i: nat, phase: Phase): Chains
    requires i < |c.calls|
  {
    c.(calls := c.calls[i := c.calls[i].(phase := phase)])
  }

  /** The synchronous part of a call. */
  function Enter(c: Chains, key: Key): Chains {
    var previous := if key in c.tails then Some(c.tails[key]) else None;
    Chains(c.calls + [Call(key, previous, Waiting)], c.tails[key := |c.calls|])
  }

  predicate MayBegin(c: Chains, i: nat) {
    && i < |c.calls| && c.calls[i].phase.Waiting?
    && (c.calls[i].previous.Some? ==>
         c.calls[i].previous.value < |c.calls| && Past(c.calls[c.calls[i].previous.value].phase))
  }

  function Clean(c: Chains, i: nat): Chains
    requires i < |c.calls|
  {
    var key := c.calls[i].key;
    WithPhase(c, i, Cleaned).(tails := if key in c.tails && c.tails[key] == i then c.tails - {key} else c.tails)
  }

  /** `TailResolves` and `TailIsHeard` end a submission; `LockReleases` ends a lock's run. */
  datatype Event =
    | Calls(key: Key)
    | Begins(i: nat)
    | WorkSettles(i: nat, failed: bool)
    | TailResolves(i: nat)
    | TailIsHeard(i: nat)
    | LockReleases(i: nat)

  predicate Enabled(c: Chains, e: Event) {
    match e
    case Calls(_) => true
    case Begins(i) => MayBegin(c, i)
    case WorkSettles(i, _) => i < |c.calls| && c.calls[i].phase.Working?
    case TailResolves(i) => i < |c.calls| && c.calls[i].phase.Settled?
    case TailIsHeard(i) => i < |c.calls| && c.calls[i].phase.Released?
    case LockReleases(i) => i < |c.calls| && c.calls[i].phase.Settled?
  }

  function Step(c: Chains, e: Event): Chains {
    if !Enabled(c, e) then c
    else
      match e
      case Calls(key) => Enter(c, key)
      case Begins(i) => WithPhase(c, i, Working)
      case WorkSettles(i, failed) => WithPhase(c, i, Settled(failed))
      case TailResolves(i) => WithPhase(c, i, Released)
      case TailIsHeard(i) => Clean(c, i)
      case LockReleases(i) => Clean(c, i)
  }

  function Run(events: seq<Event>): Chains {
    if events == [] then NEW_CHAINS else Step(Run(events[..|events| - 1]), events[|events| - 1])
  }

  // ---- What every step keeps ----

  predicate SameKey(c: Chains, i: nat, j: nat) {
    i < |c.calls| && j < |c.calls| && c.calls[i].key == c.calls[j].key
  }

  /** A call waits for the last call under its key before it, or all those before it have been released. */
  ghost predicate WaitsForLast(c: Chains, j: nat)
    requires j < |c.calls|
  {
    match c.calls[j].previous
    case Some(p) => p < j && SameKey(c, p, j) && forall i :: p < i < j ==> !SameKey(c, i, j)
    case None => forall i :: 0 <= i < j && SameKey(c, i, j) ==> Past(c.calls[i].phase)
  }

  ghost predicate InOrder(c: Chains, j: nat)
    requires j < |c.calls|
  {
    Begun(c.calls[j].phase) ==> forall i :: 0 <= i < j && SameKey(c, i, j) ==> Past(c.calls[i].phase)
  }

  ghost predicate TailFor(c: Chains, key: Key) {
    if key in c.tails then
      && c.tails[key] < |c.calls| && c.calls[c.tails[key]].key == key && !c.calls[c.tails[key]].phase.Cleaned?
      && forall i :: c.tails[key] < i < |c.calls| ==> c.calls[i].key != key
    else forall i :: 0 <= i < |c.calls| && c.calls[i].key == key ==> Past(c.calls[i].phase)
  }

  ghost predicate ChainsOk(c: Chains) {
    && (forall j: nat :: j < |c.calls| ==> WaitsForLast(c, j) && InOrder(c, j))
    && (forall key: Key :: TailFor(c, key))
  }

  lemma EnterKeeps(c: Chains, key: Key)
    requires ChainsOk(c)
    ensures ChainsOk(Enter(c, key))
  {
    var c' := Enter(c, key);
    assert TailFor(c, key);
    forall j: nat | j < |c'.calls|
      ensures WaitsForLast(c', j) && InOrder(c', j)
    {
      if j < |c.calls| {
        assert WaitsForLast(c, j) && InOrder(c, j);
        assert forall i: nat :: i < j ==> (SameKey(c', i, j) <==> SameKey(c, i, j));
      }
    }
    forall k: Key
      ensures TailFor(c', k)
    {
      assert TailFor(c, k);
    }
  }

  /** A call that goes a step further; one that begins may. */
  lemma PhaseKeeps(c: Chains, i: nat, phase: Phase)
    requires ChainsOk(c) && i < |c.calls| && !phase.Cleaned? && !phase.Waiting? && !c.calls[i].phase.Cleaned?
    requires c.calls[i].phase.Waiting? ==> MayBegin(c, i)
    requires Past(c.calls[i].phase) ==> Past(phase)
    ensures ChainsOk(WithPhase(c, i, phase))
  {
    var c' := WithPhase(c, i, phase);
    assert WaitsForLast(c, i) && InOrder(c, i);
    if c.calls[i].previous.Some? {
      assert InOrder(c, c.calls[i].previous.value);
    }
    forall j: nat | j < |c.calls|
      ensures WaitsForLast(c', j) && InOrder(c', j)
    {
      assert WaitsForLast(c, j) && InOrder(c, j);
      assert forall x: nat, y: nat :: SameKey(c', x, y) <==> SameKey(c, x, y);
      if j == i {
        MayBeginInOrder(c, i);
      }
    }
    forall k: Key
      ensures TailFor(c', k)
    {
      assert TailFor(c, k);
    }
  }

  /** When a call may begin, or has, all those before it under its key have been released. */
  lemma MayBeginInOrder(c: Chains, j: nat)
    requires ChainsOk(c) && j < |c.calls| && (Begun(c.calls[j].phase) || MayBegin(c, j))
    ensures forall i :: 0 <= i < j && SameKey(c, i, j) ==> Past(c.calls[i].phase)
  {
    assert WaitsForLast(c, j) && InOrder(c, j);
    if !Begun(c.calls[j].phase) && c.calls[j].previous.Some? {
      var p := c.calls[j].previous.value;
      assert InOrder(c, p);
      forall i | 0 <= i < j && SameKey(c, i, j)
        ensures Past(c.calls[i].phase)
      {
        assert i <= p;
        assert SameKey(c, i, p);
      }
    }
  }

  lemma CleanKeeps(c: Chains, i: nat)
    requires ChainsOk(c) && i < |c.calls| && (c.calls[i].phase.Settled? || c.calls[i].phase.Released?)
    ensures ChainsOk(Clean(c, i))
  {
    var c' := Clean(c, i);
    forall j: nat | j < |c.calls|
      ensures WaitsForLast(c', j) && InOrder(c', j)
    {
      assert WaitsForLast(c, j) && InOrder(c, j);
      assert forall x: nat, y: nat :: SameKey(c', x, y) <==> SameKey(c, x, y);
    }
    forall k: Key
      ensures TailFor(c', k)
    {
      assert TailFor(c, k);
      if k == c.calls[i].key && k !in c'.tails {
        assert InOrder(c, i);
        forall x | 0 <= x < |c.calls| && c.calls[x].key == k
          ensures Past(c'.calls[x].phase)
        {
          assert SameKey(c, x, i);
        }
      }
    }
  }

  lemma StepKeeps(c: Chains, e: Event)
    requires ChainsOk(c)
    ensures ChainsOk(Step(c, e))
  {
    if Enabled(c, e) {
      match e
      case Calls(key) => EnterKeeps(c, key);
      case Begins(i) => PhaseKeeps(c, i, Working);
      case WorkSettles(i, failed) => PhaseKeeps(c, i, Settled(failed));
      case TailResolves(i) => PhaseKeeps(c, i, Released);
      case TailIsHeard(i) => CleanKeeps(c, i);
      case LockReleases(i) => CleanKeeps(c, i);
    }
  }

  lemma {:induction false} RunKeeps(events: seq<Event>)
    ensures ChainsOk(Run(events))
  {
    if events == [] {
      assert forall key: Key :: TailFor(NEW_CHAINS, key);
    } else {
      RunKeeps(events[..|events| - 1]);
      StepKeeps(Run(events[..|events| - 1]), events[|events| - 1]);
    }
  }

  // ---- What the chains promise ----

  /** Works under one key run one at a time, in the order of their calls: once a later one has begun, every earlier
      one's work has settled, well or not. */
  lemma OneAtATimeInOrder(events: seq<Event>, i: nat, j: nat)
    requires i < j && SameKey(Run(events), i, j) && Begun(Run(events).calls[j].phase)
    ensures var phase := Run(events).calls[i].phase; !phase.Waiting? && !phase.Working?
  {
    RunKeeps(events);
    assert InOrder(Run(events), j);
  }

  /** No work is stranded: behind a call that waits, some call under the key can go on, and it is the earliest that is
      not past, whether its own work or an earlier one failed or not. */
  lemma {:induction false} SomeCallGoesOn(c: Chains, j: nat) returns (i: nat)
    requires ChainsOk(c) && j < |c.calls| && !Past(c.calls[j].phase)
    ensures i <= j && SameKey(c, i, j) && (MayBegin(c, i) || c.calls[i].phase.Working? || c.calls[i].phase.Settled?)
    ensures forall x :: 0 <= x < i && SameKey(c, x, j) ==> Past(c.calls[x].phase)
    decreases j
  {
    assert WaitsForLast(c, j) && InOrder(c, j);
    if c.calls[j].phase.Waiting? && c.calls[j].previous.Some? && !Past(c.calls[c.calls[j].previous.value].phase) {
      var p := c.calls[j].previous.value;
      i := SomeCallGoesOn(c, p);
      assert forall x: nat :: SameKey(c, x, p) <==> SameKey(c, x, j);
    } else {
      i := j;
      MayBeginInOrder(c, j);
    }
  }

  /** From its call, made or not begun, until its work has settled and been released, the key has an entry: there is no
      gap, however calls follow one another. And an entry names a call that is not cleaned. */
  lemma KeyIsHeld(events: seq<Event>, i: nat)
    requires i < |Run(events).calls|
    ensures var c := Run(events);
            && (!Past(c.calls[i].phase) ==> c.calls[i].key in c.tails)
            && (c.calls[i].key in c.tails ==>
                  var tail := c.tails[c.calls[i].key]; i <= tail < |c.calls| && !c.calls[tail].phase.Cleaned?)
  {
    RunKeeps(events);
    assert TailFor(Run(events), Run(events).calls[i].key);
  }

  /** When every call under a key is cleaned, the key has no entry left. */
  lemma NothingIsLeft(events: seq<Event>, key: Key)
    requires forall i :: 0 <= i < |Run(events).calls| && Run(events).calls[i].key == key ==>
        Run(events).calls[i].phase.Cleaned?
    ensures key !in Run(events).tails
  {
    RunKeeps(events);
    assert TailFor(Run(events), key);
  }

  lemma RunMore(events: seq<Event>, e: Event)
    ensures Run(events + [e]) == Step(Run(events), e)
  {
    assert (events + [e])[..|events|] == events;
  }

  /** A call can always be made, and then waits for the last one made under its key, if that is not yet gone. */
  lemma CallEnters(events: seq<Event>, key: Key)
    ensures var c, c' := Run(events), Run(events + [Calls(key)]);
            && |c'.calls| == |c.calls| + 1 && c'.calls[..|c.calls|] == c.calls
            && c'.calls[|c.calls|].key == key && c'.calls[|c.calls|].phase.Waiting?
            && c'.calls[|c.calls|].previous == (if key in c.tails then Some(c.tails[key]) else None)
            && c'.tails == c.tails[key := |c.calls|]
  {
    RunMore(events, Calls(key));
    hide Run;
  }

  /** What is left of a call's steps. */
  function Left(phase: Phase): nat {
    match phase
    case Waiting => 4
    case Working => 3
    case Settled(_) => 2
    case Released => 1
    case Cleaned => 0
  }

  function NextStep(phase: Phase, i: nat): Event {
    match phase
    case Waiting => Begins(i)
    case Working => WorkSettles(i, false)
    case Settled(_) => LockReleases(i)
    case _ => TailIsHeard(i)
  }

  /** The call `i` is through, and no other is touched. */
  ghost predicate OnlyCleans(c: Chains, c': Chains, i: nat) {
    && |c'.calls| == |c.calls| && i < |c.calls| && c'.calls[i].phase.Cleaned?
    && forall k :: i < k < |c.calls| ==> c'.calls[k] == c.calls[k]
  }

  lemma StepMoves(c: Chains, i: nat)
    requires i < |c.calls| && !c.calls[i].phase.Cleaned? && (c.calls[i].phase.Waiting? ==> MayBegin(c, i))
    ensures var c' := Step(c, NextStep(c.calls[i].phase, i));
            && |c'.calls| == |c.calls| && Left(c'.calls[i].phase) < Left(c.calls[i].phase)
            && !c'.calls[i].phase.Waiting?
            && forall k :: 0 <= k < |c.calls| && k != i ==> c'.calls[k] == c.calls[k]
  {
  }

  lemma {:induction false} CallGoesOn(events: seq<Event>, i: nat) returns (more: seq<Event>)
    requires i < |Run(events).calls| && (Run(events).calls[i].phase.Waiting? ==> MayBegin(Run(events), i))
    ensures OnlyCleans(Run(events), Run(events + more), i)
    decreases Left(Run(events).calls[i].phase)
  {
    hide Run, Step;
    var c := Run(events);
    if c.calls[i].phase.Cleaned? {
      more := [];
      assert events + [] == events;
    } else {
      var e := NextStep(c.calls[i].phase, i);
      RunMore(events, e);
      StepMoves(c, i);
      var rest := CallGoesOn(events + [e], i);
      more := [e] + rest;
      assert events + more == (events + [e]) + rest;
    }
  }

  /** In every run each call can still be brought to its end, its work done and its entry gone or another's: the calls
      before it that it waits for can, and then it. */
  lemma {:induction false} CallEnds(events: seq<Event>, i: nat) returns (more: seq<Event>)
    requires i < |Run(events).calls|
    ensures OnlyCleans(Run(events), Run(events + more), i)
    decreases i
  {
    hide Run, Step;
    RunKeeps(events);
    var c := Run(events);
    assert WaitsForLast(c, i);
    if c.calls[i].phase.Waiting? && c.calls[i].previous.Some? {
      var first := CallEnds(events, c.calls[i].previous.value);
      var rest := CallGoesOn(events + first, i);
      more := first + rest;
      assert events + more == (events + first) + rest;
    } else {
      more := CallGoesOn(events, i);
    }
  }

  // ---- The chains ----

  class PromiseChains {
    var calls: seq<Call>
    var tails: map<Key, nat>

    ghost function Model(): Chains
      reads this
    {
      Chains(calls, tails)
    }

    ghost predicate Valid()
      reads this
    {
      ChainsOk(Model())
    }

    constructor ()
      ensures Valid() && Model() == NEW_CHAINS
    {
      calls, tails := [], map[];
      new;
      RunKeeps([]);
    }

    /** A call enters the chain before anything else runs. */
    method EnterChain(key: Key) returns (i: nat)
      requires Valid()
      modifies this
      ensures Valid() && Model() == Enter(old(Model()), key)
      ensures i == |old(calls)| && key in tails && tails[key] == i
    {
      EnterKeeps(Model(), key);
      i := |calls|;
      var previous := if key in tails then Some(tails[key]) else None;
      calls := calls + [Call(key, previous, Waiting)];
      tails := tails[key := i];
    }

    /** What runs once a call's work has settled: its entry goes if no later call replaced it. */
    method LeaveChain(i: nat)
      requires Valid() && i < |calls| && (calls[i].phase.Settled? || calls[i].phase.Released?)
      modifies this
      ensures Valid() && Model() == Clean(old(Model()), i)
    {
      CleanKeeps(Model(), i);
      var key := calls[i].key;
      calls := calls[i := calls[i].(phase := Cleaned)];
      if key in tails && tails[key] == i {
        tails := tails - {key};
      }
    }
  }
}
