/** Calls to a node that may be away (`onNode`): which failures are resent, and until when. */
module NodeRetry {
  import opened Bytes

  /** How a call fails or ends. `Unavailable`: the RPC layer's failure, perhaps with an unknown outcome. `Rejection`:
      the node's own error, by whether its code is `unavailable` and whether it may be retried. */
  datatype Outcome =
    | Answered
    | Unavailable(unknown: bool)
    | Rejection(unavailable: bool, retryable: bool)
    | OtherFailure

  /** Worth resending. */
  predicate Unreachable(o: Outcome) {
    o.Unavailable? || (o.Rejection? && o.unavailable && o.retryable)
  }

  /** Certainly not run. */
  predicate NotRun(o: Outcome) {
    Unreachable(o) && !(o.Unavailable? && o.unknown)
  }

  /** One attempt: whether the node was connected before it, how it ended and when, and whether the caller's signal was
      aborted by then. */
  datatype Attempt = Attempt(connected: bool, outcome: Outcome, at: nat, aborted: bool)

  datatype Windows = Windows(waitForNode: bool, start: nat, unknownWindow: Option<nat>, window: Option<nat>)

  /** When an outcome was first unknown among the first `n` attempts. */
  function FirstUnknown(attempts: seq<Attempt>, n: nat): (at: Option<nat>)
    requires n <= |attempts|
    ensures at.Some? <==> exists i :: 0 <= i < n && IsUnknown(attempts[i])
  {
    if n == 0 then None
    else if FirstUnknown(attempts, n - 1).Some? then FirstUnknown(attempts, n - 1)
    else if IsUnknown(attempts[n - 1]) then Some(attempts[n - 1].at) else None
  }

  predicate IsUnknown(a: Attempt) {
    Unreachable(a.outcome) && !NotRun(a.outcome)
  }

  /** Whether attempt `i` is followed by another. */
  predicate IsResent(w: Windows, attempts: seq<Attempt>, i: nat)
    requires i < |attempts|
  {
    var a := attempts[i];
    && w.waitForNode && Unreachable(a.outcome) && !a.aborted
    && (w.window.Some? ==> a.at < w.start + w.window.value)
    && (IsUnknown(a) ==> w.unknownWindow.Some? && a.at < FirstUnknown(attempts, i + 1).value + w.unknownWindow.value)
  }

  predicate Alternate(reports: seq<bool>) {
    forall i :: 0 <= i < |reports| ==> reports[i] == (i % 2 == 0)
  }

  /** The last of the first `n` reports, and none is `false`. */
  predicate LastOf(reports: seq<bool>, n: nat)
    requires n <= |reports|
  {
    n > 0 && reports[n - 1]
  }

  /** `made[i]` and `failed[i]` are how many reports there were when attempt `i` was made, and when it had failed and
      was to be resent. An end of the waiting is reported only before an attempt with the node connected, a wait only
      after an attempt that is resent, and neither twice. */
  ghost predicate ReportedBy(attempts: seq<Attempt>, reports: seq<bool>, made: seq<nat>, failed: seq<nat>) {
    && |failed| <= |made| <= |attempts| && |made| <= |failed| + 1
    && (forall i: nat :: i < |made| ==> MadeAt(attempts, reports, made, failed, i))
    && (forall i: nat :: i < |failed| ==> FailedAt(attempts, reports, made, failed, i))
  }

  predicate MadeAt(attempts: seq<Attempt>, reports: seq<bool>, made: seq<nat>, failed: seq<nat>, i: nat)
    requires i < |made| <= |attempts| && i <= |failed|
  {
    && made[i] <= |reports| && LastOf(reports, made[i]) == (i > 0 && !attempts[i].connected)
    && made[i] == if i == 0 then 0 else failed[i - 1] + if attempts[i].connected then 1 else 0
  }

  predicate FailedAt(attempts: seq<Attempt>, reports: seq<bool>, made: seq<nat>, failed: seq<nat>, i: nat)
    requires i < |failed| <= |made| <= |attempts|
  {
    && failed[i] <= |reports| && LastOf(reports, failed[i])
    && failed[i] == made[i] + if i > 0 && !attempts[i].connected then 0 else 1
  }

  lemma AlternateMore(reports: seq<bool>, report: bool)
    requires Alternate(reports) && report == (|reports| % 2 == 0)
    ensures Alternate(reports + [report])
  {
  }

  lemma LastOfMore(reports: seq<bool>, more: seq<bool>, n: nat)
    requires n <= |reports|
    ensures LastOf(reports + more, n) == LastOf(reports, n)
  {
  }

  /** More reports and more attempts leave what was reported by an earlier one. */
  lemma StillMadeAt(attempts: seq<Attempt>, reports: seq<bool>, now: seq<bool>, made: seq<nat>, failed: seq<nat>,
    made': seq<nat>, failed': seq<nat>, i: nat)
    requires i < |made| <= |attempts| && i <= |failed| && |made'| <= |attempts|
    requires reports <= now && made <= made' && failed <= failed' && MadeAt(attempts, reports, made, failed, i)
    ensures MadeAt(attempts, now, made', failed', i)
  {
  }

  lemma StillFailedAt(attempts: seq<Attempt>, reports: seq<bool>, now: seq<bool>, made: seq<nat>, failed: seq<nat>,
    made': seq<nat>, failed': seq<nat>, i: nat)
    requires i < |failed| <= |made| <= |attempts| && |failed'| <= |made'| <= |attempts|
    requires reports <= now && made <= made' && failed <= failed' && FailedAt(attempts, reports, made, failed, i)
    ensures FailedAt(attempts, now, made', failed', i)
  {
  }

  lemma StillReported(attempts: seq<Attempt>, reports: seq<bool>, now: seq<bool>, made: seq<nat>, failed: seq<nat>,
    made': seq<nat>, failed': seq<nat>)
    requires ReportedBy(attempts, reports, made, failed) && reports <= now && made <= made' && failed <= failed'
    requires |failed'| <= |made'| <= |attempts|
    ensures forall i: nat :: i < |made| ==> MadeAt(attempts, now, made', failed', i)
    ensures forall i: nat :: i < |failed| ==> FailedAt(attempts, now, made', failed', i)
  {
    forall i: nat | i < |made|
      ensures MadeAt(attempts, now, made', failed', i)
    {
      StillMadeAt(attempts, reports, now, made, failed, made', failed', i);
    }
    forall i: nat | i < |failed|
      ensures FailedAt(attempts, now, made', failed', i)
    {
      StillFailedAt(attempts, reports, now, made, failed, made', failed', i);
    }
  }

  lemma MoreReports(attempts: seq<Attempt>, reports: seq<bool>, more: seq<bool>, made: seq<nat>, failed: seq<nat>)
    requires ReportedBy(attempts, reports, made, failed)
    ensures ReportedBy(attempts, reports + more, made, failed)
  {
    hide MadeAt, FailedAt;
    StillReported(attempts, reports, reports + more, made, failed, made, failed);
  }

  /** Where the reports stand once the next attempt is made. */
  lemma MadeReports(attempts: seq<Attempt>, reports: seq<bool>, more: seq<bool>, made: seq<nat>, failed: seq<nat>)
    requires ReportedBy(attempts, reports, made, failed) && |made| == |failed| < |attempts|
    requires |reports| == if made == [] then 0 else failed[|made| - 1]
    requires more == if made != [] && attempts[|made|].connected then [false] else []
    ensures var now := reports + more;
            && ReportedBy(attempts, now, made + [|now|], failed)
            && LastOf(now, |now|) == (made != [] && !attempts[|made|].connected)
  {
    var now := reports + more;
    var n := |made|;
    if n > 0 {
      assert FailedAt(attempts, reports, made, failed, n - 1);
    }
    assert MadeAt(attempts, now, made + [|now|], failed, n);
    hide MadeAt, FailedAt;
    StillReported(attempts, reports, now, made, failed, made + [|now|], failed);
  }

  /** Where they stand once it has failed and is to be resent. */
  lemma FailedReports(attempts: seq<Attempt>, reports: seq<bool>, more: seq<bool>, made: seq<nat>, failed: seq<nat>)
    requires ReportedBy(attempts, reports, made, failed) && |made| == |failed| + 1 && |reports| == made[|failed|]
    requires more == if LastOf(reports, |reports|) then [] else [true]
    ensures var now := reports + more; ReportedBy(attempts, now, made, failed + [|now|]) && LastOf(now, |now|)
  {
    var now := reports + more;
    var n := |failed|;
    assert MadeAt(attempts, reports, made, failed, n);
    assert FailedAt(attempts, now, made, failed + [|now|], n);
    hide MadeAt, FailedAt;
    StillReported(attempts, reports, now, made, failed, made, failed + [|now|]);
  }

  /** `attempts` are those that would be made, one after the other. Exactly each that may be resent is followed by the
      next; the caller hears of waiting and of its end by turns, and last that it ended. `made` is none past all of
      them, when the last may be resent still. Without a window for unknown outcomes, as a command's start has none,
      no attempt but the last made can have run. */
  method OnNode(w: Windows, attempts: seq<Attempt>)
    returns (made: nat, ended: bool, reports: seq<bool>, ghost atMade: seq<nat>, ghost atFailed: seq<nat>)
    ensures made <= |attempts| && (ended <==> exists i :: 0 <= i < |attempts| && !IsResent(w, attempts, i))
    ensures ended ==> made > 0 && !IsResent(w, attempts, made - 1)
    ensures forall i :: 0 <= i < (if ended then made - 1 else made) ==> IsResent(w, attempts, i)
    ensures w.unknownWindow.None? ==> forall i :: 0 <= i < (if ended then made - 1 else made) ==>
        NotRun(attempts[i].outcome)
    ensures Alternate(reports) && (ended ==> |reports| % 2 == 0)
    ensures !ended ==> made == |attempts|
    ensures ReportedBy(attempts, reports, atMade, atFailed)
    ensures |atMade| == made && |atFailed| == if ended then made - 1 else made
    ensures |reports| == if made == 0 then 0
                         else if !ended then atFailed[made - 1]
                         else atMade[made - 1] + if made > 1 && !attempts[made - 1].connected then 1 else 0
  {
    made, ended, reports, atMade, atFailed := 0, false, [], [], [];
    var waiting := false;
    var unknownDeadline: Option<nat> := None;
    hide ReportedBy, IsResent, Alternate, LastOf, IsDeadline;
    NoneReported(attempts);
    while made < |attempts|
      invariant made <= |attempts| && Alternate(reports) && waiting == (|reports| % 2 == 1) == (made > 0)
      invariant forall i :: 0 <= i < made ==> IsResent(w, attempts, i)
      invariant w.unknownWindow.None? ==> forall i :: 0 <= i < made ==> NotRun(attempts[i].outcome)
      invariant ReportedBy(attempts, reports, atMade, atFailed) && |atMade| == |atFailed| == made
      invariant |reports| == if made == 0 then 0 else atFailed[made - 1]
      invariant IsDeadline(w, attempts, made, unknownDeadline)
    {
      var a := attempts[made];
      var over := if a.connected && waiting then [false] else [];
      MadeReports(attempts, reports, over, atMade, atFailed);
      if a.connected && waiting {
        AlternateMore(reports, false);
        waiting := false;
      }
      reports := reports + over;
      atMade := atMade + [|reports|];
      made := made + 1;
      var again;
      again, unknownDeadline := MayResend(w, attempts, made - 1, unknownDeadline);
      if !again {
        if waiting {
          AlternateMore(reports, false);
          MoreReports(attempts, reports, [false], atMade, atFailed);
          reports := reports + [false];
        }
        ended := true;
        return;
      }
      var begun := if waiting then [] else [true];
      FailedReports(attempts, reports, begun, atMade, atFailed);
      if !waiting {
        AlternateMore(reports, true);
        waiting := true;
      }
      reports := reports + begun;
      atFailed := atFailed + [|reports|];
    }
  }

  lemma NoneReported(attempts: seq<Attempt>)
    ensures ReportedBy(attempts, [], [], [])
  {
  }

  /** Once an outcome was unknown, and with a window for it, the time its window ends. */
  predicate IsDeadline(w: Windows, attempts: seq<Attempt>, n: nat, deadline: Option<nat>)
    requires n <= |attempts|
  {
    && (deadline.Some? <==> FirstUnknown(attempts, n).Some? && w.unknownWindow.Some?)
    && (deadline.Some? ==> deadline.value == FirstUnknown(attempts, n).value + w.unknownWindow.value)
  }

  /** Whether failed attempt `i` is followed by another. */
  method MayResend(w: Windows, attempts: seq<Attempt>, i: nat, deadline: Option<nat>)
    returns (again: bool, unknownDeadline: Option<nat>)
    requires i < |attempts| && IsDeadline(w, attempts, i, deadline)
    ensures again == IsResent(w, attempts, i)
    ensures again ==> IsDeadline(w, attempts, i + 1, unknownDeadline)
    ensures again && w.unknownWindow.None? ==> NotRun(attempts[i].outcome)
  {
    var a := attempts[i];
    unknownDeadline := deadline;
    again := w.waitForNode && Unreachable(a.outcome) && !a.aborted
      && (w.window.Some? ==> a.at < w.start + w.window.value);
    if again && !NotRun(a.outcome) {
      if w.unknownWindow.None? {
        return false, deadline;
      }
      if unknownDeadline.None? {
        unknownDeadline := Some(a.at + w.unknownWindow.value);
      }
      again := a.at < unknownDeadline.value;
    }
  }

  /** A node that is not there, or that says it is unavailable and may be asked again, is asked again: by a caller that
      waits, that has not given up, and whose time for it is not over. One whose outcome is unknown is asked again when
      the caller has a window for that, within that window of the first. No other failure is resent. */
  lemma WaitsForTheNode(w: Windows, attempts: seq<Attempt>, i: nat)
    requires i < |attempts|
    ensures var a := attempts[i];
            var waits := w.waitForNode && !a.aborted && (w.window.None? || a.at < w.start + w.window.value);
            IsResent(w, attempts, i) <==>
              waits
              && (a.outcome in {Unavailable(false), Rejection(true, true)}
                || (a.outcome == Unavailable(true) && w.unknownWindow.Some?
                    && a.at < FirstUnknown(attempts, i + 1).value + w.unknownWindow.value))
  {
  }

  lemma {:induction false} FirstUnknownStays(attempts: seq<Attempt>, n: nat, m: nat)
    requires n <= m <= |attempts| && FirstUnknown(attempts, n).Some?
    ensures FirstUnknown(attempts, m) == FirstUnknown(attempts, n)
    decreases m
  {
    if n < m {
      FirstUnknownStays(attempts, n, m - 1);
    }
  }

  /** With one, every resend after an unknown outcome is within the window of the first, however often the certain
      failures between were resent. */
  lemma UnknownIsResentWithin(w: Windows, attempts: seq<Attempt>, made: nat, i: nat, j: nat)
    requires i <= j < made - 1 && made <= |attempts| && IsUnknown(attempts[i]) && IsUnknown(attempts[j])
    requires forall k :: 0 <= k < made - 1 ==> IsResent(w, attempts, k)
    requires forall k, l :: 0 <= k <= l < |attempts| ==> attempts[k].at <= attempts[l].at
    ensures w.unknownWindow.Some? && attempts[j].at < attempts[i].at + w.unknownWindow.value
  {
    assert IsResent(w, attempts, j);
    FirstUnknownStays(attempts, i + 1, j + 1);
    FirstIsEarliest(attempts, i);
  }

  lemma {:induction false} FirstIsEarliest(attempts: seq<Attempt>, i: nat)
    requires i < |attempts| && IsUnknown(attempts[i])
    requires forall k, l :: 0 <= k <= l < |attempts| ==> attempts[k].at <= attempts[l].at
    ensures FirstUnknown(attempts, i + 1).Some? && FirstUnknown(attempts, i + 1).value <= attempts[i].at
  {
    if FirstUnknown(attempts, i).Some? {
      FirstIsSome(attempts, i);
    }
  }

  lemma {:induction false} FirstIsSome(attempts: seq<Attempt>, n: nat)
    requires n <= |attempts| && FirstUnknown(attempts, n).Some?
    ensures exists i :: 0 <= i < n && FirstUnknown(attempts, n).value == attempts[i].at
  {
    if FirstUnknown(attempts, n - 1).Some? {
      FirstIsSome(attempts, n - 1);
    }
  }
}
