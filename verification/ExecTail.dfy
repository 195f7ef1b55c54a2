/** One shell command on the node (`createPiExec`): the kept tail of its output records, the stream that
    serves them and the grace period of a command no stream serves. */
module ExecTail {
  import opened Bytes
  import opened ExecRecords

  type StreamId = nat

  datatype Line = Line(offset: nat, record: Record)

  /** The kept records, how many were dropped before them, where the next one starts and the view then. */
  datatype Tail = Tail(lines: seq<Line>, dropped: nat, end: nat, view: Option<View>, exited: bool)

  const NO_RECORDS := Tail([], 0, 0, None, false)

  /** The command: its tail, the stream serving it (its consumer) and whether the grace timer is armed. */
  datatype Exec = Exec(tail: Tail, consumer: Option<StreamId>, graceArmed: bool)

  datatype Answer =
    | Resume(offset: nat)
    | ShowView(offset: nat, view: Option<View>)
    | NotARecordStart

  datatype StreamStep = Yield(record: Record) | Complete | Overtaken | FellBehind | Wait

  // ---- What the operations compute ----

  /** Records leave the tail while more than one is kept and their bytes exceed the bound. */
  function Trim(t: Tail, tailBytes: nat): Tail
    decreases |t.lines|
  {
    if |t.lines| > 1 && t.end - t.lines[0].offset > tailBytes
    then Trim(t.(lines := t.lines[1..], dropped := t.dropped + 1), tailBytes)
    else t
  }

  function Pushed(t: Tail, r: Record): Tail {
    Tail(t.lines + [Line(t.end, r)], t.dropped, t.end + Size(r), ShowRecord(t.view, r.value), t.exited
      || r.value.Exited?)
  }

  function Recorded(t: Tail, r: Record, tailBytes: nat): Tail {
    Trim(Pushed(t, r), tailBytes)
  }

  /** The index of the first kept line starting at `offset`, or -1. */
  function IndexOfLine(lines: seq<Line>, offset: nat): (i: int)
    ensures -1 <= i < |lines|
    ensures i >= 0 ==> lines[i].offset == offset
    ensures forall j {:trigger lines[j]} :: 0 <= j < (if i < 0 then |lines| else i) ==> lines[j].offset != offset
  {
    if lines == [] then -1
    else if lines[0].offset == offset then 0
    else
      var rest := IndexOfLine(lines[1..], offset);
      assert forall j {:trigger lines[j]} :: 1 <= j < |lines| ==> lines[j] == lines[1..][j - 1];
      if rest < 0 then -1 else rest + 1
  }

  function FirstKept(t: Tail): nat {
    if t.lines == [] then t.end else t.lines[0].offset
  }

  function Attach(t: Tail, offset: nat): Answer {
    if offset < FirstKept(t) then ShowView(t.end, t.view)
    else if offset > t.end || (offset < t.end && IndexOfLine(t.lines, offset) < 0) then NotARecordStart
    else Resume(offset)
  }

  /** The record a stream opened at `offset` starts from: -1 places before the tail when none starts there. */
  function StartIndex(t: Tail, offset: nat): int {
    if offset == t.end then t.dropped + |t.lines| else t.dropped + IndexOfLine(t.lines, offset)
  }

  function StepStream(e: Exec, id: StreamId, next: int): StreamStep {
    if e.consumer != Some(id) then Overtaken
    else if next < e.tail.dropped then FellBehind
    else if next - e.tail.dropped < |e.tail.lines| then Yield(e.tail.lines[next - e.tail.dropped].record)
    else if e.tail.exited then Complete
    else Wait
  }

  function Released(e: Exec, id: StreamId, kept: bool): Exec {
    if e.consumer == Some(id) then e.(consumer := None, graceArmed := kept || e.graceArmed) else e
  }

  // ---- The tail of a history ----

  predicate Boundary(history: seq<Record>, offset: nat) {
    exists k :: 0 <= k <= |history| && Offset(history, k) == offset
  }

  /** An exit is nowhere but last (Pi's `exec` reports no update once it returned). */
  predicate ExitLast(history: seq<Record>) {
    forall i :: 0 <= i < |history| - 1 ==> !history[i].value.Exited?
  }

  predicate HasExit(history: seq<Record>) {
    history != [] && history[|history| - 1].value.Exited?
  }

  /** Every record at its offset, as if none were ever dropped. */
  function AllLines(history: seq<Record>): (lines: seq<Line>)
    ensures |lines| == |history|
  {
    if history == [] then []
    else
      var front := history[..|history| - 1];
      AllLines(front) + [Line(|Text(front)|, history[|history| - 1])]
  }

  /** `t` is what is kept of `history`: its last records at their offsets, as many of them as the bound
      allows and always the latest, with the end and the view of the whole. */
  predicate Faithful(t: Tail, history: seq<Record>, tailBytes: nat) {
    && Keeps(t.lines, t.dropped, t.end, AllLines(history), tailBytes)
    && t.end == |Text(history)|
    && t.view == Fold(history)
    && t.exited == HasExit(history)
  }

  /** `lines` are the last of `all`: within the bound, but never without the latest, and none dropped that fits. */
  predicate Keeps(lines: seq<Line>, dropped: nat, end: nat, all: seq<Line>, tailBytes: nat) {
    && dropped <= |all|
    && lines == all[dropped..]
    && (all != [] ==> lines != [])
    && (|lines| > 1 ==> end - lines[0].offset <= tailBytes)
    && (dropped > 0 ==> end - all[dropped - 1].offset > tailBytes)
  }

  lemma {:induction false} TrimKeeps(t: Tail, all: seq<Line>, tailBytes: nat)
    requires t.dropped < |all| && t.lines == all[t.dropped..]
    requires t.dropped > 0 ==> t.end - all[t.dropped - 1].offset > tailBytes
    ensures var t' := Trim(t, tailBytes);
            && Keeps(t'.lines, t'.dropped, t'.end, all, tailBytes)
            && t' == t.(lines := t'.lines, dropped := t'.dropped)
    decreases |t.lines|
  {
    if |t.lines| > 1 && t.end - t.lines[0].offset > tailBytes {
      TrimKeeps(t.(lines := t.lines[1..], dropped := t.dropped + 1), all, tailBytes);
    }
  }

  lemma PushKeeps(t: Tail, all: seq<Line>, r: Record, tailBytes: nat)
    requires Keeps(t.lines, t.dropped, t.end, all, tailBytes)
    ensures var t' := Recorded(t, r, tailBytes);
            && Keeps(t'.lines, t'.dropped, t'.end, all + [Line(t.end, r)], tailBytes)
            && t' == Pushed(t, r).(lines := t'.lines, dropped := t'.dropped)
  {
    TrimKeeps(Pushed(t, r), all + [Line(t.end, r)], tailBytes);
  }

  /** Recording keeps the tail faithful to the longer history. */
  lemma RecordKeepsFaithful(t: Tail, history: seq<Record>, r: Record, tailBytes: nat)
    requires Faithful(t, history, tailBytes) && !t.exited && ExitLast(history)
    ensures Faithful(Recorded(t, r, tailBytes), history + [r], tailBytes)
    ensures ExitLast(history + [r])
  {
    AppendRecord(history, r);
    assert (history + [r])[..|history|] == history;
    PushKeeps(t, AllLines(history), r, tailBytes);
  }

  lemma NothingRecorded(tailBytes: nat)
    ensures Faithful(NO_RECORDS, [], tailBytes)
  {
  }

  lemma BoundaryIsOrdered(t: Tail, history: seq<Record>, tailBytes: nat, k: nat)
    requires Faithful(t, history, tailBytes) && k <= |history|
    ensures Offset(history, k) < FirstKept(t) <==> k < t.dropped
    ensures Offset(history, k) <= t.end
    ensures Offset(history, k) < t.end <==> k < |history|
  {
    OffsetMonotone(history, k, |history|);
    OffsetEnd(history);
    if t.lines != [] {
      KeptLine(t, history, tailBytes, t.dropped);
      if k < t.dropped {
        OffsetMonotone(history, k, t.dropped);
      } else {
        OffsetMonotone(history, t.dropped, k);
      }
    }
  }

  /** The kept line of a boundary at or past the first kept record is found, and no other place is. */
  lemma BoundaryIsKept(t: Tail, history: seq<Record>, tailBytes: nat, k: nat)
    requires Faithful(t, history, tailBytes) && k <= |history|
    ensures Offset(history, k) < FirstKept(t) <==> k < t.dropped
    ensures Offset(history, k) <= t.end
    ensures Offset(history, k) < t.end <==> k < |history|
    ensures t.dropped <= k < |history| ==> IndexOfLine(t.lines, Offset(history, k)) == k - t.dropped
    ensures k < t.dropped ==> IndexOfLine(t.lines, Offset(history, k)) == -1
    ensures StartIndex(t, Offset(history, k)) == if k < t.dropped then t.dropped - 1 else k
  {
    BoundaryIsOrdered(t, history, tailBytes, k);
    hide FirstKept, Offset, IndexOfLine, Fold, Text;
    var i := IndexOfLine(t.lines, Offset(history, k));
    if i >= 0 {
      KeptLine(t, history, tailBytes, t.dropped + i);
      OffsetsDiffer(history, t.dropped + i, k);
    }
    if t.dropped <= k < |history| {
      KeptLine(t, history, tailBytes, k);
      assert i >= 0;
    }
  }

  lemma {:induction false} LineAt(history: seq<Record>, k: nat)
    requires k < |history|
    ensures AllLines(history)[k] == Line(Offset(history, k), history[k])
  {
    var front := history[..|history| - 1];
    if k < |front| {
      LineAt(front, k);
      assert front[..k] == history[..k];
    } else {
      assert front == history[..k];
    }
  }

  lemma KeptLine(t: Tail, history: seq<Record>, tailBytes: nat, k: nat)
    requires Faithful(t, history, tailBytes) && t.dropped <= k < |history|
    ensures t.lines[k - t.dropped] == Line(Offset(history, k), history[k])
  {
    LineAt(history, k);
  }

  /** A client that attaches where a record starts is never refused. Below the tail it is given the current
      view, which then exists; at or past it the stream resumes where it asked. */
  lemma AttachAtBoundary(t: Tail, history: seq<Record>, tailBytes: nat, offset: nat)
    requires Faithful(t, history, tailBytes) && ExitLast(history) && Boundary(history, offset)
    ensures var answer := Attach(t, offset);
            && (offset < FirstKept(t) ==> answer == ShowView(t.end, Fold(history)) && Fold(history).Some?)
            && (offset >= FirstKept(t) ==> answer == Resume(offset))
    ensures Boundary(history, Attach(t, offset).offset)
  {
    var k :| 0 <= k <= |history| && Offset(history, k) == offset;
    BoundaryIsKept(t, history, tailBytes, k);
    OffsetEnd(history);
    if offset < FirstKept(t) {
      UpdateShows(history, k);
      assert Offset(history, |history|) == t.end;
    }
  }

  /** At or past the first kept record, exactly the offsets where no record starts and none will next are refused. */
  lemma RefusedIffNoBoundary(t: Tail, history: seq<Record>, tailBytes: nat, offset: nat)
    requires Faithful(t, history, tailBytes) && ExitLast(history) && offset >= FirstKept(t)
    ensures Attach(t, offset) == (if Boundary(history, offset) then Resume(offset) else NotARecordStart)
  {
    OffsetEnd(history);
    if Boundary(history, offset) {
      AttachAtBoundary(t, history, tailBytes, offset);
    } else {
      assert Offset(history, |history|) == t.end;
      var i := IndexOfLine(t.lines, offset);
      if i >= 0 {
        KeptLine(t, history, tailBytes, t.dropped + i);
      }
    }
  }

  /** A stream at record `k` that is the consumer is given that record while it is kept, fails when it is not, and past
      the last one completes exactly when that is the exit; any other stream was overtaken. */
  lemma StreamGives(e: Exec, history: seq<Record>, tailBytes: nat, id: StreamId, k: nat)
    requires Faithful(e.tail, history, tailBytes) && k <= |history|
    ensures StepStream(e, id, k) ==
      if e.consumer != Some(id) then Overtaken
      else if Offset(history, k) < FirstKept(e.tail) then FellBehind
      else if k < |history| then Yield(history[k])
      else if history != [] && history[k - 1].value.Exited? then Complete else Wait
  {
    BoundaryIsOrdered(e.tail, history, tailBytes, k);
    hide Fold, Text, Offset, FirstKept;
    if e.tail.dropped <= k < |history| {
      KeptLine(e.tail, history, tailBytes, k);
    }
  }

  lemma {:induction false} UpdateShows(history: seq<Record>, i: nat)
    requires i < |history| && !history[i].value.Exited?
    ensures Fold(history).Some?
  {
    var front := history[..|history| - 1];
    if i < |front| {
      UpdateShows(front, i);
    }
  }

  /** The bound and its two exceptions as they show outside: the kept bytes exceed `tailBytes` only when a
      single record is kept, the latest record is always kept, and no record was dropped that would fit. */
  lemma TailIsBounded(t: Tail, history: seq<Record>, tailBytes: nat, k: nat)
    requires Faithful(t, history, tailBytes) && k <= |history|
    ensures t.end - FirstKept(t) > tailBytes ==> |t.lines| == 1
    ensures history != [] ==> t.lines[|t.lines| - 1].record == history[|history| - 1]
    ensures |Text(history)| - Offset(history, k) <= tailBytes ==> k >= t.dropped
  {
    if history != [] {
      KeptLine(t, history, tailBytes, |history| - 1);
    }
    if k < t.dropped {
      LineAt(history, t.dropped - 1);
      OffsetMonotone(history, k, t.dropped - 1);
    }
  }

  // ---- A stream served to its end ----

  /** The bytes a stream at `next` sends if it is neither overtaken nor stopped and nothing more is recorded. */
  function Served(e: Exec, id: StreamId, next: int): seq<Byte>
    decreases e.tail.dropped + |e.tail.lines| - next
  {
    match StepStream(e, id, next)
    case Yield(record) => record.line + [NEWLINE] + Served(e, id, next + 1)
    case _ => []
  }

  /** Once the command exited, a stream from a kept record's start sends exactly the bytes from there to the
      end of the history: every remaining record, the exit last. */
  lemma {:induction false} ServedToTheEnd(e: Exec, history: seq<Record>, tailBytes: nat, id: StreamId, k: nat)
    requires Faithful(e.tail, history, tailBytes) && e.consumer == Some(id)
    requires e.tail.dropped <= k <= |history| && e.tail.exited
    ensures Offset(history, k) <= |Text(history)|
    ensures Served(e, id, k) == Text(history)[Offset(history, k)..]
    decreases |history| - k
  {
    OffsetEnd(history);
    if k < |history| {
      KeptLine(e.tail, history, tailBytes, k);
      ServedToTheEnd(e, history, tailBytes, id, k + 1);
      OffsetStep(history, k);
      var text, at := Text(history), Offset(history, k);
      assert text[at..] == text[at..at + |history[k].line| + 1] + text[at + |history[k].line| + 1..];
    }
  }

  /** Whether a client at `offset` still gets the exit of a command that exited: exactly when `offset` is not
      below the tail. Below it, the answered offset lies past the exit record, and that stream sends nothing. */
  lemma ExitIsDelivered(e: Exec, history: seq<Record>, tailBytes: nat, id: StreamId, k: nat)
    requires Faithful(e.tail, history, tailBytes) && ExitLast(history) && HasExit(history)
    requires e.consumer == Some(id) && k < |history|
    ensures !Attach(e.tail, Offset(history, k)).NotARecordStart?
    ensures Offset(history, k) <= |Text(history)|
    ensures var sent := Served(e, id, StartIndex(e.tail, Attach(e.tail, Offset(history, k)).offset));
            && (FirstKept(e.tail) <= Offset(history, k) <==> sent != [])
            && (sent != [] ==> sent == Text(history)[Offset(history, k)..])
  {
    var offset := Offset(history, k);
    assert Boundary(history, offset);
    AttachAtBoundary(e.tail, history, tailBytes, offset);
    BoundaryIsKept(e.tail, history, tailBytes, k);
    BoundaryIsKept(e.tail, history, tailBytes, |history|);
    OffsetEnd(history);
    if FirstKept(e.tail) <= offset {
      ServedToTheEnd(e, history, tailBytes, id, k);
    } else {
      ServedToTheEnd(e, history, tailBytes, id, |history|);
    }
  }

  // ---- The node's object ----

  class ShellCommand {
    const tailBytes: nat
    var lines: seq<Line>
    var dropped: nat
    var end: nat
    var view: Option<View>
    var exited: bool
    var consumer: Option<StreamId>
    var graceArmed: bool
    ghost var history: seq<Record>

    ghost predicate Valid()
      reads this
    {
      Faithful(Model().tail, history, tailBytes) && ExitLast(history)
    }

    ghost function Model(): Exec
      reads this
    {
      Exec(Tail(lines, dropped, end, view, exited), consumer, graceArmed)
    }

    /** `pi.exec`: nothing recorded, no stream yet, the grace timer running. */
    constructor (tailBytes: nat)
      ensures Valid() && history == [] && this.tailBytes == tailBytes
      ensures Model() == Exec(NO_RECORDS, None, true)
    {
      this.tailBytes := tailBytes;
      lines, dropped, end, view, exited := [], 0, 0, None, false;
      consumer, graceArmed := None, true;
      history := [];
    }

    method Record(r: Record)
      requires Valid() && !exited
      modifies this
      ensures Valid() && history == old(history) + [r] && view == Window(history)
      ensures Model() == old(Model()).(tail := Recorded(old(Model().tail), r, tailBytes))
    {
      ghost var before, records := Model().tail, history;
      lines := lines + [Line(end, r)];
      end := end + Size(r);
      view := ShowRecord(view, r.value);
      exited := exited || r.value.Exited?;
      history := history + [r];
      assert Model().tail == Pushed(before, r);
      TrimLines();
      RecordKeepsFaithful(before, records, r, tailBytes);
      FoldIsWindow(history);
    }

    /** Keeps the latest record whatever its size. */
    method TrimLines()
      modifies this`lines, this`dropped
      ensures Model() == old(Model()).(tail := Trim(old(Model().tail), tailBytes))
    {
      while |lines| > 1 && end - lines[0].offset > tailBytes
        invariant Trim(Model().tail, tailBytes) == Trim(old(Model().tail), tailBytes)
        decreases |lines|
      {
        lines := lines[1..];
        dropped := dropped + 1;
      }
    }

    method FindLine(offset: nat) returns (index: int)
      ensures index == IndexOfLine(lines, offset)
    {
      index := 0;
      while index < |lines|
        invariant 0 <= index <= |lines|
        invariant forall j :: 0 <= j < index ==> lines[j].offset != offset
      {
        if lines[index].offset == offset {
          return;
        }
        index := index + 1;
      }
      index := -1;
    }

    /** `pi.execAttach` */
    method AttachAt(offset: nat) returns (answer: Answer)
      requires Valid()
      ensures answer == Attach(Model().tail, offset)
      ensures Boundary(history, offset) ==> !answer.NotARecordStart? && Boundary(history, answer.offset)
      ensures answer.ShowView? ==> answer.view == Window(history)
    {
      FoldIsWindow(history);
      hide Window;
      if Boundary(history, offset) {
        AttachAtBoundary(Model().tail, history, tailBytes, offset);
      }
      var first := if lines == [] then end else lines[0].offset;
      if offset < first {
        return ShowView(end, view);
      }
      if offset > end {
        return NotARecordStart;
      }
      if offset < end {
        var at := FindLine(offset);
        if at < 0 {
          return NotARecordStart;
        }
      }
      return Resume(offset);
    }

    /** The stream starts: it takes over from any other and stops the grace timer. */
    method StartStream(id: StreamId, offset: nat) returns (next: int)
      requires Valid()
      modifies this`consumer, this`graceArmed
      ensures Valid()
      ensures Model() == old(Model()).(consumer := Some(id), graceArmed := false)
      ensures next == StartIndex(Model().tail, offset)
    {
      consumer := Some(id);
      graceArmed := false;
      assert Model().tail == old(Model().tail);
      var index := FindLine(offset);
      next := if offset == end then dropped + |lines| else dropped + index;
    }

    method Step(id: StreamId, next: int) returns (step: StreamStep)
      ensures step == StepStream(Model(), id, next)
    {
      if consumer != Some(id) {
        return Overtaken;
      }
      var index := next - dropped;
      if index < 0 {
        return FellBehind;
      }
      if index < |lines| {
        return Yield(lines[index].record);
      }
      step := if exited then Complete else Wait;
    }

    /** The stream's end, however it ends: the serving one starts the grace period of a kept command. */
    method Release(id: StreamId, kept: bool)
      requires Valid()
      modifies this`consumer, this`graceArmed
      ensures Valid() && Model() == Released(old(Model()), id, kept)
    {
      if consumer == Some(id) {
        consumer := None;
        if kept {
          graceArmed := true;
        }
      }
    }

    /** The grace timer: with no stream open the command is killed and forgotten. */
    method GraceFires() returns (forget: bool)
      requires Valid() && graceArmed
      modifies this`graceArmed
      ensures Valid() && Model() == old(Model()).(graceArmed := false)
      ensures forget <==> consumer == None
    {
      graceArmed := false;
      forget := consumer == None;
    }
  }
}
