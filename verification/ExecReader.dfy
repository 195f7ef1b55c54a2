/** The server's reading of an output stream (`readRecords`): whole lines are taken as records until the exit;
    a line cut off by the stream's end is not. */
module ExecReader {
  import opened Bytes
  import opened ExecRecords

  datatype Stop = More | AtExit(exit: Exit) | Malformed

  /** The values taken, their bytes, the bytes left over and why taking stopped. */
  datatype Taken = Taken(values: seq<Value>, bytes: nat, rest: seq<Byte>, stop: Stop)

  function TakeLines(parse: Parser, pending: seq<Byte>): Taken
    decreases |pending|
  {
    var n := FirstNewline(pending);
    if n == |pending| then Taken([], 0, pending, More)
    else
      match parse(pending[..n])
      case None => Taken([], 0, pending[n + 1..], Malformed)
      case Some(Exited(exit)) => Taken([Exited(exit)], n + 1, pending[n + 1..], AtExit(exit))
      case Some(value) =>
        var more := TakeLines(parse, pending[n + 1..]);
        Taken([value] + more.values, n + 1 + more.bytes, more.rest, more.stop)
  }

  /** Bytes without a newline are all left over. Else the line up to the first one decides: no record ends the taking,
      as does an exit, and any other record is taken before what follows it is looked at. */
  lemma LineDecides(parse: Parser, line: seq<Byte>, rest: seq<Byte>)
    requires NEWLINE !in line
    ensures TakeLines(parse, line) == Taken([], 0, line, More)
    ensures var taken, more := TakeLines(parse, line + [NEWLINE] + rest), TakeLines(parse, rest);
            match parse(line)
            case None => taken == Taken([], 0, rest, Malformed)
            case Some(Exited(exit)) => taken == Taken([Exited(exit)], |line| + 1, rest, AtExit(exit))
            case Some(value) =>
              taken == Taken([value] + more.values, |line| + 1 + more.bytes, more.rest, more.stop)
  {
    NewlineAfter(line, rest);
    TakesFirst(parse, line + [NEWLINE] + rest);
    assert TakeLines(parse, line) == Taken([], 0, line, More);
    hide FirstNewline, TakeLines;
  }

  lemma TakesFirst(parse: Parser, pending: seq<Byte>)
    ensures var n := FirstNewline(pending);
            n < |pending| ==>
              var rest := pending[n + 1..];
              var more := TakeLines(parse, rest);
              match parse(pending[..n])
              case None => TakeLines(parse, pending) == Taken([], 0, rest, Malformed)
              case Some(Exited(exit)) => TakeLines(parse, pending) == Taken([Exited(exit)], n + 1, rest, AtExit(exit))
              case Some(value) =>
                TakeLines(parse, pending)
                  == Taken([value] + more.values, n + 1 + more.bytes, more.rest, more.stop)
  {
    hide FirstNewline;
  }

  lemma NewlineAfter(line: seq<Byte>, rest: seq<Byte>)
    requires NEWLINE !in line
    ensures FirstNewline(line) == |line|
    ensures var pending := line + [NEWLINE] + rest;
            FirstNewline(pending) == |line| && pending[..|line|] == line && pending[|line| + 1..] == rest
  {
    var pending := line + [NEWLINE] + rest;
    assert pending[|line|] == NEWLINE;
    assert forall i :: 0 <= i < |line| ==> line[i] in line && pending[i] == line[i];
  }

  function Values(records: seq<Record>): (values: seq<Value>)
    ensures |values| == |records|
    ensures forall i :: 0 <= i < |records| ==> values[i] == records[i].value
  {
    seq(|records|, i requires 0 <= i < |records| => records[i].value)
  }

  /** `bytes` occur in `text` at `at`. */
  predicate IsAt(text: seq<Byte>, at: nat, bytes: seq<Byte>) {
    at + |bytes| <= |text| && forall i :: 0 <= i < |bytes| ==> bytes[i] == text[at + i]
  }

  /** `bytes` are those of the history from `from`. */
  ghost predicate Slice(history: seq<Record>, from: nat, bytes: seq<Byte>) {
    IsAt(Text(history), from, bytes)
  }

  /** What is left after `n` more bytes is still a slice of the history. */
  lemma SliceRest(history: seq<Record>, from: nat, bytes: seq<Byte>, n: nat)
    requires Slice(history, from, bytes) && n <= |bytes|
    ensures Slice(history, from + n, bytes[n..])
  {
  }

  /** The first line of bytes read where a row starts is that row's. */
  lemma FirstLineIsRow(text: seq<Byte>, at: nat, line: seq<Byte>, pending: seq<Byte>)
    requires NEWLINE !in line && FirstNewline(pending) < |pending|
    requires IsAt(text, at, line + [NEWLINE]) && IsAt(text, at, pending)
    ensures FirstNewline(pending) == |line| && pending[..|line|] == line
  {
    var row := line + [NEWLINE];
    forall i | 0 <= i < |row| && i < |pending|
      ensures pending[i] == row[i]
    {
      assert row[i] == text[at + i];
    }
    assert forall i :: 0 <= i < |line| ==> row[i] == line[i] != NEWLINE;
    assert row[|line|] == NEWLINE;
  }

  lemma RowAt(history: seq<Record>, k: nat)
    requires k < |history|
    ensures Slice(history, Offset(history, k), history[k].line + [NEWLINE])
    ensures Offset(history, k + 1) == Offset(history, k) + |history[k].line| + 1
  {
    OffsetStep(history, k);
    var row, at := history[k].line + [NEWLINE], Offset(history, k);
    forall i | 0 <= i < |row|
      ensures row[i] == Text(history)[at + i]
    {
      assert Text(history)[at..at + |history[k].line| + 1][i] == Text(history)[at + i];
    }
  }

  /** The first line of a slice that starts at record `k` is that record's. */
  lemma FirstLineIsNextRecord(history: seq<Record>, k: nat, pending: seq<Byte>)
    requires forall i :: 0 <= i < |history| ==> NEWLINE !in history[i].line
    requires k <= |history| && Slice(history, Offset(history, k), pending)
    requires FirstNewline(pending) < |pending|
    ensures k < |history| && FirstNewline(pending) == |history[k].line|
        && pending[..|history[k].line|] == history[k].line
    ensures Offset(history, k + 1) == Offset(history, k) + |history[k].line| + 1
  {
    assert k < |history| by {
      OffsetEnd(history);
    }
    RowAt(history, k);
    FirstLineIsRow(Text(history), Offset(history, k), history[k].line, pending);
  }

  /** `taken` is what `k..k'` of the history gives: their values in order, up to an exit. */
  ghost predicate TakenFrom(history: seq<Record>, k: nat, k': nat, taken: Taken)
    requires k <= k' <= |history|
  {
    && taken.values == Values(history[k..k'])
    && Offset(history, k') == Offset(history, k) + taken.bytes
    && Slice(history, Offset(history, k'), taken.rest)
    && !taken.stop.Malformed?
    && (taken.stop.AtExit? ==> k < k' && history[k' - 1].value == Exited(taken.stop.exit))
    && (taken.stop.More? ==> NEWLINE !in taken.rest && forall i :: k <= i < k' ==> !history[i].value.Exited?)
  }

  /** From record `k`, whole records of the history are taken, in order, up to the exit; no line is malformed. */
  lemma {:induction false} TakesRecords(parse: Parser, history: seq<Record>, k: nat,
    pending: seq<Byte>) returns (k': nat)
    requires forall i :: 0 <= i < |history| ==> Printed(parse, history[i])
    requires k <= |history| && Slice(history, Offset(history, k), pending)
    ensures k <= k' <= |history|
    ensures |TakeLines(parse, pending).rest| + TakeLines(parse, pending).bytes == |pending|
    ensures TakenFrom(history, k, k', TakeLines(parse, pending))
    decreases |pending|
  {
    var n := FirstNewline(pending);
    if n == |pending| {
      k' := k;
      assert history[k..k] == [];
    } else {
      FirstLineIsNextRecord(history, k, pending);
      SliceRest(history, Offset(history, k), pending, n + 1);
      assert Printed(parse, history[k]);
      if history[k].value.Exited? {
        k' := k + 1;
        assert history[k..k'] == [history[k]];
        assert Values([history[k]]) == [history[k].value];
      } else {
        k' := TakesRecords(parse, history, k + 1, pending[n + 1..]);
        TakenOneMore(history, k, k', TakeLines(parse, pending[n + 1..]), n + 1);
      }
    }
  }

  lemma TakenOneMore(history: seq<Record>, k: nat, k': nat, more: Taken, size: nat)
    requires k < k' <= |history| && TakenFrom(history, k + 1, k', more)
    requires !history[k].value.Exited? && Offset(history, k + 1) == Offset(history, k) + size
    ensures TakenFrom(history, k, k', Taken([history[k].value] + more.values, size + more.bytes, more.rest, more.stop))
  {
    assert history[k..k'] == [history[k]] + history[k + 1..k'];
    assert Values(history[k..k']) == [history[k].value] + Values(history[k + 1..k']);
  }

  /** The reader of one stream. */
  class RecordReader {
    const parse: Parser
    var pending: seq<Byte>

    constructor (parse: Parser)
      ensures this.parse == parse && pending == []
    {
      this.parse := parse;
      pending := [];
    }

    /** One chunk of the stream. */
    method Feed(chunk: seq<Byte>) returns (values: seq<Value>, bytes: nat, stop: Stop)
      modifies this
      ensures Taken(values, bytes, pending, stop) == TakeLines(parse, old(pending) + chunk)
    {
      hide FirstNewline;
      pending := pending + chunk;
      values, bytes, stop := [], 0, More;
      var newline := FirstNewline(pending);
      ghost var all := TakeLines(parse, pending);
      while newline < |pending|
        invariant newline == FirstNewline(pending)
        invariant var more := TakeLines(parse, pending);
                  all == Taken(values + more.values, bytes + more.bytes, more.rest, more.stop)
        decreases |pending|
      {
        var line := pending[..newline];
        pending := pending[newline + 1..];
        var parsed := parse(line);
        if parsed == None {
          assert values + [] == values;
          stop := Malformed;
          return;
        }
        Associate(values, [parsed.value], TakeLines(parse, pending).values);
        values, bytes := values + [parsed.value], bytes + newline + 1;
        if parsed.value.Exited? {
          stop := AtExit(parsed.value.exit);
          return;
        }
        newline := FirstNewline(pending);
      }
      assert values + [] == values;
    }
  }
}
