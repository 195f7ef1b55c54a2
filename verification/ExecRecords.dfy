/** The output records of a shell command as they cross the link: updates to a bounded view of its output,
    then its exit, each one line of UTF-8 (`execRecord`). */
module ExecRecords {
  import opened Bytes

  datatype Metadata = Metadata(totalLines: nat, totalBytes: nat, truncated: bool)
  datatype View = View(text: string, metadata: Metadata)
  datatype Update =
    | Replace(output: View)
    | Append(text: string, metadata: Metadata)
    | Slide(drop: nat, text: string, metadata: Metadata)
    | OnlyMetadata(metadata: Metadata)

  datatype Exit = Completed(exitCode: int) | Failed(code: string)
  datatype Value = Updated(update: Update) | Exited(exit: Exit)

  /** A record with the bytes of its line, the newline left out. */
  datatype Record = Record(value: Value, line: seq<Byte>)

  /** JSON text to a record's value, or `None` for a line that is not a record. */
  type Parser = seq<Byte> -> Option<Value>

  /** The line holds no newline and reads back as the record it was written from. */
  ghost predicate Printed(parse: Parser, r: Record) {
    NEWLINE !in r.line && parse(r.line) == Some(r.value)
  }

  function Size(r: Record): nat {
    |r.line| + 1
  }

  /** The view after one update, whatever was shown before it. */
  function ApplyUpdate(current: Option<View>, update: Update): View {
    var text := if current.Some? then current.value.text else "";
    match update
    case Replace(output) => output
    case Append(more, metadata) => View(text + more, metadata)
    case Slide(drop, more, metadata) => View((if drop <= |text| then text[drop..] else "") + more, metadata)
    case OnlyMetadata(metadata) => View(text, metadata)
  }

  function ShowRecord(current: Option<View>, value: Value): Option<View> {
    match value
    case Updated(update) => Some(ApplyUpdate(current, update))
    case Exited(_) => current
  }

  /** What the records show: every update applied in order. */
  function Fold(records: seq<Record>): Option<View> {
    if records == [] then None
    else ShowRecord(Fold(records[..|records| - 1]), records[|records| - 1].value)
  }

  // ---- What the view is of ----

  /** The text an update adds to the command's output. */
  function Added(update: Update): string {
    match update
    case Replace(output) => output.text
    case Append(text, _) => text
    case Slide(_, text, _) => text
    case OnlyMetadata(_) => ""
  }

  function MetadataOf(update: Update): Metadata {
    if update.Replace? then update.output.metadata else update.metadata
  }

  /** The command's output since the view was last replaced, dropped or not. */
  function Output(records: seq<Record>): string {
    if records == [] then ""
    else
      var before, last := Output(records[..|records| - 1]), records[|records| - 1].value;
      if last.Exited? then before
      else if last.update.Replace? then Added(last.update)
      else before + Added(last.update)
  }

  /** How much of it has slid out of the view: never more than there was. */
  function SlidOut(records: seq<Record>): (n: nat)
    ensures n <= |Output(records)|
  {
    if records == [] then 0
    else
      var before, last := records[..|records| - 1], records[|records| - 1].value;
      if last.Exited? then SlidOut(before)
      else if last.update.Replace? then 0
      else if last.update.Slide? && SlidOut(before) + last.update.drop <= |Output(before)| then
        SlidOut(before) + last.update.drop
      else if last.update.Slide? then |Output(before)|
      else SlidOut(before)
  }

  function LastMetadata(records: seq<Record>): Option<Metadata> {
    if records == [] then None
    else if records[|records| - 1].value.Exited? then LastMetadata(records[..|records| - 1])
    else Some(MetadataOf(records[|records| - 1].value.update))
  }

  /** The end of the output that has not slid out, under the last update's metadata. */
  function Window(records: seq<Record>): Option<View> {
    if LastMetadata(records).None? then None
    else Some(View(Output(records)[SlidOut(records)..], LastMetadata(records).value))
  }

  /** What one update makes of a window. */
  lemma UpdateMovesWindow(output: string, from: nat, current: Option<View>, update: Update)
    requires from <= |output| && (if current.Some? then current.value.text == output[from..] else output == "")
    ensures var shown := ApplyUpdate(current, update);
            && shown.metadata == MetadataOf(update)
            && (update.Replace? ==> shown.text == Added(update))
            && (update.Append? || update.OnlyMetadata? ==> shown.text == (output + Added(update))[from..])
            && (update.Slide? && from + update.drop <= |output| ==>
                  shown.text == (output + Added(update))[from + update.drop..])
            && (update.Slide? && from + update.drop > |output| ==> shown.text == (output + Added(update))[|output|..])
  {
    match update
    case Replace(_) =>
    case Append(_, _) =>
    case Slide(drop, _, _) => if from + drop <= |output| { assert output[from..][drop..] == output[from + drop..]; }
    case OnlyMetadata(_) => assert output + "" == output;
  }

  /** The updates, applied one after the other, show that window of the command's output. */
  lemma {:induction false} FoldIsWindow(records: seq<Record>)
    ensures Fold(records) == Window(records)
    ensures LastMetadata(records).None? ==> Output(records) == ""
  {
    hide ApplyUpdate, Added, MetadataOf;
    if records != [] {
      var before, last := records[..|records| - 1], records[|records| - 1].value;
      FoldIsWindow(before);
      if last.Updated? {
        UpdateMovesWindow(Output(before), SlidOut(before), Fold(before), last.update);
        if last.update.OnlyMetadata? {
          OnlyMetadataAddsNone(last.update);
        }
      }
    }
  }

  lemma OnlyMetadataAddsNone(update: Update)
    requires update.OnlyMetadata?
    ensures Added(update) == ""
  {
  }

  /** The stream's bytes: every line with its newline. */
  function Text(records: seq<Record>): seq<Byte> {
    if records == [] then []
    else Text(records[..|records| - 1]) + records[|records| - 1].line + [NEWLINE]
  }

  /** Where record `k` starts. */
  function Offset(records: seq<Record>, k: nat): nat
    requires k <= |records|
  {
    |Text(records[..k])|
  }

  lemma AppendRecord(records: seq<Record>, r: Record)
    ensures Text(records + [r]) == Text(records) + r.line + [NEWLINE]
    ensures Fold(records + [r]) == ShowRecord(Fold(records), r.value)
  {
    assert (records + [r])[..|records|] == records;
  }

  lemma {:induction false} TextPrefix(records: seq<Record>, k: nat)
    requires k <= |records|
    ensures Text(records[..k]) <= Text(records)
  {
    if k < |records| {
      var front := records[..|records| - 1];
      TextPrefix(front, k);
      assert front[..k] == records[..k];
    } else {
      assert records[..k] == records;
    }
  }

  lemma OffsetStep(records: seq<Record>, k: nat)
    requires k < |records|
    ensures Offset(records, k + 1) == Offset(records, k) + Size(records[k])
    ensures Offset(records, k + 1) <= |Text(records)|
    ensures Text(records)[Offset(records, k)..Offset(records, k) + |records[k].line| + 1] == records[k].line + [NEWLINE]
  {
    assert records[..k + 1][..k] == records[..k];
    TextPrefix(records, k + 1);
    TextPrefix(records, k);
    var upTo := Text(records[..k + 1]);
    assert upTo == Text(records[..k]) + (records[k].line + [NEWLINE]);
    assert Text(records)[..|upTo|] == upTo;
    assert Text(records)[Offset(records, k)..Offset(records, k) + |records[k].line| + 1] == upTo[Offset(records, k)..];
  }

  lemma {:induction false} OffsetMonotone(records: seq<Record>, j: nat, k: nat)
    requires j <= k <= |records|
    ensures Offset(records, j) <= Offset(records, k)
    ensures j < k ==> Offset(records, j) < Offset(records, k)
    decreases k - j
  {
    if j < k {
      OffsetStep(records, j);
      OffsetMonotone(records, j + 1, k);
    }
  }

  lemma OffsetEnd(records: seq<Record>)
    ensures Offset(records, |records|) == |Text(records)|
  {
    assert records[..|records|] == records;
  }

  /** Appending a record moves no earlier record. */
  lemma OffsetStable(records: seq<Record>, r: Record, k: nat)
    requires k <= |records|
    ensures Offset(records + [r], k) == Offset(records, k)
  {
    assert (records + [r])[..k] == records[..k];
  }

  lemma OffsetsDiffer(records: seq<Record>, j: nat, k: nat)
    requires j <= |records| && k <= |records| && Offset(records, j) == Offset(records, k)
    ensures j == k
  {
    if j < k {
      OffsetMonotone(records, j, k);
    } else if k < j {
      OffsetMonotone(records, k, j);
    }
  }
}
