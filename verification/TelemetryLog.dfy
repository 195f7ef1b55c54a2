/** A log of lines in a bounded number of files of bounded size (`BoundedJsonlLog`). */
module TelemetryLog {
  import opened Bytes

  /** A line with its newline. */
  type Line = seq<Byte>

  /** The files by number: 0 is written to, higher ones are older. A file that does not exist has no entry. */
  type Files = map<nat, seq<Line>>

  function Content(files: Files, i: nat): seq<Line> {
    if i in files then files[i] else []
  }

  function Size(lines: seq<Line>): nat {
    if lines == [] then 0 else Size(lines[..|lines| - 1]) + |lines[|lines| - 1]|
  }

  lemma NoLinesNoSize()
    ensures Size([]) == 0
  {
  }

  lemma SizeAppend(lines: seq<Line>, line: Line)
    ensures Size(lines + [line]) == Size(lines) + |line|
  {
    assert (lines + [line])[..|lines|] == lines;
  }

  lemma {:induction false} SizeOfFirst(lines: seq<Line>, n: nat)
    requires n <= |lines|
    ensures Size(lines[..n]) <= Size(lines)
  {
    if n == |lines| {
      assert lines[..n] == lines;
    } else {
      SizeOfFirst(lines[..|lines| - 1], n);
      assert lines[..|lines| - 1][..n] == lines[..n];
    }
  }

  lemma SizeOfNext(lines: seq<Line>, n: nat)
    requires n < |lines|
    ensures Size(lines[..n + 1]) == Size(lines[..n]) + |lines[n]| && Size(lines[..n + 1]) <= Size(lines)
  {
    SizeAppend(lines[..n], lines[n]);
    assert lines[..n] + [lines[n]] == lines[..n + 1];
    SizeOfFirst(lines, n + 1);
  }

  /** The lines of files `0..n`, oldest first. */
  function Read(files: Files, n: nat): seq<Line> {
    if n == 0 then [] else Content(files, n - 1) + Read(files, n - 1)
  }

  ghost predicate IsSuffix<T>(part: seq<T>, all: seq<T>) {
    |part| <= |all| && part == all[|all| - |part|..]
  }

  ghost predicate Fits(files: Files, max: nat) {
    forall i: nat :: Size(Content(files, i)) <= max
  }

  /** Each of the files `0..n` becomes the next, the last one goes, and there is none to write to. */
  ghost predicate IsRotated(before: Files, after: Files, n: nat) {
    && 0 !in after
    && (forall i: nat :: 1 <= i < n ==> Content(after, i) == Content(before, i - 1))
    && (forall i: nat :: i >= n && i > 0 ==> Content(after, i) == Content(before, i))
  }

  lemma {:induction false} ReadRotated(before: Files, after: Files, n: nat, k: nat)
    requires IsRotated(before, after, n) && 0 < k <= n
    ensures Read(after, k) == Read(before, k - 1)
  {
    if k == 1 {
      assert Read(after, 0) == [] && Content(after, 0) == [];
    } else {
      ReadRotated(before, after, n, k - 1);
    }
  }

  /** Rotating drops the oldest file's lines and keeps all the others, in order. */
  lemma RotatedIsSuffix(before: Files, after: Files, n: nat)
    requires IsRotated(before, after, n) && n > 0
    ensures Read(before, n) == Content(before, n - 1) + Read(after, n)
  {
    ReadRotated(before, after, n, n);
  }

  lemma {:induction false} ReadAppended(files: Files, line: Line, n: nat)
    requires n > 0
    ensures Read(files[0 := Content(files, 0) + [line]], n) == Read(files, n) + [line]
  {
    var files' := files[0 := Content(files, 0) + [line]];
    if n == 1 {
      assert Read(files', 0) == [] == Read(files, 0);
      assert Content(files, 0) + [line] + [] == Content(files, 0) + [] + [line];
    } else {
      ReadAppended(files, line, n - 1);
      Associate(Content(files, n - 1), Read(files, n - 1), [line]);
    }
  }

  lemma SuffixThrough<T>(part: seq<T>, dropped: seq<T>, all: seq<T>)
    requires IsSuffix(dropped + part, all)
    ensures IsSuffix(part, all)
  {
  }

  lemma SuffixAppend<T>(part: seq<T>, all: seq<T>, x: T)
    requires IsSuffix(part, all)
    ensures IsSuffix(part + [x], all + [x])
  {
  }

  lemma RenamedContent(before: Files, after: Files, i: nat)
    requires i + 1 !in before
    requires after == if i in before then (before - {i})[i + 1 := before[i]] else before
    ensures i !in after && Content(after, i + 1) == Content(before, i)
    ensures forall k: nat :: k != i && k != i + 1 ==> Content(after, k) == Content(before, k)
  {
  }

  lemma OneMore(all: seq<Line>, lines: seq<Line>, n: nat)
    requires n < |lines|
    ensures all + lines[..n] + [lines[n]] == all + lines[..n + 1]
  {
  }

  /** Of the lines given, the last one written ends the current file. */
  predicate EndsWith(content: seq<Line>, lines: seq<Line>, written: nat) {
    0 < written <= |lines| ==> content != [] && content[|content| - 1] == lines[written - 1]
  }

  class BoundedLog {
    const maxBytes: nat
    const maxFiles: nat
    var files: Files

    constructor (maxBytes: nat, maxFiles: nat, files: Files)
      ensures this.maxBytes == maxBytes && this.maxFiles == maxFiles && this.files == files
    {
      this.maxBytes, this.maxFiles, this.files := maxBytes, maxFiles, files;
    }

    /** How many files are kept. */
    function Kept(): (n: nat)
      ensures n >= 1
    {
      if maxFiles <= 1 then 1 else maxFiles
    }

    /** The files, read from the oldest, are the last of these lines, and each fits its bound. */
    ghost predicate Keeps(all: seq<Line>)
      reads this
    {
      IsSuffix(Read(files, Kept()), all) && Fits(files, maxBytes)
    }

    method RemoveIfPresent(i: nat)
      modifies this`files
      ensures files == old(files) - {i}
    {
      files := files - {i};
    }

    method RenameIfPresent(i: nat, to: nat)
      modifies this`files
      ensures files == if i in old(files) then (old(files) - {i})[to := old(files)[i]] else old(files)
    {
      if i in files {
        var content := files[i];
        files := (files - {i})[to := content];
      }
    }

    method Rotate()
      modifies this`files
      ensures IsRotated(old(files), files, Kept())
    {
      if maxFiles <= 1 {
        RemoveIfPresent(0);
        return;
      }
      RemoveIfPresent(maxFiles - 1);
      ghost var before := old(files);
      var i: int := maxFiles - 2;
      while i >= 1
        invariant 0 <= i <= maxFiles - 2
        invariant i + 1 !in files
        invariant forall k: nat :: i + 1 < k < maxFiles ==> Content(files, k) == Content(before, k - 1)
        invariant forall k: nat :: k <= i || k >= maxFiles ==> Content(files, k) == Content(before, k)
      {
        ghost var was := files;
        RenameIfPresent(i, i + 1);
        RenamedContent(was, files, i);
        i := i - 1;
      }
      ghost var was := files;
      RenameIfPresent(0, 1);
      RenamedContent(was, files, 0);
    }

    /** Appends the lines up to one too long for a file, which throws. The files, read from the oldest, are then still
        a suffix of all that was there and all that was appended, and each file fits its bound; and none is given up
        for lines that fit the current one. */
    method AppendNow(lines: seq<Line>, ghost all: seq<Line>) returns (written: nat, thrown: bool)
      requires Keeps(all)
      modifies this`files
      ensures written <= |lines| && (thrown <==> written < |lines|)
      ensures forall i :: 0 <= i < written ==> |lines[i]| <= maxBytes
      ensures thrown ==> |lines[written]| > maxBytes
      ensures Keeps(all + lines[..written])
      ensures EndsWith(Content(files, 0), lines, written)
      ensures old(Size(Content(files, 0))) + Size(lines) <= maxBytes ==>
                Read(files, Kept()) == old(Read(files, Kept())) + lines[..written]
    {
      var currentSize := Size(Content(files, 0));
      written, thrown := 0, false;
      ghost var so := all;
      ghost var startSize, startLines := currentSize, Read(files, Kept());
      assert all + lines[..0] == all && startLines + lines[..0] == startLines;
      assert Size(lines[..0]) == 0;
      hide Read, Size, IsSuffix, Fits, Content, IsRotated, BoundedLog.Keeps;
      while written < |lines|
        invariant written <= |lines|
        invariant forall i :: 0 <= i < written ==> |lines[i]| <= maxBytes
        invariant currentSize == Size(Content(files, 0))
        invariant Keeps(so) && so == all + lines[..written]
        invariant EndsWith(Content(files, 0), lines, written)
        invariant startSize + Size(lines) <= maxBytes ==>
          && Read(files, Kept()) == startLines + lines[..written]
          && currentSize == startSize + Size(lines[..written])
      {
        var line := lines[written];
        if |line| > maxBytes {
          return written, true;
        }
        SizeOfNext(lines, written);
        currentSize := AppendOne(line, currentSize, so);
        OneMore(all, lines, written);
        OneMore(startLines, lines, written);
        so := so + [line];
        written := written + 1;
      }
    }

    /** Into a new file if the current one has no room left. */
    method AppendOne(line: Line, size: nat, ghost all: seq<Line>) returns (currentSize: nat)
      requires Keeps(all) && size == Size(Content(files, 0)) && |line| <= maxBytes
      modifies this`files
      ensures Keeps(all + [line]) && currentSize == Size(Content(files, 0))
      ensures Content(files, 0) != [] && Content(files, 0)[|Content(files, 0)| - 1] == line
      ensures size + |line| <= maxBytes ==>
                Read(files, Kept()) == old(Read(files, Kept())) + [line] && currentSize == size + |line|
      ensures size > 0 && size + |line| > maxBytes ==> Content(files, 0) == [line]
      ensures size > 0 && size + |line| > maxBytes && maxFiles > 1 ==> Content(files, 1) == old(Content(files, 0))
    {
      hide Read, Size, IsSuffix, Fits, Content, IsRotated, BoundedLog.Keeps;
      currentSize := size;
      if currentSize > 0 && currentSize + |line| > maxBytes {
        RotateAll(all);
        NoLinesNoSize();
        currentSize := 0;
      }
      AppendLine(line, all);
      currentSize := currentSize + |line|;
    }

    method RotateAll(ghost all: seq<Line>)
      requires Keeps(all)
      modifies this`files
      ensures Keeps(all) && Content(files, 0) == []
      ensures maxFiles > 1 ==> Content(files, 1) == old(Content(files, 0))
    {
      ghost var before := files;
      Rotate();
      RotatedIsSuffix(before, files, Kept());
      SuffixThrough(Read(files, Kept()), Content(before, Kept() - 1), all);
      assert forall i: nat :: Size(Content(files, i)) <= maxBytes by {
        forall i: nat
          ensures Size(Content(files, i)) <= maxBytes
        {
          assert i > 0 ==> Content(files, i) == Content(before, if i < Kept() then i - 1 else i);
        }
      }
    }

    method AppendLine(line: Line, ghost all: seq<Line>)
      requires Keeps(all)
      requires Size(Content(files, 0)) + |line| <= maxBytes
      modifies this`files
      ensures Keeps(all + [line])
      ensures Content(files, 0) == old(Content(files, 0)) + [line]
      ensures Read(files, Kept()) == old(Read(files, Kept())) + [line]
      ensures forall i: nat :: i > 0 ==> Content(files, i) == old(Content(files, i))
      ensures Size(Content(files, 0)) == old(Size(Content(files, 0))) + |line|
    {
      ReadAppended(files, line, Kept());
      SuffixAppend(Read(files, Kept()), all, line);
      SizeAppend(Content(files, 0), line);
      ghost var before := files;
      var content := Content(files, 0);
      files := files[0 := content + [line]];
      assert forall i: nat :: i != 0 ==> Content(files, i) == Content(before, i);
      assert forall i: nat :: Size(Content(files, i)) <= maxBytes;
    }
  }
}
