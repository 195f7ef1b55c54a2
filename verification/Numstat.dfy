/** The file summaries of `git diff --numstat -z` (`parseNumstat`), against a printer of that format. */
module Numstat {
  import opened Bytes

  /** A file's lines added and removed, none for a binary file, and its old path for a rename. */
  datatype Change = Change(path: string, oldPath: Option<string>, counts: Option<(nat, nat)>)

  /** What the parser makes of one: a field past the end of the output is undefined. */
  datatype Summary = Summary(path: Option<string>, oldPath: Option<string>, additions: int, removals: int)

  const NUL := '\0'
  const TAB := '\t'

  // ---- The format ----

  function Digit(n: nat): char
    requires n < 10
  {
    ['0', '1', '2', '3', '4', '5', '6', '7', '8', '9'][n]
  }

  function Decimal(n: nat): (s: string)
    ensures s != []
  {
    if n < 10 then [Digit(n)] else Decimal(n / 10) + [Digit(n % 10)]
  }

  function PrintCount(counts: Option<(nat, nat)>, added: bool): string {
    if counts.None? then "-" else Decimal(if added then counts.value.0 else counts.value.1)
  }

  /** Up to and with its tabs. */
  function PrintCounts(counts: Option<(nat, nat)>): string {
    PrintCount(counts, true) + [TAB] + PrintCount(counts, false) + [TAB]
  }

  function PrintChange(c: Change): string {
    if c.oldPath.None? then PrintCounts(c.counts) + c.path + [NUL]
    else PrintCounts(c.counts) + [NUL] + (c.oldPath.value + [NUL] + (c.path + [NUL]))
  }

  function Print(changes: seq<Change>): string {
    if changes == [] then [] else PrintChange(changes[0]) + Print(changes[1..])
  }

  // ---- The parser ----

  function IndexOf(s: string, c: char, from: nat): (i: int)
    ensures i == -1 || from <= i < |s|
    decreases |s| - from
  {
    if from >= |s| then -1 else if s[from] == c then from else IndexOf(s, c, from + 1)
  }

  /** JavaScript's `slice`: a negative position counts from the end. */
  function Position(s: string, i: int): (p: nat)
    ensures p <= |s|
  {
    if i >= 0 then (if i < |s| then i else |s|) else if |s| + i > 0 then |s| + i else 0
  }

  function Slice(s: string, from: int, to: int): string {
    if Position(s, from) <= Position(s, to) then s[Position(s, from)..Position(s, to)] else []
  }

  /** Between positions in the string it is the characters between them; to -1, as for a tab that is missing, all but
      the last character. */
  lemma SlicesAsJavaScript(s: string, from: nat, to: nat)
    ensures from <= to <= |s| ==> Slice(s, from, to) == s[from..to]
    ensures from <= |s| < to ==> Slice(s, from, to) == s[from..]
    ensures s != [] && from < |s| ==> Slice(s, from, -1) == s[from..|s| - 1]
    ensures from >= |s| || to <= from ==> Slice(s, from, to) == Slice(s, from + |s|, -1) == []
  {
  }

  function Split(s: string): (fields: seq<string>)
    ensures fields != []
  {
    if s == [] then [[]]
    else
      var rest := Split(s[1..]);
      if s[0] == NUL then [[]] + rest else [[s[0]] + rest[0]] + rest[1..]
  }

  predicate IsDigit(c: char) {
    '0' <= c <= '9'
  }

  function DigitsFrom(s: string, value: nat): nat {
    if s == [] || !IsDigit(s[0]) then value else DigitsFrom(s[1..], 10 * value + (s[0] as int - '0' as int))
  }

  /** `parseInt(value, 10) || 0`: a sign, then digits up to the first other character. */
  function ParseInt(s: string): int {
    if s != [] && s[0] == '-' then 0 - DigitsFrom(s[1..], 0)
    else if s != [] && s[0] == '+' then DigitsFrom(s[1..], 0)
    else DigitsFrom(s, 0)
  }

  function Count(s: string): int {
    if s == "-" then 0 else ParseInt(s)
  }

  function FirstTab(field: string): int {
    IndexOf(field, TAB, 0)
  }

  function SecondTab(field: string): int {
    IndexOf(field, TAB, FirstTab(field) + 1)
  }

  function Field(fields: seq<string>, i: nat): Option<string> {
    if i < |fields| then Some(fields[i]) else None
  }

  function PathOf(field: string): string {
    Slice(field, SecondTab(field) + 1, |field|)
  }

  /** The summary of the entry that begins at field `i`. */
  function SummaryAt(fields: seq<string>, i: nat): Summary
    requires i < |fields|
  {
    var field := fields[i];
    var additions, removals := Count(Slice(field, 0, FirstTab(field))),
      Count(Slice(field, FirstTab(field) + 1, SecondTab(field)));
    if PathOf(field) != [] then Summary(Some(PathOf(field)), None, additions, removals)
    else Summary(Field(fields, i + 2), Field(fields, i + 1), additions, removals)
  }

  function ParseFrom(fields: seq<string>, i: nat): seq<Summary>
    decreases |fields| - i
  {
    if i >= |fields| then []
    else if fields[i] == [] then ParseFrom(fields, i + 1)
    else [SummaryAt(fields, i)] + ParseFrom(fields, if PathOf(fields[i]) != [] then i + 1 else i + 3)
  }

  method ParseNumstat(raw: string) returns (files: seq<Summary>)
    ensures files == ParseFrom(Split(raw), 0)
  {
    hide Split, Count, Slice, IndexOf;
    var fields := Split(raw);
    files := [];
    var i := 0;
    while i < |fields|
      invariant ParseFrom(fields, 0) == files + ParseFrom(fields, i)
      decreases |fields| - i
    {
      var field := fields[i];
      if field != [] {
        var firstTab := IndexOf(field, TAB, 0);
        var secondTab := IndexOf(field, TAB, firstTab + 1);
        var additions, removals := Count(Slice(field, 0, firstTab)), Count(Slice(field, firstTab + 1, secondTab));
        var path := Slice(field, secondTab + 1, |field|);
        ghost var at := i;
        ghost var before := files;
        if path != [] {
          files := files + [Summary(Some(path), None, additions, removals)];
        } else {
          files := files + [Summary(Field(fields, i + 2), Field(fields, i + 1), additions, removals)];
          i := i + 2;
        }
        assert files == before + [SummaryAt(fields, at)];
        Associate(before, [SummaryAt(fields, at)], ParseFrom(fields, i + 1));
      }
      i := i + 1;
    }
  }

  // ---- The parser undoes the printer ----

  predicate NoNul(s: string) {
    NUL !in s
  }

  predicate Printable(c: Change) {
    c.path != [] && NoNul(c.path) && (c.oldPath.Some? ==> NoNul(c.oldPath.value))
  }

  function Expected(c: Change): Summary {
    Summary(Some(c.path), c.oldPath, if c.counts.Some? then c.counts.value.0 else 0, if c.counts.Some? then
      c.counts.value.1 else 0)
  }

  function AllExpected(changes: seq<Change>): seq<Summary> {
    if changes == [] then [] else [Expected(changes[0])] + AllExpected(changes[1..])
  }

  lemma {:induction false} SplitField(a: string, rest: string)
    requires NoNul(a)
    ensures Split(a + [NUL] + rest) == [a] + Split(rest)
  {
    var s := a + [NUL] + rest;
    if a == [] {
      assert s[1..] == rest;
    } else {
      SplitField(a[1..], rest);
      assert s[1..] == a[1..] + [NUL] + rest;
      assert s[0] == a[0] != NUL;
      assert ([a[1..]] + Split(rest))[1..] == Split(rest);
      assert [a[0]] + a[1..] == a;
    }
  }

  predicate AllDigits(s: string) {
    forall i :: 0 <= i < |s| ==> IsDigit(s[i])
  }

  lemma {:induction false} DecimalDigits(n: nat)
    ensures AllDigits(Decimal(n))
  {
    if n >= 10 {
      DecimalDigits(n / 10);
    }
  }

  lemma {:induction false} DigitsOfInit(s: string, last: char, value: nat)
    requires AllDigits(s) && IsDigit(last)
    ensures DigitsFrom(s + [last], value) == 10 * DigitsFrom(s, value) + (last as int - '0' as int)
  {
    if s == [] {
      assert (s + [last])[1..] == [];
    } else {
      assert (s + [last])[1..] == s[1..] + [last];
      DigitsOfInit(s[1..], last, 10 * value + (s[0] as int - '0' as int));
    }
  }

  /** Reading a decimal gives the number back. */
  lemma {:induction false} DecimalRoundTrip(n: nat)
    ensures DigitsFrom(Decimal(n), 0) == n
  {
    DigitValue(n % 10);
    if n < 10 {
      assert Decimal(n)[1..] == [];
    } else {
      DecimalRoundTrip(n / 10);
      DecimalDigits(n / 10);
      DigitsOfInit(Decimal(n / 10), Digit(n % 10), 0);
    }
  }

  lemma DigitValue(d: nat)
    requires d < 10
    ensures IsDigit(Digit(d)) && Digit(d) as int - '0' as int == d
  {
  }

  lemma CountRoundTrip(n: nat)
    ensures Count(Decimal(n)) == n
  {
    DecimalRoundTrip(n);
    DecimalDigits(n);
    assert IsDigit(Decimal(n)[0]);
  }

  lemma {:induction false} DigitsEnd(s: string, rest: string, value: nat)
    requires AllDigits(s) && (rest != [] ==> !IsDigit(rest[0]))
    ensures DigitsFrom(s + rest, value) == DigitsFrom(s, value)
  {
    if s == [] {
      assert [] + rest == rest;
    } else {
      assert (s + rest)[1..] == s[1..] + rest;
      DigitsEnd(s[1..], rest, 10 * value + (s[0] as int - '0' as int));
    }
  }

  lemma DecimalThenRest(n: nat, rest: string)
    requires rest != [] ==> !IsDigit(rest[0])
    ensures DigitsFrom(Decimal(n) + rest, 0) == n && Decimal(n) != [] && IsDigit(Decimal(n)[0])
  {
    DecimalRoundTrip(n);
    DecimalDigits(n);
    DigitsEnd(Decimal(n), rest, 0);
  }

  /** A count is a number with a sign or none, whatever follows its digits. */
  lemma CountReads(n: nat, rest: string)
    requires rest != [] ==> !IsDigit(rest[0])
    ensures Count(Decimal(n) + rest) == n
    ensures Count(['+'] + (Decimal(n) + rest)) == n && Count(['-'] + (Decimal(n) + rest)) == 0 - n
  {
    DecimalThenRest(n, rest);
    var digits := Decimal(n) + rest;
    assert digits[0] == Decimal(n)[0];
    assert (['+'] + digits)[1..] == digits == (['-'] + digits)[1..];
    hide DigitsFrom, Decimal;
    assert |['-'] + digits| > 1;
  }

  /** What begins with no number counts 0. */
  lemma NoNumberIsZero(s: string)
    requires s == [] || (!IsDigit(s[0]) && s[0] != '+' && s[0] != '-')
    ensures Count(s) == 0 && Count("-") == 0 && Count("+") == 0
  {
    assert "+"[1..] == [];
  }

  lemma PrintedCount(counts: Option<(nat, nat)>, added: bool)
    ensures var s := PrintCount(counts, added);
            TAB !in s && NoNul(s) && s != []
    ensures Count(PrintCount(counts, added)) == if counts.None? then 0 else if added then counts.value.0
        else counts.value.1
  {
    if counts.Some? {
      var n := if added then counts.value.0 else counts.value.1;
      CountRoundTrip(n);
      DecimalDigits(n);
    }
  }

  lemma {:induction false} IndexOfSkips(s: string, c: char, from: nat, at: nat)
    requires from <= at < |s| && s[at] == c && forall i :: from <= i < at ==> s[i] != c
    ensures IndexOf(s, c, from) == at
    decreases at - from
  {
    if from < at {
      IndexOfSkips(s, c, from + 1, at);
    }
  }

  /** A field that starts with the printed counts is read as them, and the rest as its path. */
  lemma ReadCounts(counts: Option<(nat, nat)>, path: string)
    ensures var field := PrintCounts(counts) + path;
            && field != [] && PathOf(field) == path
            && Count(Slice(field, 0, FirstTab(field))) == (if counts.None? then 0 else counts.value.0)
            && Count(Slice(field, FirstTab(field) + 1, SecondTab(field)))
                 == (if counts.None? then 0 else counts.value.1)
  {
    var added, removed := PrintCount(counts, true), PrintCount(counts, false);
    var field := PrintCounts(counts) + path;
    PrintedCount(counts, true);
    PrintedCount(counts, false);
    hide PrintCount, Count, IndexOf;
    assert field == added + [TAB] + removed + [TAB] + path;
    IndexOfSkips(field, TAB, 0, |added|);
    IndexOfSkips(field, TAB, |added| + 1, |added| + 1 + |removed|);
    assert field[0..|added|] == added;
    assert field[|added| + 1..|added| + 1 + |removed|] == removed;
    assert field[|added| + 1 + |removed| + 1..] == path;
  }

  lemma ParseStep(fields: seq<string>, i: nat)
    ensures ParseFrom(fields, i) ==
            if i >= |fields| then []
            else if fields[i] == [] then ParseFrom(fields, i + 1)
            else [SummaryAt(fields, i)] + ParseFrom(fields, if PathOf(fields[i]) != [] then i + 1 else i + 3)
  {
  }

  /** Parsing fields that follow others is parsing them alone. */
  lemma {:induction false} ParseShift(before: seq<string>, fields: seq<string>, i: nat)
    ensures ParseFrom(before + fields, |before| + i) == ParseFrom(fields, i)
    decreases |fields| - i
  {
    hide PathOf, SummaryAt, ParseFrom;
    var all := before + fields;
    ParseStep(all, |before| + i);
    ParseStep(fields, i);
    if i < |fields| {
      assert all[|before| + i] == fields[i];
      ParseShift(before, fields, i + 1);
      if fields[i] != [] {
        SummaryShift(before, fields, i);
        ParseShift(before, fields, i + 3);
      }
    }
  }

  lemma SummaryShift(before: seq<string>, fields: seq<string>, i: nat)
    requires i < |fields|
    ensures SummaryAt(before + fields, |before| + i) == SummaryAt(fields, i)
  {
    hide PathOf, Count, Slice, FirstTab, SecondTab;
    assert Field(before + fields, |before| + i + 1) == Field(fields, i + 1);
    assert Field(before + fields, |before| + i + 2) == Field(fields, i + 2);
  }

  /** What one printed change is split into. */
  function FieldsOf(c: Change): seq<string> {
    if c.oldPath.None? then [PrintCounts(c.counts) + c.path] else [PrintCounts(c.counts), c.oldPath.value, c.path]
  }

  lemma SplitChange(c: Change, rest: string)
    requires Printable(c)
    ensures Split(PrintChange(c) + rest) == FieldsOf(c) + Split(rest)
  {
    var counts := PrintCounts(c.counts);
    PrintedCount(c.counts, true);
    PrintedCount(c.counts, false);
    assert NoNul(counts);
    hide PrintCounts, Split;
    if c.oldPath.None? {
      SplitField(counts + c.path, rest);
    } else {
      var first, second, third := counts + [NUL], c.oldPath.value + [NUL], c.path + [NUL];
      SplitField(c.path, rest);
      SplitField(c.oldPath.value, third + rest);
      SplitField(counts, second + (third + rest));
      Associate(first, second + third, rest);
      Associate(second, third, rest);
    }
  }

  /** For every list of changes, renames and binary files included, whose paths are not empty and hold no NUL, the
      parser gives back the list that was printed. */
  lemma {:induction false} ParseUndoesPrint(changes: seq<Change>)
    requires forall i :: 0 <= i < |changes| ==> Printable(changes[i])
    ensures ParseFrom(Split(Print(changes)), 0) == AllExpected(changes)
  {
    if changes == [] {
      assert Split([]) == [[]];
      assert ParseFrom([[]], 1) == [];
    } else {
      var c, rest := changes[0], Print(changes[1..]);
      ParseUndoesPrint(changes[1..]);
      SplitChange(c, rest);
      ParseChange(c, Split(rest));
    }
  }

  lemma ParseChange(c: Change, rest: seq<string>)
    requires Printable(c)
    ensures ParseFrom(FieldsOf(c) + rest, 0) == [Expected(c)] + ParseFrom(rest, 0)
  {
    SummaryOfFields(c, rest);
    ParseShift(FieldsOf(c), rest, 0);
    hide PathOf, SummaryAt, PrintCounts;
    assert (FieldsOf(c) + rest)[0] != [];
  }

  /** The fields of a printed change are read back as that change, and as many as they are. */
  lemma SummaryOfFields(c: Change, rest: seq<string>)
    requires Printable(c)
    ensures var fields := FieldsOf(c) + rest;
            && fields[0] != [] && SummaryAt(fields, 0) == Expected(c)
            && (PathOf(fields[0]) == [] <==> c.oldPath.Some?)
  {
    hide PathOf, Count, Slice, FirstTab, SecondTab, PrintCounts;
    if c.oldPath.None? {
      ReadCounts(c.counts, c.path);
    } else {
      ReadCounts(c.counts, "");
      assert PrintCounts(c.counts) + "" == PrintCounts(c.counts);
    }
  }
}
