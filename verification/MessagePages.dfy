/** Pages of a session's transcript (`loadMessagePage`): a limit that gives way to keep tool calls with their
    results at a page's edge. */
module MessagePages {
  import opened Bytes

  type CallId = nat

  datatype Message = User | Assistant(calls: set<CallId>) | ToolResult(call: CallId) | Compaction

  /** A row the transcript displays. */
  datatype Row = Row(seqNo: int, message: Message)

  /** One session's display rows in order. */
  type Transcript = seq<Row>

  const MAX_SAFE_INTEGER := 9007199254740991

  ghost predicate Sorted(t: Transcript) {
    forall i, j :: 0 <= i < j < |t| ==> t[i].seqNo < t[j].seqNo
  }

  ghost predicate SafeSeqs(t: Transcript) {
    forall i :: 0 <= i < |t| ==> 0 <= t[i].seqNo < MAX_SAFE_INTEGER
  }

  // ---- The queries ----

  /** How many rows come before sequence number `s`. */
  function Rank(t: Transcript, s: int): (n: nat)
    ensures n <= |t|
  {
    if t == [] then 0 else if t[|t| - 1].seqNo < s then |t| else Rank(t[..|t| - 1], s)
  }

  lemma {:induction false} RankSplits(t: Transcript, s: int)
    requires Sorted(t)
    ensures forall i :: 0 <= i < Rank(t, s) ==> t[i].seqNo < s
    ensures forall i :: Rank(t, s) <= i < |t| ==> t[i].seqNo >= s
  {
    if t != [] && t[|t| - 1].seqNo >= s {
      RankSplits(t[..|t| - 1], s);
    }
  }

  /** The rows with `from <= seqNo < to`, in order. */
  function Between(t: Transcript, from: int, to: int): Transcript {
    if t == [] then []
    else
      var last := t[|t| - 1];
      Between(t[..|t| - 1], from, to) + if from <= last.seqNo < to then [last] else []
  }

  lemma RankIsMonotone(t: Transcript, from: int, to: int)
    requires Sorted(t) && from <= to
    ensures Rank(t, from) <= Rank(t, to)
  {
    RankSplits(t, from);
    RankSplits(t, to);
    assert Rank(t, to) < |t| ==> t[Rank(t, to)].seqNo >= to;
  }

  /** A row's rank is its index. */
  lemma RankOfRow(t: Transcript, i: nat)
    requires Sorted(t) && i < |t|
    ensures Rank(t, t[i].seqNo) == i && Rank(t, t[i].seqNo + 1) == i + 1
  {
    RankSplits(t, t[i].seqNo);
    RankSplits(t, t[i].seqNo + 1);
    assert i + 1 < |t| ==> t[i + 1].seqNo > t[i].seqNo;
  }

  lemma {:induction false} BetweenIsSlice(t: Transcript, from: int, to: int)
    requires Sorted(t) && from <= to
    ensures Rank(t, from) <= Rank(t, to)
    ensures Between(t, from, to) == t[Rank(t, from)..Rank(t, to)]
  {
    RankIsMonotone(t, from, to);
    if t != [] {
      var init, last := t[..|t| - 1], t[|t| - 1];
      BetweenIsSlice(init, from, to);
      RankOfInit(t, from);
      RankOfInit(t, to);
      hide Rank, Sorted;
      var low, high := Rank(init, from), Rank(init, to);
      if from <= last.seqNo < to {
        assert Rank(t, from) == low && high == |init| && Rank(t, to) == |t|;
        SliceToEnd(t, low);
      } else if last.seqNo < from {
        assert Rank(t, from) == Rank(t, to) == |t| && low == high == |init|;
      } else {
        assert init[low..high] == t[low..high];
      }
    }
  }

  lemma SliceToEnd(t: Transcript, low: nat)
    requires low < |t|
    ensures t[..|t| - 1][low..|t| - 1] + [t[|t| - 1]] == t[low..|t|]
  {
  }

  lemma RankOfInit(t: Transcript, s: int)
    requires Sorted(t) && t != []
    ensures Rank(t, s) == if t[|t| - 1].seqNo < s then |t| else Rank(t[..|t| - 1], s)
    ensures t[|t| - 1].seqNo < s ==> Rank(t[..|t| - 1], s) == |t| - 1
  {
    RankSplits(t[..|t| - 1], s);
  }

  /** The first rows after `s`, at most `limit`. */
  function FirstAfter(t: Transcript, s: int, limit: nat): Transcript {
    var from := Rank(t, s + 1);
    if from + limit <= |t| then t[from..from + limit] else t[from..]
  }

  /** The last rows before `s`, at most `limit`. */
  function LastBefore(t: Transcript, s: int, limit: nat): Transcript {
    var to := Rank(t, s);
    if limit <= to then t[to - limit..to] else t[..to]
  }

  predicate Issues(row: Row, call: CallId) {
    row.message.Assistant? && call in row.message.calls
  }

  predicate Answers(row: Row, calls: set<CallId>) {
    row.message.ToolResult? && row.message.call in calls
  }

  /** The latest assistant row before `s` that issued the call. */
  function IssuerOf(t: Transcript, call: CallId, s: int): (issuer: Option<int>)
    ensures issuer.Some? ==> exists i :: 0 <= i < |t| && t[i].seqNo == issuer.value < s && Issues(t[i], call)
    ensures issuer.None? ==> forall i :: 0 <= i < |t| && t[i].seqNo < s ==> !Issues(t[i], call)
  {
    if t == [] then None
    else if t[|t| - 1].seqNo < s && Issues(t[|t| - 1], call) then Some(t[|t| - 1].seqNo)
    else IssuerOf(t[..|t| - 1], call, s)
  }

  lemma {:induction false} IssuerIsLatest(t: Transcript, call: CallId, s: int)
    requires Sorted(t)
    ensures var issuer := IssuerOf(t, call, s);
            issuer.Some? ==> forall i :: 0 <= i < |t| && issuer.value < t[i].seqNo < s ==> !Issues(t[i], call)
  {
    if t != [] && !(t[|t| - 1].seqNo < s && Issues(t[|t| - 1], call)) {
      IssuerIsLatest(t[..|t| - 1], call, s);
    }
  }

  /** The latest result after `s` of any of the calls. */
  function LastResultOf(t: Transcript, calls: set<CallId>, s: int): (result: Option<int>)
    ensures result.Some? ==> exists i :: 0 <= i < |t| && t[i].seqNo == result.value > s && Answers(t[i], calls)
    ensures result.None? ==> forall i :: 0 <= i < |t| && t[i].seqNo > s ==> !Answers(t[i], calls)
  {
    if t == [] then None
    else if t[|t| - 1].seqNo > s && Answers(t[|t| - 1], calls) then Some(t[|t| - 1].seqNo)
    else LastResultOf(t[..|t| - 1], calls, s)
  }

  lemma {:induction false} LastResultIsLast(t: Transcript, calls: set<CallId>, s: int)
    requires Sorted(t)
    ensures var result := LastResultOf(t, calls, s);
            result.Some? ==> forall i :: 0 <= i < |t| && t[i].seqNo > result.value ==> !Answers(t[i], calls)
  {
    if t != [] && !(t[|t| - 1].seqNo > s && Answers(t[|t| - 1], calls)) {
      LastResultIsLast(t[..|t| - 1], calls, s);
    }
  }

  /** Whether a row has `seqNo < s`, or one has `seqNo >= s`. */
  predicate AnyBefore(t: Transcript, s: int) {
    exists i :: 0 <= i < |t| && t[i].seqNo < s
  }

  predicate AnyFrom(t: Transcript, s: int) {
    exists i :: 0 <= i < |t| && t[i].seqNo >= s
  }

  // ---- A page ----

  datatype Position = AtEnd | BeforeSeq(s: int) | AfterSeq(s: int)

  datatype Page = Page(items: Transcript, hasPrevious: bool, previous: Option<int>, hasNext: bool, end: Option<int>)

  function Boundary(position: Position): int {
    if position.AtEnd? then MAX_SAFE_INTEGER else position.s
  }

  /** Where the page would start and end before its edge gives way. */
  function Window(t: Transcript, limit: nat, position: Position): (nat, nat) {
    var at := Rank(t, if position.AfterSeq? then position.s + 1 else Boundary(position));
    if position.AfterSeq? then (at, if at + limit <= |t| then at + limit else |t|)
    else (if limit <= at then at - limit else 0, at)
  }

  /** The start of a page that would begin at row `from` given backward: the row that issued the call whose result it
      would begin with, if there is one. */
  function StartOf(t: Transcript, from: nat): (start: nat)
    requires from < |t|
  {
    if !t[from].message.ToolResult? then from
    else
      var issuer := IssuerOf(t, t[from].message.call, t[from].seqNo);
      if issuer.None? then from else Rank(t, issuer.value)
  }

  /** The end of a page that would end before row `to` given forward: past the last result of the calls that its last
      row issues. */
  function EndOf(t: Transcript, to: nat): (end: nat)
    requires 0 < to <= |t|
  {
    if !t[to - 1].message.Assistant? || t[to - 1].message.calls == {} then to
    else
      var result := LastResultOf(t, t[to - 1].message.calls, t[to - 1].seqNo);
      if result.None? then to else Rank(t, result.value + 1)
  }

  /** Where a page starts and ends. */
  function Edges(t: Transcript, limit: nat, position: Position): (edges: (nat, nat)) {
    var (from, to) := Window(t, limit, position);
    if from >= to then (from, to)
    else if position.AfterSeq? then (from, EndOf(t, to))
    else (StartOf(t, from), to)
  }

  /** Backward, the page starts on a row whose issuer is not in the transcript before it, unless it is no result. */
  lemma StartIsIssuer(t: Transcript, from: nat)
    requires Sorted(t) && from < |t|
    ensures var start := StartOf(t, from);
            && start <= from
            && (t[start].message.ToolResult? ==> start == from && forall i :: 0 <= i < start ==>
                  !Issues(t[i], t[start].message.call))
            && (start != from ==> t[from].message.ToolResult? && Issues(t[start], t[from].message.call)
                                  && forall i :: start < i < from ==> !Issues(t[i], t[from].message.call))
  {
    if t[from].message.ToolResult? {
      var issuer := IssuerOf(t, t[from].message.call, t[from].seqNo);
      if issuer.Some? {
        var i :| 0 <= i < |t| && t[i].seqNo == issuer.value < t[from].seqNo && Issues(t[i], t[from].message.call);
        RankOfRow(t, i);
        IssuerIsLatest(t, t[from].message.call, t[from].seqNo);
        assert i < from;
      }
    }
  }

  /** Forward, the page does not end on calls with a later result. */
  lemma EndIsLastResult(t: Transcript, to: nat)
    requires Sorted(t) && 0 < to <= |t|
    ensures var end := EndOf(t, to);
            && to <= end <= |t|
            && (t[end - 1].message.Assistant? ==> end == to && forall i :: end <= i < |t| ==>
                  !Answers(t[i], t[end - 1].message.calls))
            && (end != to ==> t[to - 1].message.Assistant? && Answers(t[end - 1], t[to - 1].message.calls)
                              && forall i :: end <= i < |t| ==> !Answers(t[i], t[to - 1].message.calls))
  {
    if t[to - 1].message.Assistant? {
      var calls, s := t[to - 1].message.calls, t[to - 1].seqNo;
      var result := LastResultOf(t, calls, s);
      if calls != {} && result.Some? {
        var i :| 0 <= i < |t| && t[i].seqNo == result.value > s && Answers(t[i], calls);
        RankOfRow(t, i);
        LastResultIsLast(t, calls, s);
        assert i > to - 1;
      }
    }
  }

  lemma EdgesInOrder(t: Transcript, limit: nat, position: Position)
    requires Sorted(t)
    ensures var (from, to), (start, end) := Edges(t, limit, position), Window(t, limit, position);
            && from <= start <= end <= to <= |t|
            && (start == end ==> from == start && to == end)
            && (position.AfterSeq? ==> from == start) && (!position.AfterSeq? ==> to == end)
  {
    var (start, end) := Window(t, limit, position);
    if start < end {
      StartIsIssuer(t, start);
      EndIsLastResult(t, end);
    }
  }

  /** A page of the rows `from..to`. */
  function PageWith(t: Transcript, position: Position, from: nat, to: nat): Page
    requires from <= to <= |t|
  {
    Page(t[from..to], from > 0,
         if from == 0 then None else if from < to then Some(t[from].seqNo) else Some(Boundary(position)),
         to < |t|,
         if from < to then Some(t[to - 1].seqNo) else if position.AfterSeq? then Some(position.s) else None)
  }

  function PageOf(t: Transcript, limit: nat, position: Position): Page
    requires Sorted(t)
  {
    EdgesInOrder(t, limit, position);
    PageWith(t, position, Edges(t, limit, position).0, Edges(t, limit, position).1)
  }

  /** `loadMessagePage`. */
  method LoadMessagePage(t: Transcript, limit: nat, position: Position) returns (page: Page)
    requires Sorted(t)
    ensures page == PageOf(t, limit, position)
  {
    var forward := position.AfterSeq?;
    ghost var (start, stop) := Window(t, limit, position);
    var items := if forward then FirstAfter(t, position.s, limit) else LastBefore(t, Boundary(position), limit);
    assert items == t[start..stop];
    if items == [] {
      var boundary := if forward then Boundary(position) + 1 else Boundary(position);
      RankAndAny(t, boundary);
      EmptyWindow(t, limit, position);
      var hasPrevious, hasNext := AnyBefore(t, boundary), AnyFrom(t, boundary);
      page := Page([], hasPrevious, if hasPrevious then Some(Boundary(position)) else None,
                   hasNext, if forward then Some(Boundary(position)) else None);
    } else {
      EdgesInOrder(t, limit, position);
      hide Rank, StartOf, EndOf, Window, FirstAfter, LastBefore, Sorted;
      if forward {
        items := WithResults(t, items, start, stop);
      } else {
        items := WithIssuer(t, items, start, stop);
      }
      page := Describe(t, items, Edges(t, limit, position).0, Edges(t, limit, position).1);
    }
  }

  lemma Join(t: Transcript, from: nat, mid: nat, to: nat)
    requires from <= mid <= to <= |t|
    ensures t[from..mid] + t[mid..to] == t[from..to]
  {
  }

  method WithIssuer(t: Transcript, items: Transcript, ghost start: nat, ghost stop: nat) returns (longer: Transcript)
    requires Sorted(t) && start < stop <= |t| && items == t[start..stop]
    ensures StartOf(t, start) <= start && longer == t[StartOf(t, start)..stop]
  {
    longer := items;
    StartIsIssuer(t, start);
    hide Rank, Between, Sorted, Answers, Issues;
    if items[0].message.ToolResult? {
      var issuer := IssuerOf(t, items[0].message.call, items[0].seqNo);
      if issuer.Some? {
        RankOfRow(t, start);
        BetweenIsSlice(t, issuer.value, items[0].seqNo);
        Join(t, Rank(t, issuer.value), start, stop);
        longer := Between(t, issuer.value, items[0].seqNo) + items;
      }
    }
  }

  lemma EndReaches(t: Transcript, to: nat)
    requires Sorted(t) && 0 < to <= |t|
    ensures to <= EndOf(t, to) <= |t|
  {
    EndIsLastResult(t, to);
  }

  method WithResults(t: Transcript, items: Transcript, ghost start: nat, ghost stop: nat) returns (longer: Transcript)
    requires Sorted(t) && start < stop <= |t| && items == t[start..stop]
    ensures stop <= EndOf(t, stop) && longer == t[start..EndOf(t, stop)]
  {
    hide Rank, Between, Sorted, Answers, Issues, LastResultOf;
    longer := items;
    EndReaches(t, stop);
    var last := items[|items| - 1];
    if last.message.Assistant? {
      var result := if last.message.calls == {} then None else LastResultOf(t, last.message.calls, last.seqNo);
      if result.Some? {
        RankOfRow(t, stop - 1);
        BetweenIsSlice(t, last.seqNo + 1, result.value + 1);
        Join(t, start, stop, Rank(t, result.value + 1));
        longer := items + Between(t, last.seqNo + 1, result.value + 1);
      }
    }
  }

  method Describe(t: Transcript, items: Transcript, ghost from: nat, ghost to: nat) returns (page: Page)
    requires Sorted(t) && from < to <= |t| && items == t[from..to]
    ensures forall position: Position :: page == PageWith(t, position, from, to)
  {
    var firstSeq, lastSeq := items[0].seqNo, items[|items| - 1].seqNo;
    RankOfRow(t, from);
    RankOfRow(t, to - 1);
    RankAndAny(t, firstSeq);
    RankAndAny(t, lastSeq + 1);
    var hasPrevious, hasNext := AnyBefore(t, firstSeq), AnyFrom(t, lastSeq + 1);
    page := Page(items, hasPrevious, if hasPrevious then Some(firstSeq) else None, hasNext, Some(lastSeq));
  }

  lemma RankAndAny(t: Transcript, s: int)
    requires Sorted(t)
    ensures AnyBefore(t, s) <==> Rank(t, s) > 0
    ensures AnyFrom(t, s) <==> Rank(t, s) < |t|
  {
    RankSplits(t, s);
  }

  /** Only a limit of none leaves a page empty among rows. */
  lemma EmptyWindow(t: Transcript, limit: nat, position: Position)
    requires Window(t, limit, position).0 == Window(t, limit, position).1
    ensures var at := Rank(t, if position.AfterSeq? then position.s + 1 else Boundary(position));
            Window(t, limit, position) == (at, at)
  {
  }

  // ---- What the pages promise ----

  /** A page holds the rows next to its position, as many as the limit or all there are, and more only to begin with
      the latest call that its first result answers, or to end with the last result of the calls its last row issues;
      and it knows exactly whether rows precede and follow it. */
  lemma PageIsExact(t: Transcript, limit: nat, position: Position)
    requires Sorted(t) && limit > 0
    ensures var page := PageOf(t, limit, position);
            var (from, to) := Edges(t, limit, position);
            && from <= to <= |t| && page.items == t[from..to]
            && (if position.AfterSeq? then from == Rank(t, position.s + 1) else to == Rank(t, Boundary(position)))
            && (page.hasPrevious <==> from > 0) && (page.hasNext <==> to < |t|)
            && (page.previous.Some? <==> page.hasPrevious)
            && (page.items != [] ==> page.end == Some(page.items[|page.items| - 1].seqNo))
            && (page.items != [] && page.hasPrevious ==> page.previous == Some(page.items[0].seqNo))
            && (|page.items| < limit ==> if position.AfterSeq? then to == |t| else from == 0)
            && (|page.items| > limit ==>
                  if position.AfterSeq? then
                    t[from + limit - 1].message.Assistant? && Answers(t[to - 1], t[from + limit - 1].message.calls)
                    && forall i :: to <= i < |t| ==> !Answers(t[i], t[from + limit - 1].message.calls)
                  else
                    t[to - limit].message.ToolResult? && Issues(t[from], t[to - limit].message.call)
                    && forall i :: from < i < to - limit ==> !Issues(t[i], t[to - limit].message.call))
  {
    hide Rank, StartOf, EndOf;
    EdgesInOrder(t, limit, position);
    var (start, end) := Window(t, limit, position);
    if start < end {
      StartIsIssuer(t, start);
      EndIsLastResult(t, end);
    }
  }

  /** No page given backward starts on a result whose call is stored earlier, and none given forward ends on calls
      with a result stored later. */
  lemma EdgesKeepCallsTogether(t: Transcript, limit: nat, position: Position)
    requires Sorted(t) && PageOf(t, limit, position).items != []
    ensures var (from, to) := Edges(t, limit, position);
            && from < to <= |t|
            && (!position.AfterSeq? && t[from].message.ToolResult? ==> forall i :: 0 <= i < from ==>
                  t[i].message.Assistant? ==> t[from].message.call !in t[i].message.calls)
            && (position.AfterSeq? && t[to - 1].message.Assistant? ==> forall i :: to <= i < |t| ==>
                  t[i].message.ToolResult? ==> t[i].message.call !in t[to - 1].message.calls)
  {
    EdgesInOrder(t, limit, position);
    var (start, end) := Window(t, limit, position);
    StartIsIssuer(t, start);
    EndIsLastResult(t, end);
  }

  /** The pages from a position back, each asked for with the cursor of the one after it, oldest first. */
  function Backward(t: Transcript, limit: nat, position: Position): seq<Page>
    requires Sorted(t) && limit > 0 && !position.AfterSeq?
    decreases Rank(t, Boundary(position))
  {
    var page := PageOf(t, limit, position);
    if !page.hasPrevious then [page]
    else
      PreviousIsLess(t, limit, position);
      Backward(t, limit, BeforeSeq(page.previous.value)) + [page]
  }

  lemma PreviousIsLess(t: Transcript, limit: nat, position: Position)
    requires Sorted(t) && limit > 0 && !position.AfterSeq? && PageOf(t, limit, position).hasPrevious
    ensures var page := PageOf(t, limit, position);
            var from := Edges(t, limit, position).0;
            page.previous.Some? && Rank(t, page.previous.value) == from < Rank(t, Boundary(position))
  {
    EdgesInOrder(t, limit, position);
    RankOfRow(t, Edges(t, limit, position).0);
  }

  lemma BackwardShape(t: Transcript, limit: nat, position: Position)
    requires Sorted(t) && limit > 0 && !position.AfterSeq?
    ensures var page := PageOf(t, limit, position);
            var (from, to) := Edges(t, limit, position);
            && from <= to == Rank(t, Boundary(position)) <= |t| && page.items == t[from..to]
            && (page.hasPrevious <==> from > 0)
  {
    EdgesInOrder(t, limit, position);
    hide StartOf, Sorted;
  }

  function Forward(t: Transcript, limit: nat, s: int): seq<Page>
    requires Sorted(t) && limit > 0
    decreases |t| - Rank(t, s + 1)
  {
    var page := PageOf(t, limit, AfterSeq(s));
    if !page.hasNext then [page]
    else
      EndIsMore(t, limit, s);
      [page] + Forward(t, limit, page.end.value)
  }

  lemma EndIsMore(t: Transcript, limit: nat, s: int)
    requires Sorted(t) && limit > 0 && PageOf(t, limit, AfterSeq(s)).hasNext
    ensures var page := PageOf(t, limit, AfterSeq(s));
            var to := Edges(t, limit, AfterSeq(s)).1;
            page.end.Some? && Rank(t, s + 1) < Rank(t, page.end.value + 1) == to <= |t|
  {
    hide *;
    ForwardShape(t, limit, s);
    RankOfRow(t, Edges(t, limit, AfterSeq(s)).1 - 1);
  }

  lemma ForwardShape(t: Transcript, limit: nat, s: int)
    requires Sorted(t) && limit > 0
    ensures var page := PageOf(t, limit, AfterSeq(s));
            var (from, to) := Edges(t, limit, AfterSeq(s));
            && from == Rank(t, s + 1) <= to <= |t| && page.items == t[from..to]
            && (page.hasNext <==> to < |t|)
            && (page.hasNext ==> from < to && page.end == Some(t[to - 1].seqNo))
  {
    EdgesInOrder(t, limit, AfterSeq(s));
    hide EndOf, Sorted;
  }

  function Items(pages: seq<Page>): Transcript {
    if pages == [] then [] else pages[0].items + Items(pages[1..])
  }

  lemma {:induction false} ItemsAppend(pages: seq<Page>, page: Page)
    ensures Items(pages + [page]) == Items(pages) + page.items
  {
    if pages == [] {
      assert [page][1..] == [];
    } else {
      ItemsAppend(pages[1..], page);
      assert (pages + [page])[1..] == pages[1..] + [page];
    }
  }

  lemma ItemsCons(page: Page, pages: seq<Page>)
    ensures Items([page] + pages) == page.items + Items(pages)
  {
    assert ([page] + pages)[1..] == pages;
  }

  lemma ItemsOfOne(page: Page)
    ensures Items([page]) == page.items
  {
    assert Items([page]) == page.items + Items([]);
  }

  lemma Halves(t: Transcript, mid: nat, end: nat)
    requires mid <= end <= |t|
    ensures t[..mid] + t[mid..end] == t[..end]
    ensures t[mid..end] + t[end..] == t[mid..]
  {
  }

  lemma BackwardStep(t: Transcript, limit: nat, position: Position)
    requires Sorted(t) && limit > 0 && !position.AfterSeq?
    ensures var page := PageOf(t, limit, position);
            && (page.hasPrevious ==> page.previous.Some?)
            && Backward(t, limit, position) == (if page.hasPrevious then
                 Backward(t, limit, BeforeSeq(page.previous.value)) else []) + [page]
  {
    var page := PageOf(t, limit, position);
    if page.hasPrevious {
      PreviousIsLess(t, limit, position);
    }
    hide PageOf, Rank, Sorted;
    assert [] + [page] == [page];
  }

  /** Following the previous cursors to the start visits every row before the position once, in order. */
  lemma {:induction false} BackwardTiles(t: Transcript, limit: nat, position: Position)
    requires Sorted(t) && limit > 0 && !position.AfterSeq?
    ensures Items(Backward(t, limit, position)) == t[..Rank(t, Boundary(position))]
    decreases Rank(t, Boundary(position))
  {
    hide Rank, Edges, PageOf, Sorted, Backward, Items;
    BackwardShape(t, limit, position);
    BackwardStep(t, limit, position);
    var page := PageOf(t, limit, position);
    var (from, to) := Edges(t, limit, position);
    if page.hasPrevious {
      PreviousIsLess(t, limit, position);
      BackwardTiles(t, limit, BeforeSeq(page.previous.value));
      ItemsAppend(Backward(t, limit, BeforeSeq(page.previous.value)), page);
      Halves(t, from, to);
    } else {
      ItemsOfOne(page);
      assert [] + [page] == [page];
    }
  }

  lemma ForwardStep(t: Transcript, limit: nat, s: int)
    requires Sorted(t) && limit > 0
    ensures var page := PageOf(t, limit, AfterSeq(s));
            && (page.hasNext ==> page.end.Some?)
            && Forward(t, limit, s) == [page] + (if page.hasNext then Forward(t, limit, page.end.value) else [])
  {
    var page := PageOf(t, limit, AfterSeq(s));
    if page.hasNext {
      EndIsMore(t, limit, s);
    }
    hide PageOf, Rank, Sorted;
    assert [page] + [] == [page];
  }

  /** Following the end cursors visits every row after a sequence number once, in order. */
  lemma {:induction false} ForwardTiles(t: Transcript, limit: nat, s: int)
    requires Sorted(t) && limit > 0
    ensures Items(Forward(t, limit, s)) == t[Rank(t, s + 1)..]
    decreases |t| - Rank(t, s + 1)
  {
    hide Rank, Edges, PageOf, Sorted, Forward, Items;
    ForwardShape(t, limit, s);
    ForwardStep(t, limit, s);
    var page := PageOf(t, limit, AfterSeq(s));
    var (from, to) := Edges(t, limit, AfterSeq(s));
    if page.hasNext {
      EndIsMore(t, limit, s);
      ForwardTiles(t, limit, page.end.value);
      ItemsCons(page, Forward(t, limit, page.end.value));
      Halves(t, from, to);
    } else {
      ItemsOfOne(page);
      assert [page] + [] == [page];
      assert t[from..to] == t[from..];
    }
  }

  /** A page asked for after every row is empty, and its previous cursor names the sequence number asked after. Followed
      back from there, the pages are all the rows exactly when none is stored at that number: a row there, such as the
      last one a reader was given, is left out. */
  lemma EmptyPageLeadsBack(t: Transcript, limit: nat, s: int)
    requires Sorted(t) && limit > 0
    requires PageOf(t, limit, AfterSeq(s)).items == [] && PageOf(t, limit, AfterSeq(s)).hasPrevious
    ensures PageOf(t, limit, AfterSeq(s)).previous == Some(s) && !PageOf(t, limit, AfterSeq(s)).hasNext
    ensures Items(Backward(t, limit, BeforeSeq(s))) == t <==> forall i :: 0 <= i < |t| ==> t[i].seqNo != s
    ensures t != [] && t[|t| - 1].seqNo == s ==> Items(Backward(t, limit, BeforeSeq(s))) == t[..|t| - 1]
  {
    EmptyIsAfterAll(t, limit, s);
    RankSplits(t, s);
    hide Backward, Items, PageOf;
    BackwardTiles(t, limit, BeforeSeq(s));
    assert t[..|t|] == t;
    if t != [] && t[|t| - 1].seqNo == s {
      RankOfRow(t, |t| - 1);
    }
  }

  /** The reader of the only row who asks for what follows and then for what precedes is given nothing. */
  lemma EmptyPageSkips()
    ensures var t := [Row(0, User)];
            && Sorted(t)
            && PageOf(t, 1, AfterSeq(0)) == Page([], true, Some(0), false, Some(0))
            && Items(Backward(t, 1, BeforeSeq(0))) == []
  {
    var t := [Row(0, User)];
    assert t[..0] == [];
    RankOfRow(t, 0);
    EdgesInOrder(t, 1, AfterSeq(0));
    var page := PageOf(t, 1, AfterSeq(0));
    assert page.items == [] && page.hasPrevious;
    EmptyPageLeadsBack(t, 1, 0);
  }

  lemma EmptyIsAfterAll(t: Transcript, limit: nat, s: int)
    requires Sorted(t) && limit > 0
    requires PageOf(t, limit, AfterSeq(s)).items == [] && PageOf(t, limit, AfterSeq(s)).hasPrevious
    ensures PageOf(t, limit, AfterSeq(s)).previous == Some(s) && !PageOf(t, limit, AfterSeq(s)).hasNext
    ensures forall i :: 0 <= i < |t| ==> t[i].seqNo <= s
  {
    EdgesInOrder(t, limit, AfterSeq(s));
    RankSplits(t, s + 1);
    hide EndOf, StartOf;
  }

  /** From the end back, or from before the first row on, the pages are the transcript. */
  lemma PagesAreTheTranscript(t: Transcript, limit: nat)
    requires Sorted(t) && SafeSeqs(t) && limit > 0
    ensures Items(Backward(t, limit, AtEnd)) == t && Items(Forward(t, limit, -1)) == t
  {
    hide Backward, Forward, Items, Rank;
    BackwardTiles(t, limit, AtEnd);
    ForwardTiles(t, limit, -1);
    RankSplits(t, MAX_SAFE_INTEGER);
    RankSplits(t, 0);
    if t != [] {
      assert 0 <= t[0].seqNo && t[|t| - 1].seqNo < MAX_SAFE_INTEGER;
    }
  }
}
