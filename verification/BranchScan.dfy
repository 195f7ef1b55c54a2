/** A session's branch, read by a recursive query that stops early (`readBranch`), against the plain walk from an
    entry to its root. */
module BranchScan {
  import opened Bytes

  type RowId = nat
  type EntryId = nat
  type Kind = string

  /** A stored entry. A parent may be in another session or not stored at all: then the table does not hold it. */
  datatype Row = Row(entry: EntryId, parent: Option<RowId>, seqNo: int, kind: Kind, customType: Option<string>,
    role: string)

  /** One session's rows. */
  type Table = map<RowId, Row>

  datatype Query = Query(
    start: EntryId, oldestFirst: bool, stopAtId: Option<EntryId>, stopAtType: Option<Kind>,
    cursor: Option<int>, kind: Option<Kind>, customType: Option<string>, limit: Option<nat>)

  function Parent(t: Table, id: RowId): (parent: Option<RowId>)
    ensures parent.Some? ==> parent.value in t
  {
    if id in t && t[id].parent.Some? && t[id].parent.value in t then t[id].parent else None
  }

  ghost function Find(t: Table, entry: EntryId): (found: Option<RowId>)
    ensures found.Some? ==> found.value in t && t[found.value].entry == entry
    ensures found.None? ==> forall id :: id in t ==> t[id].entry != entry
  {
    if id :| id in t && t[id].entry == entry then Some(id) else None
  }

  // ---- The plain walk ----

  /** The walk to the root that never enters a row twice, as `loadBranchMessages` walks. */
  function Chain(t: Table, id: RowId, visited: set<RowId>): seq<RowId>
    requires id in t && id !in visited
    decreases t.Keys - visited
  {
    var parent := Parent(t, id);
    [id] + if parent.Some? && parent.value !in visited + {id} then Chain(t, parent.value, visited + {id}) else []
  }

  // ---- What a scan keeps of a branch ----

  /** The stop as the decoded entries show it. */
  predicate Stops(q: Query, row: Row) {
    q.stopAtId == Some(row.entry) || q.stopAtType == Some(row.kind)
  }

  /** The stop as the query sees it: for a message, whose role is not its type, never by type. */
  predicate StopsQuery(q: Query, row: Row) {
    q.stopAtId == Some(row.entry) || (q.stopAtType == Some(row.role) && q.stopAtType == Some(row.kind))
  }

  /** A filter that is absent or empty keeps every entry. */
  predicate Filters(filter: Option<string>) {
    filter.Some? && filter.value != ""
  }

  predicate Kept(q: Query, row: Row) {
    && (q.cursor.Some? ==> if q.oldestFirst then row.seqNo > q.cursor.value else row.seqNo < q.cursor.value)
    && (Filters(q.kind) ==> row.kind == q.kind.value)
    && (Filters(q.customType) ==> row.kind == "custom" && row.customType == q.customType)
  }

  predicate Stored(t: Table, ids: seq<RowId>) {
    forall i :: 0 <= i < |ids| ==> ids[i] in t
  }

  /** The position of the first entry that stops the scan, or past the end. */
  function StopIndex(t: Table, q: Query, ids: seq<RowId>): (n: nat)
    requires Stored(t, ids)
    ensures n <= |ids| && forall i :: 0 <= i < n ==> !Stops(q, t[ids[i]])
    ensures n < |ids| ==> Stops(q, t[ids[n]])
  {
    if ids == [] || Stops(q, t[ids[0]]) then 0
    else
      var n := StopIndex(t, q, ids[1..]);
      assert forall i :: 1 <= i < n + 1 ==> ids[i] == ids[1..][i - 1];
      n + 1
  }

  function Filter(t: Table, q: Query, ids: seq<RowId>): (kept: seq<RowId>)
    requires Stored(t, ids)
    ensures Stored(t, kept) && |kept| <= |ids|
  {
    if ids == [] then []
    else if Kept(q, t[ids[0]]) then [ids[0]] + Filter(t, q, ids[1..]) else Filter(t, q, ids[1..])
  }

  function Reverse<T>(s: seq<T>): (r: seq<T>)
    ensures |r| == |s| && forall i :: 0 <= i < |s| ==> r[i] == s[|s| - 1 - i]
  {
    if s == [] then [] else Reverse(s[1..]) + [s[0]]
  }

  function First<T>(s: seq<T>, n: nat): seq<T> {
    if n <= |s| then s[..n] else s
  }

  function Limited<T>(s: seq<T>, limit: Option<nat>): seq<T> {
    if limit.Some? then First(s, limit.value) else s
  }

  /** What is left of a branch, given newest first, after its stop: newest first the entries to it, oldest first
      those from it back. */
  function ToStop(t: Table, q: Query, ids: seq<RowId>): (r: seq<RowId>)
    requires Stored(t, ids)
    ensures Stored(t, r)
  {
    var stop := StopIndex(t, q, ids);
    if q.oldestFirst then Reverse(if stop < |ids| then ids[stop..] else ids)
    else First(ids, stop + 1)
  }

  function Selected(t: Table, q: Query, ids: seq<RowId>): seq<RowId>
    requires Stored(t, ids)
  {
    Limited(Filter(t, q, ToStop(t, q, ids)), q.limit)
  }

  // ---- The recursive query ----

  function Min(x: nat, y: nat): nat {
    if x < y then x else y
  }

  /** The stops the query is given: none when the oldest entries come first. */
  function PushedStops(q: Query): Query {
    if q.oldestFirst then q.(stopAtId := None, stopAtType := None) else q
  }

  function MaxEntries(t: Table, q: Query): nat {
    if !q.oldestFirst && q.cursor.None? && !Filters(q.kind) && !Filters(q.customType) && q.limit.Some? then
      Min(q.limit.value, |t|)
    else |t|
  }

  /** The rows of the query by depth. It may enter a cycle, which only its bound ends. */
  function Branch(t: Table, q: Query, id: RowId, depth: nat, max: nat): seq<RowId>
    requires id in t
    decreases max - depth
  {
    var parent := Parent(t, id);
    [id] + if parent.Some? && !StopsQuery(q, t[id]) && depth + 1 < max then Branch(t, q, parent.value, depth + 1, max)
      else []
  }

  /** The rows before the first that repeats one. */
  function BeforeRepeat(ids: seq<RowId>, seen: set<RowId>): (r: seq<RowId>)
    ensures forall i :: 0 <= i < |r| ==> r[i] in ids
    ensures r <= ids
  {
    if ids == [] || ids[0] in seen then [] else [ids[0]] + BeforeRepeat(ids[1..], seen + {ids[0]})
  }

  lemma {:induction false} BranchIsStored(t: Table, q: Query, id: RowId, depth: nat, max: nat)
    requires id in t
    ensures Stored(t, Branch(t, q, id, depth, max))
    decreases max - depth
  {
    var parent := Parent(t, id);
    if parent.Some? && !StopsQuery(q, t[id]) && depth + 1 < max {
      BranchIsStored(t, q, parent.value, depth + 1, max);
    }
  }

  /** `readBranch`; none when the start is not an entry of the session. */
  ghost function ReadBranch(t: Table, q: Query): Option<seq<RowId>> {
    var start := Find(t, q.start);
    if start.None? then None
    else
      var rows := Branch(t, PushedStops(q), start.value, 0, MaxEntries(t, q));
      BranchIsStored(t, PushedStops(q), start.value, 0, MaxEntries(t, q));
      Some(Selected(t, q, BeforeRepeat(rows, {})))
  }

  // ---- The walk cut short ----

  /** The plain walk that ends after a stop of the query or at a number of rows. */
  function ShortChain(t: Table, q: Query, id: RowId, visited: set<RowId>, depth: nat, max: nat): seq<RowId>
    requires id in t
    decreases max - depth
  {
    var parent := Parent(t, id);
    [id] + if parent.Some? && !StopsQuery(q, t[id]) && depth + 1 < max && parent.value !in visited + {id}
           then ShortChain(t, q, parent.value, visited + {id}, depth + 1, max) else []
  }

  /** Cutting the query's rows at the first repeat is walking without entering a row twice. */
  lemma {:induction false} CutIsShortChain(t: Table, q: Query, id: RowId, visited: set<RowId>, depth: nat, max: nat)
    requires id in t && id !in visited
    ensures BeforeRepeat(Branch(t, q, id, depth, max), visited) == ShortChain(t, q, id, visited, depth, max)
    decreases max - depth
  {
    var parent := Parent(t, id);
    var rows := Branch(t, q, id, depth, max);
    if parent.Some? && !StopsQuery(q, t[id]) && depth + 1 < max {
      var rest := Branch(t, q, parent.value, depth + 1, max);
      assert rows[1..] == rest;
      if parent.value !in visited + {id} {
        CutIsShortChain(t, q, parent.value, visited + {id}, depth + 1, max);
      } else {
        assert rest[0] == parent.value;
        assert BeforeRepeat(rest, visited + {id}) == [];
      }
    } else {
      assert rows[1..] == [];
      assert BeforeRepeat(rows[1..], visited + {id}) == [];
    }
  }

  lemma {:induction false} BranchFits(t: Table, q: Query, id: RowId, depth: nat, max: nat)
    requires id in t
    ensures |Branch(t, q, id, depth, max)| <= if depth + 1 < max then max - depth else 1
    ensures var rows := Branch(t, q, id, depth, max);
            Stored(t, rows) && forall i :: 0 <= i < |rows| - 1 ==> !StopsQuery(q, t[rows[i]])
    decreases max - depth
  {
    var parent := Parent(t, id);
    if parent.Some? && !StopsQuery(q, t[id]) && depth + 1 < max {
      BranchFits(t, q, parent.value, depth + 1, max);
    }
  }

  /** The query reads no row past the stop of a scan that is given newest first, nor past its limit where nothing is
      filtered, and never more than the session has. */
  lemma QueryReadsNoMore(t: Table, q: Query, id: RowId)
    requires id in t
    ensures var rows := Branch(t, PushedStops(q), id, 0, MaxEntries(t, q));
            && |rows| <= |t| && Stored(t, rows)
            && (!q.oldestFirst ==> forall i :: 0 <= i < |rows| - 1 ==>
                  var row := t[rows[i]];
                  q.stopAtId != Some(row.entry) && (q.stopAtType == Some(row.kind) ==> row.role != row.kind))
            && (!q.oldestFirst && q.cursor.None? && q.kind.None? && q.customType.None? && q.limit.Some? ==>
                  |rows| <= if q.limit.value == 0 then 1 else q.limit.value)
  {
    assert |t.Keys| > 0;
    BranchFits(t, PushedStops(q), id, 0, MaxEntries(t, q));
  }

  /** The position of the first row at which the query stops, or past the end. */
  function QueryStop(t: Table, q: Query, ids: seq<RowId>): (n: nat)
    requires Stored(t, ids)
    ensures n <= |ids| && (n < |ids| ==> StopsQuery(q, t[ids[n]]))
  {
    if ids == [] || StopsQuery(q, t[ids[0]]) then 0 else QueryStop(t, q, ids[1..]) + 1
  }

  lemma {:induction false} ChainIsStored(t: Table, id: RowId, visited: set<RowId>)
    requires id in t && id !in visited
    ensures Stored(t, Chain(t, id, visited)) && |Chain(t, id, visited)| > 0
    decreases t.Keys - visited
  {
    var parent := Parent(t, id);
    if parent.Some? && parent.value !in visited + {id} {
      ChainIsStored(t, parent.value, visited + {id});
    }
  }

  /** How much of the plain walk the short one keeps. */
  lemma {:induction false} ShortChainIsPrefix(t: Table, q: Query, id: RowId, visited: set<RowId>, depth: nat, max: nat)
    requires id in t && id !in visited && depth < max
    ensures Stored(t, Chain(t, id, visited))
    ensures var all := Chain(t, id, visited);
            ShortChain(t, q, id, visited, depth, max) == First(First(all, QueryStop(t, q, all) + 1), max - depth)
    decreases max - depth
  {
    hide Chain, ShortChain, QueryStop, First, StopsQuery, Parent, Stored;
    ChainIsStored(t, id, visited);
    ShortChainSteps(t, q, id, visited, depth, max);
    var parent := Parent(t, id);
    var all := Chain(t, id, visited);
    if parent.Some? && parent.value !in visited + {id} {
      ChainIsStored(t, parent.value, visited + {id});
      var rest := Chain(t, parent.value, visited + {id});
      assert all == [id] + rest;
      QueryStopOfMore(t, q, id, rest);
      if StopsQuery(q, t[id]) {
        JustFirst(all, 1, max - depth);
      } else if depth + 1 < max {
        ShortChainIsPrefix(t, q, parent.value, visited + {id}, depth + 1, max);
        FirstAfter(id, rest, QueryStop(t, q, rest) + 1, max - depth - 1);
      } else {
        JustFirst(all, QueryStop(t, q, all) + 1, 1);
      }
    } else {
      JustFirst(all, QueryStop(t, q, all) + 1, max - depth);
    }
  }

  lemma ShortChainSteps(t: Table, q: Query, id: RowId, visited: set<RowId>, depth: nat, max: nat)
    requires id in t && id !in visited && depth < max
    ensures var parent := Parent(t, id);
            var goesOn := parent.Some? && parent.value !in visited + {id};
            && Chain(t, id, visited) == [id] + (if goesOn then Chain(t, parent.value, visited + {id}) else [])
            && ShortChain(t, q, id, visited, depth, max)
                 == [id] + if goesOn && !StopsQuery(q, t[id]) && depth + 1 < max
                           then ShortChain(t, q, parent.value, visited + {id}, depth + 1, max) else []
  {
  }

  lemma QueryStopOfMore(t: Table, q: Query, id: RowId, rest: seq<RowId>)
    requires id in t && Stored(t, rest) && Stored(t, [id] + rest)
    ensures QueryStop(t, q, [id] + rest) == if StopsQuery(q, t[id]) then 0 else QueryStop(t, q, rest) + 1
  {
    assert ([id] + rest)[1..] == rest;
  }

  lemma JustFirst(ids: seq<RowId>, n: nat, m: nat)
    requires ids != [] && n > 0 && m > 0 && (n == 1 || m == 1 || |ids| == 1)
    ensures First(First(ids, n), m) == [ids[0]]
  {
  }

  lemma FirstAfter(id: RowId, rest: seq<RowId>, n: nat, m: nat)
    ensures First(First([id] + rest, n + 1), m + 1) == [id] + First(First(rest, n), m)
  {
  }

  lemma AtLeastOneRow(t: Table, q: Query, id: RowId, visited: set<RowId>, depth: nat)
    requires id in t
    ensures ShortChain(t, q, id, visited, depth, 0) == ShortChain(t, q, id, visited, depth, 1) == [id]
  {
  }

  /** No walk is longer than the session has rows. */
  lemma {:induction false} ChainFits(t: Table, id: RowId, visited: set<RowId>)
    requires id in t && id !in visited
    ensures |Chain(t, id, visited)| <= |t.Keys - visited|
    decreases t.Keys - visited
  {
    var parent := Parent(t, id);
    assert t.Keys - visited == (t.Keys - (visited + {id})) + {id};
    if parent.Some? && parent.value !in visited + {id} {
      ChainFits(t, parent.value, visited + {id});
    }
  }

  // ---- Pushing the stop and the limit down loses nothing ----

  /** A query's stop is a stop: the rows up to the first one hold the scan's. */
  lemma {:induction false} QueryStopIsLater(t: Table, q: Query, ids: seq<RowId>)
    requires Stored(t, ids)
    ensures StopIndex(t, q, ids) <= QueryStop(t, q, ids)
  {
    if ids != [] && !Stops(q, t[ids[0]]) {
      QueryStopIsLater(t, q, ids[1..]);
    }
  }

  lemma {:induction false} StopIndexOfFirst(t: Table, q: Query, ids: seq<RowId>, n: nat)
    requires Stored(t, ids)
    ensures StopIndex(t, q, First(ids, n)) == Min(StopIndex(t, q, ids), Min(n, |ids|))
  {
    if ids != [] && n > 0 && !Stops(q, t[ids[0]]) {
      StopIndexOfFirst(t, q, ids[1..], n - 1);
      assert First(ids, n)[1..] == First(ids[1..], n - 1);
    }
  }

  lemma {:induction false} NoQueryStop(t: Table, q: Query, ids: seq<RowId>)
    requires Stored(t, ids) && q.stopAtId.None? && q.stopAtType.None?
    ensures QueryStop(t, q, ids) == |ids|
  {
    if ids != [] {
      NoQueryStop(t, q, ids[1..]);
    }
  }

  lemma {:induction false} FilterKeepsAll(t: Table, q: Query, ids: seq<RowId>)
    requires Stored(t, ids) && q.cursor.None? && !Filters(q.kind) && !Filters(q.customType)
    ensures Filter(t, q, ids) == ids
  {
    if ids != [] {
      FilterKeepsAll(t, q, ids[1..]);
    }
  }

  lemma FirstOfFirst<T>(s: seq<T>, n: nat, m: nat)
    ensures First(First(s, n), m) == First(s, Min(n, m))
  {
  }

  /** Newest first, what is read holds the branch to its stop, or as many rows of it as may be read. */
  lemma ToStopOfRead(t: Table, q: Query, all: seq<RowId>, last: nat, most: nat)
    requires Stored(t, all) && !q.oldestFirst && StopIndex(t, q, all) <= last
    ensures Stored(t, First(First(all, last + 1), most))
    ensures ToStop(t, q, First(First(all, last + 1), most)) == First(ToStop(t, q, all), most)
  {
    var stop, k := StopIndex(t, q, all), Min(last + 1, most);
    FirstOfFirst(all, last + 1, most);
    StopIndexOfFirst(t, q, all, k);
    hide StopIndex;
    FirstOfFirst(all, k, Min(stop, Min(k, |all|)) + 1);
    FirstOfFirst(all, stop + 1, most);
  }

  lemma LimitOfFirst<T>(s: seq<T>, most: nat, limit: Option<nat>)
    requires |s| <= most || (limit.Some? && limit.value <= most)
    ensures Limited(First(s, most), limit) == Limited(s, limit)
  {
  }

  /** What is selected from the rows the query reads is what is selected from the whole branch. */
  lemma PushdownLosesNothing(t: Table, q: Query, all: seq<RowId>, max: nat)
    requires Stored(t, all) && all != []
    requires max == MaxEntries(t, q) && |all| <= |t|
    ensures var read := First(First(all, QueryStop(t, PushedStops(q), all) + 1), if max == 0 then 1 else max);
            Selected(t, q, read) == Selected(t, q, all)
  {
    hide StopIndex, QueryStop, Filter, Stops, StopsQuery, Kept;
    var last, most := QueryStop(t, PushedStops(q), all), if max == 0 then 1 else max;
    if q.oldestFirst {
      NoQueryStop(t, PushedStops(q), all);
      assert First(First(all, |all| + 1), most) == all;
    } else {
      QueryStopIsLater(t, q, all);
      ToStopOfRead(t, q, all, last, most);
      var whole := ToStop(t, q, all);
      if max < |t| {
        FilterKeepsAll(t, q, First(whole, most));
        FilterKeepsAll(t, q, whole);
        LimitOfFirst(whole, most, q.limit);
      } else {
        assert First(whole, most) == whole;
      }
    }
  }

  /** The scan as its callers mean it: the whole branch first, then what the query keeps of it. */
  ghost function PlainRead(t: Table, q: Query): Option<seq<RowId>> {
    var start := Find(t, q.start);
    if start.None? then None
    else
      ChainIsStored(t, start.value, {});
      Some(Selected(t, q, Chain(t, start.value, {})))
  }

  /** `readBranch`, with its stop and its limit pushed into a recursive query that may run around a cycle, returns
      what selecting from the complete plain walk returns, for every parent graph and every query. */
  lemma ReadBranchIsSelection(t: Table, q: Query)
    ensures ReadBranch(t, q) == PlainRead(t, q)
  {
    hide Branch, BeforeRepeat, ShortChain, Chain, Selected, QueryStop, First;
    var start := Find(t, q.start);
    if start.Some? {
      var id, max, pushed := start.value, MaxEntries(t, q), PushedStops(q);
      var most := if max == 0 then 1 else max;
      var all := Chain(t, id, {});
      ChainIsStored(t, id, {});
      ChainFits(t, id, {});
      assert t.Keys - {} == t.Keys;
      CutIsShortChain(t, pushed, id, {}, 0, max);
      AtLeastOneRow(t, pushed, id, {}, 0);
      ShortChainIsPrefix(t, pushed, id, {}, 0, most);
      PushdownLosesNothing(t, q, all, max);
    }
  }

  // ---- What a scan returns ----

  /** The entry passes each filter that is given and not empty. */
  predicate Wanted(q: Query, row: Row) {
    && (q.kind.None? || q.kind.value == "" || row.kind == q.kind.value)
    && (q.customType.None? || q.customType.value == "" || (row.kind == "custom" && row.customType == q.customType))
    && (q.cursor.None? || if q.oldestFirst then q.cursor.value < row.seqNo else row.seqNo < q.cursor.value)
  }

  predicate IsStop(q: Query, row: Row) {
    (q.stopAtId.Some? && row.entry == q.stopAtId.value) || (q.stopAtType.Some? && row.kind == q.stopAtType.value)
  }

  /** Entry `j` of the branch, from the newest, is not cut off: no stop is newer, or, when the oldest come first, some
      stop is not older, if there is any. */
  ghost predicate Reached(t: Table, q: Query, ids: seq<RowId>, j: nat)
    requires Stored(t, ids) && j < |ids|
  {
    if q.oldestFirst then
      (forall i :: 0 <= i < |ids| ==> !IsStop(q, t[ids[i]])) || (exists i :: 0 <= i <= j && IsStop(q, t[ids[i]]))
    else forall i :: 0 <= i < j ==> !IsStop(q, t[ids[i]])
  }

  lemma {:induction false} FilterReturns(t: Table, q: Query, ids: seq<RowId>, id: RowId)
    requires Stored(t, ids)
    ensures id in Filter(t, q, ids) <==> id in ids && Wanted(q, t[id])
  {
    if ids != [] {
      FilterReturns(t, q, ids[1..], id);
      assert id in ids <==> id == ids[0] || id in ids[1..];
    }
  }

  lemma ToStopReturns(t: Table, q: Query, ids: seq<RowId>, id: RowId)
    requires Stored(t, ids)
    ensures id in ToStop(t, q, ids) <==> exists j :: 0 <= j < |ids| && ids[j] == id && Reached(t, q, ids, j)
  {
    var stop := StopIndex(t, q, ids);
    assert forall row :: Stops(q, row) <==> IsStop(q, row);
    hide Stops, IsStop;
    if q.oldestFirst {
      var kept := if stop < |ids| then ids[stop..] else ids;
      ReverseReturns(kept, id);
      assert forall j :: 0 <= j < |ids| ==> (Reached(t, q, ids, j) <==> stop == |ids| || stop <= j);
      if id in kept {
        var k :| 0 <= k < |kept| && kept[k] == id;
        assert ids[if stop < |ids| then stop + k else k] == id;
      }
    } else {
      assert forall j :: 0 <= j < |ids| ==> (Reached(t, q, ids, j) <==> j <= stop);
      hide Reached;
    }
  }

  lemma ReverseReturns(ids: seq<RowId>, id: RowId)
    ensures id in Reverse(ids) <==> id in ids
  {
    hide Reverse;
    if id in ids {
      var k :| 0 <= k < |ids| && ids[k] == id;
      assert Reverse(ids)[|ids| - 1 - k] == id;
    }
  }

  lemma SelectedReturns(t: Table, q: Query, ids: seq<RowId>, id: RowId)
    requires Stored(t, ids) && q.limit.None?
    ensures id in Selected(t, q, ids) <==>
              exists j :: 0 <= j < |ids| && ids[j] == id && Reached(t, q, ids, j) && Wanted(q, t[ids[j]])
  {
    FilterReturns(t, q, ToStop(t, q, ids), id);
    ToStopReturns(t, q, ids, id);
    hide ToStop, Filter, Reached, Wanted;
  }

  /** A scan without a limit returns exactly those entries of the branch that are reached before the stop and wanted by
      each filter. */
  lemma ReadBranchReturns(t: Table, q: Query, id: RowId)
    requires Find(t, q.start).Some? && q.limit.None?
    ensures var ids := Chain(t, Find(t, q.start).value, {});
            && Stored(t, ids) && ReadBranch(t, q).Some?
            && (id in ReadBranch(t, q).value <==>
                  exists j :: 0 <= j < |ids| && ids[j] == id && Reached(t, q, ids, j) && Wanted(q, t[ids[j]]))
  {
    var ids := Chain(t, Find(t, q.start).value, {});
    ReadBranchIsSelection(t, q);
    hide ReadBranch, Selected, Chain, Reached, Wanted;
    ChainIsStored(t, Find(t, q.start).value, {});
    SelectedReturns(t, q, ids, id);
  }

  /** A limit keeps the first of them. */
  lemma LimitTakesFirst(t: Table, q: Query)
    requires Find(t, q.start).Some? && q.limit.Some?
    ensures var all := ReadBranch(t, q.(limit := None));
            && all.Some?
            && ReadBranch(t, q) == Some(if q.limit.value <= |all.value| then all.value[..q.limit.value] else all.value)
  {
    var ids := Chain(t, Find(t, q.start).value, {});
    ReadBranchIsSelection(t, q);
    ReadBranchIsSelection(t, q.(limit := None));
    hide ReadBranch, Chain;
    ChainIsStored(t, Find(t, q.start).value, {});
    SameToStop(t, q, q.(limit := None), ids);
    SameKept(t, q, q.(limit := None), ToStop(t, q, ids));
    hide ToStop, Filter;
  }

  // ---- What the branch is ----

  ghost predicate IsPath(t: Table, ids: seq<RowId>) {
    && Stored(t, ids)
    && (forall i :: 0 <= i < |ids| - 1 ==> t[ids[i]].parent == Some(ids[i + 1]))
    && (forall i, j :: 0 <= i < j < |ids| ==> ids[i] != ids[j])
  }

  /** The walk follows parent links, enters no row twice, and ends only where there is no parent or the parent
      was entered before: it is the longest such path. */
  lemma {:induction false} ChainIsLongestPath(t: Table, id: RowId, visited: set<RowId>)
    requires id in t && id !in visited
    ensures var ids := Chain(t, id, visited);
            && ids != [] && ids[0] == id && IsPath(t, ids) && (forall x :: x in ids ==> x !in visited)
            && var end := t[ids[|ids| - 1]].parent;
               end.Some? && end.value in t ==> end.value in visited || end.value in ids
    decreases t.Keys - visited
  {
    var parent := Parent(t, id);
    if parent.Some? && parent.value !in visited + {id} {
      ChainIsLongestPath(t, parent.value, visited + {id});
      var rest := Chain(t, parent.value, visited + {id});
      assert Chain(t, id, visited) == [id] + rest;
      assert forall x :: x in rest ==> x !in visited + {id};
    }
  }

  /** The entries `loadBranchMessages` projects, oldest first: none for no tip, and an unknown tip is an error. */
  ghost function BranchMessages(t: Table, tip: Option<EntryId>): Option<seq<RowId>> {
    if tip.None? then Some([])
    else if Find(t, tip.value).None? then None
    else Some(Reverse(Chain(t, Find(t, tip.value).value, {})))
  }

  /** The two readers of a branch agree: an oldest-first scan with nothing to stop or filter it reads the entries
      that the transcript's projection reads. */
  lemma ReadersAgree(t: Table, tip: EntryId)
    ensures ReadBranch(t, Query(tip, true, None, None, None, None, None, None)) == BranchMessages(t, Some(tip))
  {
    var q := Query(tip, true, None, None, None, None, None, None);
    ReadBranchIsSelection(t, q);
    if Find(t, tip).Some? {
      var all := Chain(t, Find(t, tip).value, {});
      ChainIsStored(t, Find(t, tip).value, {});
      NoStop(t, q, all);
      FilterKeepsAll(t, q, ToStop(t, q, all));
    }
  }

  lemma {:induction false} NoStop(t: Table, q: Query, ids: seq<RowId>)
    requires Stored(t, ids) && q.stopAtId.None? && q.stopAtType.None?
    ensures StopIndex(t, q, ids) == |ids|
  {
    if ids != [] {
      NoStop(t, q, ids[1..]);
    }
  }

  // ---- Paging through a branch ----

  /** An entry is stored after its parent. */
  ghost predicate ParentsFirst(t: Table) {
    forall id :: id in t && Parent(t, id).Some? ==> t[Parent(t, id).value].seqNo < t[id].seqNo
  }

  predicate Precedes(q: Query, x: Row, y: Row) {
    if q.oldestFirst then x.seqNo < y.seqNo else y.seqNo < x.seqNo
  }

  ghost predicate Ordered(t: Table, q: Query, ids: seq<RowId>) {
    Stored(t, ids) && forall i, j :: 0 <= i < j < |ids| ==> Precedes(q, t[ids[i]], t[ids[j]])
  }

  lemma {:induction false} PathDescends(t: Table, ids: seq<RowId>, i: nat, j: nat)
    requires ParentsFirst(t) && IsPath(t, ids) && i < j < |ids|
    ensures t[ids[j]].seqNo < t[ids[i]].seqNo
    decreases j
  {
    assert Parent(t, ids[j - 1]) == Some(ids[j]);
    if i < j - 1 {
      PathDescends(t, ids, i, j - 1);
    }
  }

  lemma ToStopIsOrdered(t: Table, q: Query, ids: seq<RowId>)
    requires ParentsFirst(t) && IsPath(t, ids)
    ensures Ordered(t, q, ToStop(t, q, ids))
  {
    forall i, j | 0 <= i < j < |ids|
      ensures t[ids[j]].seqNo < t[ids[i]].seqNo
    {
      PathDescends(t, ids, i, j);
    }
  }

  lemma {:induction false} FilteredAreOrdered(t: Table, q: Query, ids: seq<RowId>)
    requires Ordered(t, q, ids)
    ensures Ordered(t, q, Filter(t, q, ids)) && forall x :: x in Filter(t, q, ids) ==> x in ids
  {
    if ids != [] {
      var rest := ids[1..];
      FilteredAreOrdered(t, q, rest);
      assert forall i :: 0 <= i < |rest| ==> rest[i] == ids[i + 1];
      assert forall x :: x in rest ==> Precedes(q, t[ids[0]], t[x]);
      var kept := Filter(t, q, rest);
      assert forall i :: 0 <= i < |kept| ==> kept[i] in rest;
    }
  }

  lemma {:induction false} CursorBefore(t: Table, q: Query, ids: seq<RowId>, cursor: int)
    requires Stored(t, ids) && q.cursor.None?
    requires forall x :: x in ids ==> if q.oldestFirst then t[x].seqNo > cursor else t[x].seqNo < cursor
    ensures Filter(t, q.(cursor := Some(cursor)), ids) == Filter(t, q, ids)
  {
    if ids != [] {
      CursorBefore(t, q, ids[1..], cursor);
    }
  }

  /** With the cursor at one kept entry, exactly those after it are kept. */
  lemma {:induction false} CursorSplits(t: Table, q: Query, ids: seq<RowId>, k: nat)
    requires Ordered(t, q, ids) && q.cursor.None? && 0 < k <= |Filter(t, q, ids)|
    ensures var kept := Filter(t, q, ids);
            && kept[k - 1] in ids
            && Filter(t, q.(cursor := Some(t[kept[k - 1]].seqNo)), ids) == kept[k..]
  {
    var kept := Filter(t, q, ids);
    var rest := ids[1..];
    FilteredAreOrdered(t, q, ids);
    FilteredAreOrdered(t, q, rest);
    assert kept[k - 1] in ids;
    var cursor := t[kept[k - 1]].seqNo;
    if !Kept(q, t[ids[0]]) {
      CursorSplits(t, q, rest, k);
    } else if k == 1 {
      assert forall x :: x in rest ==> Precedes(q, t[ids[0]], t[x]);
      CursorBefore(t, q, rest, cursor);
    } else {
      CursorSplits(t, q, rest, k - 1);
      assert kept[1..] == Filter(t, q, rest);
      assert kept[k - 1] in rest;
    }
  }

  /** Where entries are stored after their parents, a scan whose cursor is the sequence number of the `k`th entry of
      the whole scan goes on exactly after it: pages neither skip nor repeat an entry, in either order and under
      any filter and stop. */
  lemma CursorResumes(t: Table, q: Query, k: nat)
    requires ParentsFirst(t) && q.cursor.None?
    requires var all := ReadBranch(t, q.(limit := None)); all.Some? && 0 < k <= |all.value|
    ensures var all := ReadBranch(t, q.(limit := None)).value;
            && all[k - 1] in t
            && ReadBranch(t, q.(cursor := Some(t[all[k - 1]].seqNo))) == Some(Limited(all[k..], q.limit))
  {
    var all := ReadBranch(t, q.(limit := None)).value;
    ReadBranchIsSelection(t, q.(limit := None));
    var id := Find(t, q.start).value;
    ChainIsStored(t, id, {});
    ChainIsLongestPath(t, id, {});
    var ids := Chain(t, id, {});
    ToStopIsOrdered(t, q, ids);
    SameToStop(t, q, q.(limit := None), ids);
    SameKept(t, q, q.(limit := None), ToStop(t, q, ids));
    CursorSplits(t, q, ToStop(t, q, ids), k);
    var paged := q.(cursor := Some(t[all[k - 1]].seqNo));
    ReadBranchIsSelection(t, paged);
    SameToStop(t, q, paged, ids);
  }

  lemma SameToStop(t: Table, q: Query, other: Query, ids: seq<RowId>)
    requires Stored(t, ids) && other == q.(limit := other.limit, cursor := other.cursor)
    ensures ToStop(t, q, ids) == ToStop(t, other, ids)
  {
    hide StopIndex;
    SameStop(t, q, other, ids);
  }

  lemma {:induction false} SameStop(t: Table, q: Query, other: Query, ids: seq<RowId>)
    requires Stored(t, ids) && other == q.(limit := other.limit, cursor := other.cursor)
    ensures StopIndex(t, q, ids) == StopIndex(t, other, ids)
  {
    if ids != [] {
      SameStop(t, q, other, ids[1..]);
    }
  }

  lemma {:induction false} SameKept(t: Table, q: Query, other: Query, ids: seq<RowId>)
    requires Stored(t, ids) && other == q.(limit := other.limit)
    ensures Filter(t, q, ids) == Filter(t, other, ids)
  {
    if ids != [] {
      SameKept(t, q, other, ids[1..]);
    }
  }
}
