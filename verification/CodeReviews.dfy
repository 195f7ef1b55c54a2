/** Code reviews: the edits of a detached copy (`CodeReview`), and the store that takes a copy back only at the revision
    it was loaded at (`saveCodeReview`, `acceptCodeReviewSubmission`). */
module CodeReviews {
  import opened Bytes

  type EntryId = nat
  type AnnotationId = nat

  datatype Anchor = Anchor(startLine: int, lines: seq<string>, filePatch: string, place: nat)

  datatype Entry = Entry(id: EntryId, author: string, body: string, sourceKey: Option<string>,
    sourceUrl: Option<string>)

  datatype Annotation = Annotation(id: AnnotationId, anchor: Anchor, entries: seq<Entry>)

  type Annotations = seq<Annotation>

  datatype Kind = Invalid | NotFound | Conflict

  /** An edit's outcome: the annotations, which it leaves alone when it throws. */
  datatype Outcome = Edited(annotations: Annotations) | Throws(kind: Kind)

  datatype Edit =
    | Add(id: AnnotationId, anchor: Anchor, entry: Entry)
    | Upsert(id: AnnotationId, anchor: Anchor, entry: Entry)
    | Reply(annotation: AnnotationId, entry: Entry)
    | Delete(comment: EntryId)

  predicate ValidAnchor(anchor: Anchor) {
    && anchor.startLine >= 1 && anchor.lines != []
    && (forall i :: 0 <= i < |anchor.lines| ==> '\n' !in anchor.lines[i] && '\r' !in anchor.lines[i])
    && "diff --git " <= anchor.filePatch
  }

  predicate Collides(existing: Entry, entry: Entry) {
    existing.id == entry.id || (entry.sourceKey.Some? && existing.sourceKey == entry.sourceKey)
  }

  predicate Taken(a: Annotations, id: Option<AnnotationId>, entry: Entry) {
    exists i :: 0 <= i < |a| && (id == Some(a[i].id) || exists j ::
      0 <= j < |a[i].entries| && Collides(a[i].entries[j], entry))
  }

  /** By ID, or by source key. */
  predicate Matches(entry: Entry, id: Option<EntryId>, key: Option<string>) {
    (id.Some? && entry.id == id.value) || (key.Some? && entry.sourceKey == key)
  }

  function IndexIn(entries: seq<Entry>, id: Option<EntryId>, key: Option<string>): (j: nat)
    ensures j <= |entries| && (j < |entries| ==> Matches(entries[j], id, key))
    ensures forall x :: 0 <= x < j ==> !Matches(entries[x], id, key)
  {
    if entries == [] || Matches(entries[0], id, key) then 0
    else
      var j := IndexIn(entries[1..], id, key);
      assert forall x :: 1 <= x < j + 1 ==> entries[x] == entries[1..][x - 1];
      j + 1
  }

  function FindAnnotation(a: Annotations, id: Option<EntryId>, key: Option<string>): (i: nat)
    ensures i <= |a| && (i < |a| ==> IndexIn(a[i].entries, id, key) < |a[i].entries|)
    ensures forall x :: 0 <= x < i ==> IndexIn(a[x].entries, id, key) == |a[x].entries|
  {
    if a == [] || IndexIn(a[0].entries, id, key) < |a[0].entries| then 0
    else
      var i := FindAnnotation(a[1..], id, key);
      assert forall x :: 1 <= x < i + 1 ==> a[x] == a[1..][x - 1];
      i + 1
  }

  function IndexOf(a: Annotations, id: AnnotationId): (i: nat)
    ensures i <= |a| && (i < |a| ==> a[i].id == id)
    ensures forall x :: 0 <= x < i ==> a[x].id != id
  {
    if a == [] || a[0].id == id then 0
    else
      var i := IndexOf(a[1..], id);
      assert forall x :: 1 <= x < i + 1 ==> a[x] == a[1..][x - 1];
      i + 1
  }

  function Without(entries: seq<Entry>, id: EntryId): seq<Entry> {
    if entries == [] then []
    else if entries[0].id == id then Without(entries[1..], id) else [entries[0]] + Without(entries[1..], id)
  }

  function AddAnnotation(a: Annotations, id: AnnotationId, anchor: Anchor, entry: Entry): Outcome {
    if !ValidAnchor(anchor) then Throws(Invalid)
    else if Taken(a, Some(id), entry) then Throws(Conflict)
    else Edited(a + [Annotation(id, anchor, [entry])])
  }

  function Refreshed(existing: Entry, entry: Entry): Entry {
    existing.(author := entry.author, body := entry.body, sourceUrl := entry.sourceUrl)
  }

  function UpsertAnnotation(a: Annotations, id: AnnotationId, anchor: Anchor, entry: Entry): Outcome {
    if entry.sourceKey.None? then Throws(Invalid)
    else
      var i := FindAnnotation(a, None, entry.sourceKey);
      if i == |a| then AddAnnotation(a, id, anchor, entry)
      else
        var j := IndexIn(a[i].entries, None, entry.sourceKey);
        Edited(a[i := a[i].(entries := a[i].entries[j := Refreshed(a[i].entries[j], entry)])])
  }

  function AddReply(a: Annotations, annotation: AnnotationId, entry: Entry): Outcome {
    if Taken(a, None, entry) then Throws(Conflict)
    else
      var i := IndexOf(a, annotation);
      if i == |a| then Throws(NotFound) else Edited(a[i := a[i].(entries := a[i].entries + [entry])])
  }

  function DeleteComment(a: Annotations, id: EntryId): Outcome {
    var i := FindAnnotation(a, Some(id), None);
    if i == |a| then Throws(NotFound)
    else
      var left := Without(a[i].entries, id);
      Edited(if left == [] then a[..i] + a[i + 1..] else a[i := a[i].(entries := left)])
  }

  function Apply(a: Annotations, edit: Edit): Outcome {
    match edit
    case Add(id, anchor, entry) => AddAnnotation(a, id, anchor, entry)
    case Upsert(id, anchor, entry) => UpsertAnnotation(a, id, anchor, entry)
    case Reply(annotation, entry) => AddReply(a, annotation, entry)
    case Delete(id) => DeleteComment(a, id)
  }

  // ---- What every edit keeps ----

  predicate IsEntry(a: Annotations, i: nat, j: nat) {
    i < |a| && j < |a[i].entries|
  }

  /** Annotation IDs, entry IDs and source keys are unique in the review, and no annotation is empty. */
  ghost predicate AnnotationsUnique(a: Annotations) {
    forall i: nat, x: nat :: i < |a| && x < |a| && a[i].id == a[x].id ==> i == x
  }

  ghost predicate EntriesUnique(a: Annotations) {
    forall i: nat, j: nat, x: nat, y: nat ::
      IsEntry(a, i, j) && IsEntry(a, x, y) && Alike(a[i].entries[j], a[x].entries[y]) ==> i == x && j == y
  }

  predicate Alike(e: Entry, f: Entry) {
    e.id == f.id || (e.sourceKey.Some? && e.sourceKey == f.sourceKey)
  }

  ghost predicate NoneEmpty(a: Annotations) {
    forall i: nat :: i < |a| ==> a[i].entries != []
  }

  ghost predicate ReviewOk(a: Annotations) {
    AnnotationsUnique(a) && EntriesUnique(a) && NoneEmpty(a)
  }

  /** What a new entry that is not taken differs from. */
  lemma NotTaken(a: Annotations, id: Option<AnnotationId>, entry: Entry, i: nat)
    requires !Taken(a, id, entry) && i < |a|
    ensures id != Some(a[i].id)
    ensures forall j: nat :: IsEntry(a, i, j) ==> !Alike(a[i].entries[j], entry) && !Alike(entry, a[i].entries[j])
  {
    forall j: nat | IsEntry(a, i, j)
      ensures !Alike(a[i].entries[j], entry) && !Alike(entry, a[i].entries[j])
    {
      assert !Collides(a[i].entries[j], entry);
    }
  }

  lemma AddKeeps(a: Annotations, id: AnnotationId, anchor: Anchor, entry: Entry)
    requires ReviewOk(a) && !Taken(a, Some(id), entry)
    ensures ReviewOk(a + [Annotation(id, anchor, [entry])])
  {
    hide Taken, Alike;
    var a' := a + [Annotation(id, anchor, [entry])];
    forall i: nat | i < |a|
      ensures a'[i] == a[i] && a[i].id != id
      ensures forall j: nat :: IsEntry(a, i, j) ==> !Alike(a[i].entries[j], entry) && !Alike(entry, a[i].entries[j])
    {
      NotTaken(a, Some(id), entry, i);
    }
    assert forall i: nat, j: nat :: IsEntry(a', i, j) ==> IsEntry(a, i, j) || (i == |a| && j == 0);
  }

  lemma ReplyKeeps(a: Annotations, i: nat, entry: Entry)
    requires ReviewOk(a) && !Taken(a, None, entry) && i < |a|
    ensures ReviewOk(a[i := a[i].(entries := a[i].entries + [entry])])
  {
    hide Taken, Alike;
    var a' := a[i := a[i].(entries := a[i].entries + [entry])];
    forall x: nat | x < |a|
      ensures forall j: nat :: IsEntry(a, x, j) ==> !Alike(a[x].entries[j], entry) && !Alike(entry, a[x].entries[j])
    {
      NotTaken(a, None, entry, x);
    }
    assert forall x: nat, y: nat :: IsEntry(a', x, y) ==> IsEntry(a, x, y) || (x == i && y == |a[i].entries|);
    assert forall x: nat, y: nat :: IsEntry(a, x, y) ==> a'[x].entries[y] == a[x].entries[y];
  }

  lemma RefreshKeeps(a: Annotations, i: nat, j: nat, entry: Entry)
    requires ReviewOk(a) && IsEntry(a, i, j)
    ensures ReviewOk(a[i := a[i].(entries := a[i].entries[j := Refreshed(a[i].entries[j], entry)])])
  {
    var a' := a[i := a[i].(entries := a[i].entries[j := Refreshed(a[i].entries[j], entry)])];
    assert forall x: nat, y: nat :: IsEntry(a', x, y) <==> IsEntry(a, x, y);
    forall x: nat, y: nat, v: nat, w: nat | IsEntry(a', x, y) && IsEntry(a', v, w)
      && Alike(a'[x].entries[y], a'[v].entries[w])
      ensures x == v && y == w
    {
      assert Alike(a[x].entries[y], a[v].entries[w]);
    }
  }

  lemma SkipFirst(entries: seq<Entry>, j: nat)
    requires j + 1 < |entries|
    ensures entries[..j + 1] + entries[j + 2..] == [entries[0]] + (entries[1..][..j] + entries[1..][j + 1..])
  {
  }

  lemma FirstOrRest(entries: seq<Entry>, id: EntryId)
    requires entries != []
    ensures Without(entries, id) == (if entries[0].id == id then [] else [entries[0]]) + Without(entries[1..], id)
    ensures IndexIn(entries, Some(id), None) == if entries[0].id == id then 0
        else IndexIn(entries[1..], Some(id), None) + 1
  {
  }

  predicate DistinctIds(entries: seq<Entry>) {
    forall x, y :: 0 <= x < y < |entries| ==> entries[x].id != entries[y].id
  }

  lemma RestDistinct(entries: seq<Entry>)
    requires DistinctIds(entries) && entries != []
    ensures DistinctIds(entries[1..]) && IndexIn(entries[1..], Some(entries[0].id), None) == |entries| - 1
  {
    hide IndexIn;
    assert forall x :: 0 <= x < |entries| - 1 ==> entries[1..][x] == entries[x + 1];
  }

  /** Of entries with distinct IDs, filtering one's ID out drops that one. */
  lemma {:induction false} WithoutDropsOne(entries: seq<Entry>, id: EntryId)
    requires DistinctIds(entries)
    ensures var j := IndexIn(entries, Some(id), None);
            Without(entries, id) == if j == |entries| then entries else entries[..j] + entries[j + 1..]
  {
    if entries != [] {
      var rest := entries[1..];
      RestDistinct(entries);
      FirstOrRest(entries, id);
      hide IndexIn, Without, DistinctIds;
      WithoutDropsOne(rest, id);
      var j := IndexIn(rest, Some(id), None);
      if entries[0].id == id {
        assert entries[..0] + entries[1..] == rest;
      } else if j == |rest| {
        assert [entries[0]] + rest == entries;
      } else {
        SkipFirst(entries, j);
      }
    }
  }

  lemma DropEntryKeeps(a: Annotations, i: nat, j: nat)
    requires ReviewOk(a) && IsEntry(a, i, j) && |a[i].entries| > 1
    ensures ReviewOk(a[i := a[i].(entries := a[i].entries[..j] + a[i].entries[j + 1..])])
  {
    hide Alike;
    var left := a[i].entries[..j] + a[i].entries[j + 1..];
    var a' := a[i := a[i].(entries := left)];
    forall x: nat, y: nat | IsEntry(a', x, y)
      ensures var y' := if x == i && y >= j then y + 1 else y; IsEntry(a, x, y') && a'[x].entries[y] == a[x].entries[y']
    {
    }
    forall x: nat, y: nat, v: nat, w: nat | IsEntry(a', x, y) && IsEntry(a', v, w)
      && Alike(a'[x].entries[y], a'[v].entries[w])
      ensures x == v && y == w
    {
      var y', w' := if x == i && y >= j then y + 1 else y, if v == i && w >= j then w + 1 else w;
      assert IsEntry(a, x, y') && IsEntry(a, v, w') && Alike(a[x].entries[y'], a[v].entries[w']);
    }
  }

  lemma DropAnnotationKeeps(a: Annotations, i: nat)
    requires ReviewOk(a) && i < |a|
    ensures ReviewOk(a[..i] + a[i + 1..])
  {
    hide Alike;
    var a' := a[..i] + a[i + 1..];
    assert forall x: nat :: x < |a'| ==> a'[x] == a[if x < i then x else x + 1];
    forall x: nat, y: nat, v: nat, w: nat | IsEntry(a', x, y) && IsEntry(a', v, w)
      && Alike(a'[x].entries[y], a'[v].entries[w])
      ensures x == v && y == w
    {
      var x', v' := if x < i then x else x + 1, if v < i then v else v + 1;
      assert IsEntry(a, x', y) && IsEntry(a, v', w) && Alike(a[x'].entries[y], a[v'].entries[w]);
    }
  }

  lemma IdsDistinctIn(a: Annotations, i: nat)
    requires EntriesUnique(a) && i < |a|
    ensures forall x, y :: 0 <= x < y < |a[i].entries| ==> a[i].entries[x].id != a[i].entries[y].id
  {
    forall x, y | 0 <= x < y < |a[i].entries|
      ensures a[i].entries[x].id != a[i].entries[y].id
    {
      assert IsEntry(a, i, x) && IsEntry(a, i, y);
      assert !Alike(a[i].entries[x], a[i].entries[y]);
    }
  }

  lemma DeleteKeeps(a: Annotations, id: EntryId)
    requires ReviewOk(a) && DeleteComment(a, id).Edited?
    ensures ReviewOk(DeleteComment(a, id).annotations)
  {
    hide EntriesUnique, AnnotationsUnique, Without;
    var i := FindAnnotation(a, Some(id), None);
    IdsDistinctIn(a, i);
    WithoutDropsOne(a[i].entries, id);
    if Without(a[i].entries, id) == [] {
      DropAnnotationKeeps(a, i);
    } else {
      DropEntryKeeps(a, i, IndexIn(a[i].entries, Some(id), None));
    }
  }

  /** Every edit that does not throw keeps the review's identities unique and its annotations non-empty. */
  lemma ApplyKeeps(a: Annotations, edit: Edit)
    requires ReviewOk(a) && Apply(a, edit).Edited?
    ensures ReviewOk(Apply(a, edit).annotations)
  {
    hide ReviewOk;
    match edit
    case Add(id, anchor, entry) => AddKeeps(a, id, anchor, entry);
    case Upsert(id, anchor, entry) =>
      var i := FindAnnotation(a, None, entry.sourceKey);
      if i == |a| {
        AddKeeps(a, id, anchor, entry);
      } else {
        RefreshKeeps(a, i, IndexIn(a[i].entries, None, entry.sourceKey), entry);
      }
    case Reply(annotation, entry) => ReplyKeeps(a, IndexOf(a, annotation), entry);
    case Delete(id) => DeleteKeeps(a, id);
  }

  /** A second upsert of a source changes nothing but what it refreshes: the review has one entry for each source. */
  lemma UpsertIsIdempotent(a: Annotations, id: AnnotationId, anchor: Anchor, entry: Entry)
    requires ReviewOk(a) && UpsertAnnotation(a, id, anchor, entry).Edited?
    ensures var once := UpsertAnnotation(a, id, anchor, entry).annotations;
            UpsertAnnotation(once, id, anchor, entry) == Edited(once)
  {
    if FindAnnotation(a, None, entry.sourceKey) == |a| {
      AddedIsFound(a, id, anchor, entry);
    } else {
      RefreshedIsFound(a, id, anchor, entry);
    }
  }

  lemma {:induction false} AddedIsFound(a: Annotations, id: AnnotationId, anchor: Anchor, entry: Entry)
    requires UpsertAnnotation(a, id, anchor, entry).Edited? && FindAnnotation(a, None, entry.sourceKey) == |a|
    ensures var once := UpsertAnnotation(a, id, anchor, entry).annotations;
            UpsertAnnotation(once, id, anchor, entry) == Edited(once)
  {
    var once := UpsertAnnotation(a, id, anchor, entry).annotations;
    var i := FindAnnotation(a, None, entry.sourceKey);
    var x := FindAnnotation(once, None, entry.sourceKey);
    assert once[i].entries == [entry];
    assert Matches(once[i].entries[0], None, entry.sourceKey);
    assert IndexIn(once[i].entries, None, entry.sourceKey) == 0;
    assert forall k :: 0 <= k < i ==> once[k] == a[k];
    assert x == i;
    assert Refreshed(entry, entry) == entry;
    assert once[i].(entries := [entry][0 := entry]) == once[i];
  }

  lemma {:induction false} RefreshedIsFound(a: Annotations, id: AnnotationId, anchor: Anchor, entry: Entry)
    requires UpsertAnnotation(a, id, anchor, entry).Edited? && FindAnnotation(a, None, entry.sourceKey) < |a|
    ensures var once := UpsertAnnotation(a, id, anchor, entry).annotations;
            UpsertAnnotation(once, id, anchor, entry) == Edited(once)
  {
    var once := UpsertAnnotation(a, id, anchor, entry).annotations;
    var i := FindAnnotation(a, None, entry.sourceKey);
    var x := FindAnnotation(once, None, entry.sourceKey);
    var j := IndexIn(a[i].entries, None, entry.sourceKey);
    assert forall k :: 0 <= k < j ==> once[i].entries[k] == a[i].entries[k];
    assert Matches(once[i].entries[j], None, entry.sourceKey);
    assert IndexIn(once[i].entries, None, entry.sourceKey) == j;
    assert forall k :: 0 <= k < i ==> once[k] == a[k];
    assert x == i;
    assert once[i].entries[j := Refreshed(once[i].entries[j], entry)] == once[i].entries;
  }

  /** Every entry of a review, in order. */
  function Entries(a: Annotations): seq<Entry> {
    if a == [] then [] else a[0].entries + Entries(a[1..])
  }

  lemma {:induction false} EntriesAppend(a: Annotations, b: Annotations)
    ensures Entries(a + b) == Entries(a) + Entries(b)
  {
    if a == [] {
      assert a + b == b;
    } else {
      EntriesAppend(a[1..], b);
      assert (a + b)[1..] == a[1..] + b;
      Associate(a[0].entries, Entries(a[1..]), Entries(b));
    }
  }

  lemma EntriesAround(a: Annotations, i: nat, x: Annotation)
    requires i < |a|
    ensures Entries(a) == Entries(a[..i]) + (a[i].entries + Entries(a[i + 1..]))
    ensures Entries(a[i := x]) == Entries(a[..i]) + (x.entries + Entries(a[i + 1..]))
  {
    EntriesAppend(a[..i], a[i..]);
    EntriesAppend(a[..i], [x] + a[i + 1..]);
    assert a == a[..i] + a[i..] && a[i := x] == a[..i] + ([x] + a[i + 1..]);
    assert a[i..][1..] == a[i + 1..] && ([x] + a[i + 1..])[1..] == a[i + 1..];
  }

  lemma {:induction false} WithoutAppend(x: seq<Entry>, y: seq<Entry>, id: EntryId)
    ensures Without(x + y, id) == Without(x, id) + Without(y, id)
  {
    if x == [] {
      assert x + y == y;
    } else {
      WithoutAppend(x[1..], y, id);
      assert (x + y)[1..] == x[1..] + y && (x + y)[0] == x[0];
      Associate([x[0]], Without(x[1..], id), Without(y, id));
    }
  }

  lemma {:induction false} WithoutAbsent(a: Annotations, id: EntryId)
    requires forall i: nat, j: nat :: IsEntry(a, i, j) ==> a[i].entries[j].id != id
    ensures Without(Entries(a), id) == Entries(a)
  {
    if a != [] {
      assert forall j: nat :: IsEntry(a, 0, j) ==> a[0].entries[j].id != id;
      assert forall i: nat, j: nat :: IsEntry(a[1..], i, j) ==> IsEntry(a, i + 1, j);
      WithoutAbsent(a[1..], id);
      NoneIsDropped(a[0].entries, id);
      WithoutAppend(a[0].entries, Entries(a[1..]), id);
    }
  }

  lemma {:induction false} NoneIsDropped(entries: seq<Entry>, id: EntryId)
    requires forall j :: 0 <= j < |entries| ==> entries[j].id != id
    ensures Without(entries, id) == entries
  {
    if entries != [] {
      NoneIsDropped(entries[1..], id);
    }
  }

  /** The other annotations have no entry with the ID of the one found. */
  lemma OthersLackIt(a: Annotations, id: EntryId, i: nat)
    requires ReviewOk(a) && i == FindAnnotation(a, Some(id), None) < |a|
    ensures Without(Entries(a[..i]), id) == Entries(a[..i])
    ensures Without(Entries(a[i + 1..]), id) == Entries(a[i + 1..])
  {
    var j := IndexIn(a[i].entries, Some(id), None);
    assert IsEntry(a, i, j);
    forall x: nat, y: nat | IsEntry(a, x, y) && x != i
      ensures a[x].entries[y].id != id
    {
      assert !Alike(a[i].entries[j], a[x].entries[y]);
    }
    var before, after := a[..i], a[i + 1..];
    forall x: nat, y: nat | IsEntry(after, x, y)
      ensures after[x].entries[y].id != id
    {
      assert IsEntry(a, x + i + 1, y);
    }
    forall x: nat, y: nat | IsEntry(before, x, y)
      ensures before[x].entries[y].id != id
    {
      assert IsEntry(a, x, y);
    }
    hide ReviewOk, Without, IndexIn, FindAnnotation, Entries, IsEntry, Alike;
    WithoutAbsent(before, id);
    WithoutAbsent(after, id);
  }

  /** Deleting a comment drops it and no other entry, and keeps the order of the rest. */
  lemma DeleteDropsOnlyIt(a: Annotations, id: EntryId)
    requires ReviewOk(a) && DeleteComment(a, id).Edited?
    ensures Entries(DeleteComment(a, id).annotations) == Without(Entries(a), id)
  {
    hide ReviewOk, Without, IndexIn, Entries;
    var i := FindAnnotation(a, Some(id), None);
    var left, before, after := Without(a[i].entries, id), Entries(a[..i]), Entries(a[i + 1..]);
    OthersLackIt(a, id, i);
    EntriesAround(a, i, a[i].(entries := left));
    EntriesAppend(a[..i], a[i + 1..]);
    WithoutAppend(before, a[i].entries + after, id);
    WithoutAppend(a[i].entries, after, id);
    assert [] + after == after;
  }

  /** Adding an annotation or a reply keeps every entry there was, in order. */
  lemma AddingLosesNothing(a: Annotations, edit: Edit)
    requires (edit.Add? || edit.Reply?) && Apply(a, edit).Edited?
    ensures var a' := Apply(a, edit).annotations;
            exists x, y :: Entries(a) == x + y && Entries(a') == x + [edit.entry] + y
  {
    match edit
    case Add(id, anchor, entry) =>
      EntriesAppend(a, [Annotation(id, anchor, [entry])]);
      assert Entries([Annotation(id, anchor, [entry])]) == [entry] + Entries([]);
      assert Entries(a) == Entries(a) + [] && Entries(Apply(a, edit).annotations) == Entries(a) + [entry] + [];
    case Reply(annotation, entry) =>
      var i := IndexOf(a, annotation);
      var rest := Entries(a[i + 1..]);
      EntriesAround(a, i, a[i].(entries := a[i].entries + [entry]));
      var x := Entries(a[..i]) + a[i].entries;
      Associate(Entries(a[..i]), a[i].entries, rest);
      assert Entries(a) == x + rest;
      assert Entries(Apply(a, edit).annotations) == x + [entry] + rest;
  }

  /** An annotation goes last, and a reply goes last under the annotation it answers; nothing else changes. */
  lemma AddedWhereAsked(a: Annotations, edit: Edit)
    requires (edit.Add? || edit.Reply?) && Apply(a, edit).Edited?
    ensures var a' := Apply(a, edit).annotations;
            && (edit.Add? ==> ValidAnchor(edit.anchor) && a' == a + [Annotation(edit.id, edit.anchor, [edit.entry])])
            && (edit.Reply? ==>
                  exists i :: 0 <= i < |a| && a[i].id == edit.annotation && a' == Replied(a, i, edit.entry))
  {
    if edit.Reply? {
      var i := IndexOf(a, edit.annotation);
      assert a[i].id == edit.annotation && Apply(a, edit).annotations == Replied(a, i, edit.entry);
    }
  }

  function Replied(a: Annotations, i: nat, entry: Entry): Annotations
    requires i < |a|
  {
    a[..i] + [Annotation(a[i].id, a[i].anchor, a[i].entries + [entry])] + a[i + 1..]
  }

  lemma {:induction false} EntryIsListed(a: Annotations, i: nat, j: nat)
    requires IsEntry(a, i, j)
    ensures a[i].entries[j] in Entries(a)
  {
    EntriesAround(a, i, a[i]);
  }

  lemma {:induction false} ListedIsEntry(a: Annotations, e: Entry) returns (i: nat, j: nat)
    requires e in Entries(a)
    ensures IsEntry(a, i, j) && a[i].entries[j] == e
  {
    if e in a[0].entries {
      i := 0;
      j :| j < |a[0].entries| && a[0].entries[j] == e;
    } else {
      i, j := ListedIsEntry(a[1..], e);
      i := i + 1;
    }
  }

  /** Not one or more whole lines of a Git patch. */
  ghost predicate BadAnchor(anchor: Anchor) {
    || anchor.startLine <= 0 || |anchor.lines| == 0
    || (exists line :: line in anchor.lines && ('\n' in line || '\r' in line))
    || |anchor.filePatch| < 11 || anchor.filePatch[..11] != "diff --git "
  }

  ghost predicate HasAnnotation(a: Annotations, id: AnnotationId) {
    exists x :: x in a && x.id == id
  }

  ghost predicate HasId(a: Annotations, id: EntryId) {
    exists e :: e in Entries(a) && e.id == id
  }

  ghost predicate HasSource(a: Annotations, key: string) {
    exists e :: e in Entries(a) && e.sourceKey == Some(key)
  }

  ghost predicate InUse(a: Annotations, entry: Entry) {
    HasId(a, entry.id) || (entry.sourceKey.Some? && HasSource(a, entry.sourceKey.value))
  }

  /** Why an edit throws, if it does. */
  ghost function Refusal(a: Annotations, edit: Edit): Option<Kind> {
    match edit
    case Add(id, anchor, entry) =>
      if BadAnchor(anchor) then Some(Invalid)
      else if HasAnnotation(a, id) || InUse(a, entry) then Some(Conflict) else None
    case Upsert(id, anchor, entry) =>
      if entry.sourceKey.None? then Some(Invalid)
      else if HasSource(a, entry.sourceKey.value) then None
      else if BadAnchor(anchor) then Some(Invalid)
      else if HasAnnotation(a, id) || InUse(a, entry) then Some(Conflict) else None
    case Reply(annotation, entry) =>
      if InUse(a, entry) then Some(Conflict) else if HasAnnotation(a, annotation) then None else Some(NotFound)
    case Delete(comment) => if HasId(a, comment) then None else Some(NotFound)
  }

  lemma AnchorIsBad(anchor: Anchor)
    ensures ValidAnchor(anchor) <==> !BadAnchor(anchor)
  {
    if !BadAnchor(anchor) {
      assert forall i :: 0 <= i < |anchor.lines| ==> anchor.lines[i] in anchor.lines;
    }
  }

  lemma TakenIsInUse(a: Annotations, id: Option<AnnotationId>, entry: Entry)
    ensures Taken(a, id, entry) <==> (id.Some? && HasAnnotation(a, id.value)) || InUse(a, entry)
  {
    if Taken(a, id, entry) {
      var i: nat :| i < |a| && (id == Some(a[i].id) || exists j ::
        0 <= j < |a[i].entries| && Collides(a[i].entries[j], entry));
      if id != Some(a[i].id) {
        var j: nat :| j < |a[i].entries| && Collides(a[i].entries[j], entry);
        EntryIsListed(a, i, j);
      } else {
        assert a[i] in a;
      }
    }
    if InUse(a, entry) {
      var e :| e in Entries(a) && Collides(e, entry);
      var i, j := ListedIsEntry(a, e);
    }
  }

  lemma FoundIsListed(a: Annotations, id: Option<EntryId>, key: Option<string>)
    ensures FindAnnotation(a, id, key) < |a| <==> exists e :: e in Entries(a) && Matches(e, id, key)
  {
    var i := FindAnnotation(a, id, key);
    if i < |a| {
      EntryIsListed(a, i, IndexIn(a[i].entries, id, key));
    }
    if e :| e in Entries(a) && Matches(e, id, key) {
      var x, y := ListedIsEntry(a, e);
      assert IndexIn(a[x].entries, id, key) <= y;
    }
  }

  /** An edit throws exactly for a bad anchor, an identity in use, or something that is not there, and says which. */
  lemma ThrowsExactly(a: Annotations, edit: Edit)
    ensures Refusal(a, edit) == match Apply(a, edit) case Edited(_) => None case Throws(kind) => Some(kind)
  {
    hide ValidAnchor, BadAnchor, Taken, InUse, FindAnnotation;
    match edit
    case Add(id, anchor, entry) =>
      AnchorIsBad(anchor);
      TakenIsInUse(a, Some(id), entry);
    case Upsert(id, anchor, entry) =>
      AnchorIsBad(anchor);
      TakenIsInUse(a, Some(id), entry);
      FoundIsListed(a, None, entry.sourceKey);
    case Reply(annotation, entry) =>
      TakenIsInUse(a, None, entry);
      var i := IndexOf(a, annotation);
      assert i < |a| ==> a[i] in a;
    case Delete(comment) =>
      FoundIsListed(a, Some(comment), None);
  }

  /** Refreshing a source changes the author, body and URL of its one entry, and nothing else. */
  lemma UpsertChangesOneEntry(a: Annotations, id: AnnotationId, anchor: Anchor, entry: Entry) returns (k: nat)
    requires entry.sourceKey.Some? && FindAnnotation(a, None, entry.sourceKey) < |a|
    ensures k < |Entries(a)| && Entries(a)[k].sourceKey == entry.sourceKey
    ensures UpsertAnnotation(a, id, anchor, entry).Edited?
    ensures var was := Entries(a)[k];
            Entries(UpsertAnnotation(a, id, anchor, entry).annotations)
              == Entries(a)[k := Entry(was.id, entry.author, entry.body, was.sourceKey, entry.sourceUrl)]
  {
    var i := FindAnnotation(a, None, entry.sourceKey);
    var j := IndexIn(a[i].entries, None, entry.sourceKey);
    var refreshed := a[i].entries[j := Refreshed(a[i].entries[j], entry)];
    var before, after := Entries(a[..i]), Entries(a[i + 1..]);
    EntriesAround(a, i, a[i].(entries := refreshed));
    k := |before| + j;
    hide Entries, FindAnnotation, IndexIn;
    UpdateInside(before, a[i].entries, after, j, refreshed[j]);
  }

  lemma UpdateInside(before: seq<Entry>, entries: seq<Entry>, after: seq<Entry>, j: nat, entry: Entry)
    requires j < |entries|
    ensures (before + (entries + after))[|before| + j] == entries[j]
    ensures before + (entries[j := entry] + after) == (before + (entries + after))[|before| + j := entry]
  {
  }

  // ---- The store and its editors ----

  type ReviewId = nat

  /** `commits`, for the proofs, are the edits each save took in, in order. */
  datatype StoredReview = StoredReview(revision: nat, annotations: Annotations, commits: seq<seq<Edit>>)

  /** A detached copy as loaded, the edits made to it, and what it is now. */
  datatype Copy = Copy(id: ReviewId, revision: nat, base: Annotations, edits: seq<Edit>, annotations: Annotations)

  /** `created` are all the IDs ever used: an ID is not used again. */
  datatype System = System(rows: map<ReviewId, StoredReview>, created: set<ReviewId>, copies: seq<Copy>)

  const NEW_SYSTEM := System(map[], {}, [])

  datatype SaveResult = Saved | Missing | RevisionConflict(expected: nat, actual: nat)

  function Save(rows: map<ReviewId, StoredReview>, copy: Copy): (map<ReviewId, StoredReview>, SaveResult) {
    if copy.id !in rows then (rows, Missing)
    else
      var row := rows[copy.id];
      if row.revision != copy.revision then (rows, RevisionConflict(copy.revision, row.revision))
      else (rows[copy.id := StoredReview(row.revision + 1, copy.annotations, row.commits + [copy.edits])], Saved)
  }

  /** Submitting a review takes it out of the store, at the revision the copy was loaded at. */
  function Accept(rows: map<ReviewId, StoredReview>, copy: Copy): (map<ReviewId, StoredReview>, SaveResult) {
    if copy.id !in rows then (rows, Missing)
    else if rows[copy.id].revision != copy.revision then (rows, RevisionConflict(copy.revision, rows[copy.id].revision))
    else (rows - {copy.id}, Saved)
  }

  datatype Event =
    | Creates(id: ReviewId)
    | Loads(id: ReviewId)
    | EditsCopy(c: nat, edit: Edit)
    | Saves(c: nat)
    | Accepts(c: nat)
    | Deletes(id: ReviewId)

  function Step(s: System, e: Event): System {
    match e
    case Creates(id) =>
      if id in s.created then s else s.(rows := s.rows[id := StoredReview(0, [], [])], created := s.created + {id})
    case Loads(id) =>
      if id in s.rows then s.(copies := s.copies + [Copy(id, s.rows[id].revision, s.rows[id].annotations, [],
        s.rows[id].annotations)]) else s
    case EditsCopy(c, edit) =>
      if c < |s.copies| && Apply(s.copies[c].annotations, edit).Edited? then
        var copy := s.copies[c];
        s.(copies := s.copies[c := copy.(edits := copy.edits + [edit],
          annotations := Apply(copy.annotations, edit).annotations)])
      else s
    case Saves(c) => if c < |s.copies| then s.(rows := Save(s.rows, s.copies[c]).0) else s
    case Accepts(c) => if c < |s.copies| then s.(rows := Accept(s.rows, s.copies[c]).0) else s
    case Deletes(id) => s.(rows := s.rows - {id})
  }

  function Run(events: seq<Event>): System {
    if events == [] then NEW_SYSTEM else Step(Run(events[..|events| - 1]), events[|events| - 1])
  }

  /** The edits one after the other; an edit that throws ends them. */
  function ApplyAll(from: Annotations, edits: seq<Edit>): Outcome {
    if edits == [] then Edited(from)
    else
      var before := ApplyAll(from, edits[..|edits| - 1]);
      if before.Throws? then before else Apply(before.annotations, edits[|edits| - 1])
  }

  function AllEdits(commits: seq<seq<Edit>>): seq<Edit> {
    if commits == [] then [] else AllEdits(commits[..|commits| - 1]) + commits[|commits| - 1]
  }

  lemma {:induction false} ApplyAllAppend(from: Annotations, first: seq<Edit>, more: seq<Edit>)
    requires ApplyAll(from, first).Edited?
    ensures ApplyAll(from, first + more) == ApplyAll(ApplyAll(from, first).annotations, more)
  {
    if more == [] {
      assert first + more == first;
    } else {
      ApplyAllAppend(from, first, more[..|more| - 1]);
      assert (first + more)[..|first + more| - 1] == first + more[..|more| - 1];
    }
  }

  /** The stored review is what all the saves' edits, in order, make of an empty one. */
  ghost predicate RowOk(row: StoredReview) {
    && row.revision == |row.commits|
    && ApplyAll([], AllEdits(row.commits)) == Edited(row.annotations)
    && ReviewOk(row.annotations)
  }

  ghost predicate CopyOk(copy: Copy) {
    && ApplyAll(copy.base, copy.edits) == Edited(copy.annotations)
    && ReviewOk(copy.annotations)
  }

  /** A copy at the store's revision was loaded from what is stored now. */
  ghost predicate CopyFits(s: System, copy: Copy) {
    && copy.id in s.created
    && (copy.id in s.rows ==>
          copy.revision <= s.rows[copy.id].revision
          && (copy.revision == s.rows[copy.id].revision ==> copy.base == s.rows[copy.id].annotations))
  }

  ghost predicate SystemOk(s: System) {
    && s.rows.Keys <= s.created
    && (forall id :: id in s.rows ==> RowOk(s.rows[id]))
    && (forall c: nat :: c < |s.copies| ==> CopyOk(s.copies[c]) && CopyFits(s, s.copies[c]))
  }

  lemma SavedRowOk(row: StoredReview, copy: Copy)
    requires RowOk(row) && CopyOk(copy) && copy.base == row.annotations
    ensures RowOk(StoredReview(row.revision + 1, copy.annotations, row.commits + [copy.edits]))
  {
    var commits := row.commits + [copy.edits];
    assert commits[..|commits| - 1] == row.commits;
    ApplyAllAppend([], AllEdits(row.commits), copy.edits);
  }

  lemma EditedCopyOk(copy: Copy, edit: Edit)
    requires CopyOk(copy) && Apply(copy.annotations, edit).Edited?
    ensures CopyOk(copy.(edits := copy.edits + [edit], annotations := Apply(copy.annotations, edit).annotations))
  {
    var edits := copy.edits + [edit];
    assert edits[..|edits| - 1] == copy.edits;
    ApplyKeeps(copy.annotations, edit);
  }

  lemma LoadedCopyOk(row: StoredReview, id: ReviewId)
    requires RowOk(row)
    ensures CopyOk(Copy(id, row.revision, row.annotations, [], row.annotations))
  {
  }

  lemma NewRowOk()
    ensures RowOk(StoredReview(0, [], []))
  {
  }

  lemma CreatesKeeps(s: System, id: ReviewId)
    requires SystemOk(s)
    ensures SystemOk(Step(s, Creates(id)))
  {
    NewRowOk();
    hide RowOk, CopyOk;
  }

  lemma LoadsKeeps(s: System, id: ReviewId)
    requires SystemOk(s)
    ensures SystemOk(Step(s, Loads(id)))
  {
    hide RowOk, CopyOk;
    if id in s.rows {
      LoadedCopyOk(s.rows[id], id);
    }
  }

  lemma EditsCopyKeeps(s: System, c: nat, edit: Edit)
    requires SystemOk(s)
    ensures SystemOk(Step(s, EditsCopy(c, edit)))
  {
    hide RowOk, CopyOk, Apply;
    if c < |s.copies| && Apply(s.copies[c].annotations, edit).Edited? {
      EditedCopyOk(s.copies[c], edit);
    }
  }

  lemma SavesKeeps(s: System, c: nat)
    requires SystemOk(s)
    ensures SystemOk(Step(s, Saves(c)))
  {
    hide RowOk, CopyOk;
    if c < |s.copies| {
      var copy := s.copies[c];
      if copy.id in s.rows && s.rows[copy.id].revision == copy.revision {
        SavedRowOk(s.rows[copy.id], copy);
      }
    }
  }

  lemma StepKeeps(s: System, e: Event)
    requires SystemOk(s)
    ensures SystemOk(Step(s, e))
  {
    match e
    case Creates(id) => CreatesKeeps(s, id);
    case Loads(id) => LoadsKeeps(s, id);
    case EditsCopy(c, edit) => EditsCopyKeeps(s, c, edit);
    case Saves(c) => SavesKeeps(s, c);
    case Accepts(c) =>
      hide RowOk, CopyOk;
    case Deletes(id) =>
      hide RowOk, CopyOk;
  }

  lemma {:induction false} RunKeeps(events: seq<Event>)
    ensures SystemOk(Run(events))
  {
    hide Step;
    if events != [] {
      RunKeeps(events[..|events| - 1]);
      StepKeeps(Run(events[..|events| - 1]), events[|events| - 1]);
    }
  }

  /** A save is taken only as the copy's edits applied to what is stored at that moment, which nobody has changed since
      the copy was loaded, and raises the revision by one; any other save changes nothing and says why. */
  lemma NoLostEdits(events: seq<Event>, c: nat)
    requires c < |Run(events).copies|
    ensures var s := Run(events);
            var copy := s.copies[c];
            var (rows, result) := Save(s.rows, copy);
            match result
            case Saved =>
              && copy.id in s.rows && s.rows[copy.id].revision == copy.revision
              && ApplyAll(s.rows[copy.id].annotations, copy.edits) == Edited(rows[copy.id].annotations)
              && rows[copy.id].revision == s.rows[copy.id].revision + 1
              && rows - {copy.id} == s.rows - {copy.id}
            case Missing => copy.id !in s.rows && rows == s.rows
            case RevisionConflict(expected, actual) =>
              rows == s.rows && copy.id in s.rows && expected < actual == s.rows[copy.id].revision
  {
    RunKeeps(events);
    assert CopyFits(Run(events), Run(events).copies[c]) && CopyOk(Run(events).copies[c]);
  }

  /** Whatever the editors do, what is stored is the edits of every save, in order, applied to an empty review, one
      revision for each, with unique identities and no empty annotation. */
  lemma StoredIsEverySave(events: seq<Event>, id: ReviewId)
    requires id in Run(events).rows
    ensures var row := Run(events).rows[id];
            && ApplyAll([], AllEdits(row.commits)) == Edited(row.annotations)
            && row.revision == |row.commits| && ReviewOk(row.annotations)
  {
    RunKeeps(events);
  }

  /** A review is consumed only as its submitter saw it: no save was taken after its copy was loaded. */
  lemma AcceptedAsSeen(events: seq<Event>, c: nat)
    requires c < |Run(events).copies| && Accept(Run(events).rows, Run(events).copies[c]).1.Saved?
    ensures var s := Run(events);
            && s.copies[c].id in s.rows && s.copies[c].base == s.rows[s.copies[c].id].annotations
            && s.copies[c].id !in Accept(s.rows, s.copies[c]).0
  {
    RunKeeps(events);
    assert CopyFits(Run(events), Run(events).copies[c]);
  }

  /** A submission is taken just when its copy is what is stored, and any other changes nothing and says why. */
  lemma AcceptedExactly(events: seq<Event>, c: nat)
    requires c < |Run(events).copies|
    ensures var s := Run(events);
            var copy := s.copies[c];
            var (rows, result) := Accept(s.rows, copy);
            if copy.id !in s.rows then result == Missing && rows == s.rows
            else if s.rows[copy.id].revision > copy.revision then
              result == RevisionConflict(copy.revision, s.rows[copy.id].revision) && rows == s.rows
            else result == Saved && rows == s.rows - {copy.id} && copy.base == s.rows[copy.id].annotations
  {
    RunKeeps(events);
    assert CopyFits(Run(events), Run(events).copies[c]);
  }

  /** Someone loads a review, makes the edits to the copy and saves it. */
  function Session(id: ReviewId, c: nat, edits: seq<Edit>): seq<Event> {
    [Loads(id)] + seq(|edits|, i requires 0 <= i < |edits| => EditsCopy(c, edits[i])) + [Saves(c)]
  }

  /** The system after more events. */
  function After(s: System, events: seq<Event>): System {
    if events == [] then s else Step(After(s, events[..|events| - 1]), events[|events| - 1])
  }

  lemma {:induction false} RunAfter(events: seq<Event>, more: seq<Event>)
    ensures Run(events + more) == After(Run(events), more)
  {
    if more == [] {
      assert events + more == events;
    } else {
      var first := more[..|more| - 1];
      RunAfter(events, first);
      assert (events + more)[..|events + more| - 1] == events + first;
    }
  }

  lemma {:induction false} CopyTakesEdits(s: System, id: ReviewId, edits: seq<Edit>)
    requires id in s.rows && ApplyAll(s.rows[id].annotations, edits).Edited?
    ensures var row := s.rows[id];
            var s' := After(s, Session(id, |s.copies|, edits)[..|edits| + 1]);
            && s'.rows == s.rows && s'.created == s.created
            && s'.copies == s.copies + [Copy(id, row.revision, row.annotations, edits,
              ApplyAll(row.annotations, edits).annotations)]
  {
    hide Apply, Save, Accept;
    var c := |s.copies|;
    var events := Session(id, c, edits)[..|edits| + 1];
    if edits == [] {
      assert events == [Loads(id)] && events[..0] == [];
    } else {
      var first := edits[..|edits| - 1];
      CopyTakesEdits(s, id, first);
      assert events[..|edits|] == Session(id, c, first)[..|first| + 1];
      assert events[|edits|] == EditsCopy(c, edits[|edits| - 1]) && edits == first + [edits[|edits| - 1]];
      hide Session, ApplyAll;
    }
  }

  /** Unless a save comes between, a review edited and saved is stored as all the edits made it, one revision up. */
  lemma SessionIsStored(events: seq<Event>, id: ReviewId, edits: seq<Edit>)
    requires id in Run(events).rows && ApplyAll(Run(events).rows[id].annotations, edits).Edited?
    ensures var s := Run(events);
            var row := s.rows[id];
            var stored := ApplyAll(row.annotations, edits).annotations;
            Run(events + Session(id, |s.copies|, edits)).rows
              == s.rows[id := StoredReview(row.revision + 1, stored, row.commits + [edits])]
  {
    hide Apply, Accept, Run;
    var s := Run(events);
    var all := Session(id, |s.copies|, edits);
    RunAfter(events, all);
    CopyTakesEdits(s, id, edits);
    assert all[|all| - 1] == Saves(|s.copies|) && all[..|all| - 1] == all[..|edits| + 1];
    hide Session, ApplyAll;
  }

  lemma RunMore(events: seq<Event>, e: Event)
    ensures Run(events + [e]) == Step(Run(events), e)
  {
    assert (events + [e])[..|events|] == events;
  }

  /** A review is created empty and never twice, and is gone once deleted. */
  lemma CreatedAndGone(events: seq<Event>, id: ReviewId)
    ensures var s := Run(events);
            var created := Run(events + [Creates(id)]);
            && created.rows == (if id in s.created then s.rows else s.rows[id := StoredReview(0, [], [])])
            && created.created == s.created + {id}
    ensures Run(events + [Deletes(id)]).rows == Run(events).rows - {id}
  {
    RunMore(events, Creates(id));
    RunMore(events, Deletes(id));
    hide Run;
  }

  /** Unless a save comes between, a review loaded and submitted is gone from the store. */
  lemma SubmittedIsGone(events: seq<Event>, id: ReviewId)
    requires id in Run(events).rows
    ensures var s := Run(events);
            Run(events + [Loads(id)] + [Accepts(|s.copies|)]).rows == s.rows - {id}
  {
    RunMore(events, Loads(id));
    RunMore(events + [Loads(id)], Accepts(|Run(events).copies|));
    hide Run;
  }

  // ---- A detached review ----

  class CodeReview {
    var annotations: Annotations

    constructor (state: Annotations)
      ensures annotations == state
    {
      annotations := state;
    }

    method AddTo(id: AnnotationId, anchor: Anchor, entry: Entry) returns (thrown: Option<Kind>)
      modifies this
      ensures match AddAnnotation(old(annotations), id, anchor, entry)
              case Edited(edited) => thrown == None && annotations == edited
              case Throws(kind) => thrown == Some(kind) && annotations == old(annotations)
    {
      if !ValidAnchor(anchor) {
        return Some(Invalid);
      }
      if Taken(annotations, Some(id), entry) {
        return Some(Conflict);
      }
      annotations := annotations + [Annotation(id, anchor, [entry])];
      thrown := None;
    }

    method UpsertIn(id: AnnotationId, anchor: Anchor, entry: Entry) returns (thrown: Option<Kind>)
      modifies this
      ensures match UpsertAnnotation(old(annotations), id, anchor, entry)
              case Edited(edited) => thrown == None && annotations == edited
              case Throws(kind) => thrown == Some(kind) && annotations == old(annotations)
    {
      if entry.sourceKey.None? {
        return Some(Invalid);
      }
      var i := FindAnnotation(annotations, None, entry.sourceKey);
      if i == |annotations| {
        thrown := AddTo(id, anchor, entry);
        return;
      }
      var j := IndexIn(annotations[i].entries, None, entry.sourceKey);
      var existing := annotations[i].entries[j];
      existing := existing.(author := entry.author, body := entry.body, sourceUrl := entry.sourceUrl);
      annotations := annotations[i := annotations[i].(entries := annotations[i].entries[j := existing])];
      thrown := None;
    }

    method ReplyTo(annotation: AnnotationId, entry: Entry) returns (thrown: Option<Kind>)
      modifies this
      ensures match AddReply(old(annotations), annotation, entry)
              case Edited(edited) => thrown == None && annotations == edited
              case Throws(kind) => thrown == Some(kind) && annotations == old(annotations)
    {
      if Taken(annotations, None, entry) {
        return Some(Conflict);
      }
      var i := IndexOf(annotations, annotation);
      if i == |annotations| {
        return Some(NotFound);
      }
      annotations := annotations[i := annotations[i].(entries := annotations[i].entries + [entry])];
      thrown := None;
    }

    method DeleteFrom(id: EntryId) returns (thrown: Option<Kind>)
      modifies this
      ensures match DeleteComment(old(annotations), id)
              case Edited(edited) => thrown == None && annotations == edited
              case Throws(kind) => thrown == Some(kind) && annotations == old(annotations)
    {
      var i := FindAnnotation(annotations, Some(id), None);
      if i == |annotations| {
        return Some(NotFound);
      }
      var left := Without(annotations[i].entries, id);
      if left == [] {
        annotations := annotations[..i] + annotations[i + 1..];
      } else {
        annotations := annotations[i := annotations[i].(entries := left)];
      }
      thrown := None;
    }
  }
}
