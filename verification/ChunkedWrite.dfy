/** A long file's write: how the server cuts it into chunks (`writeFileFrom`), and how a node keeps them and
    places the file (`fs.write`). */
module ChunkedWrite {
  import opened Bytes

  const WRITE_CHUNK_BYTES := 524288
  const FINISHED_WRITES := 1024

  type WriteId = nat

  datatype Chunk = Chunk(offset: nat, data: seq<Byte>, last: bool)

  // ---- The chunks of a source ----

  function ChunkCount(size: nat): (count: nat)
    ensures (count - 1) * WRITE_CHUNK_BYTES <= size <= count * WRITE_CHUNK_BYTES
    ensures count >= 1 && (count > 1 ==> (count - 1) * WRITE_CHUNK_BYTES < size)
  {
    if size == 0 then 1 else (size - 1) / WRITE_CHUNK_BYTES + 1
  }

  function Min(x: nat, y: nat): nat {
    if x < y then x else y
  }

  /** Where chunk `i` ends. */
  function EndOf(size: nat, i: nat): nat {
    Min((i + 1) * WRITE_CHUNK_BYTES, size)
  }

  function ChunkAt(source: seq<Byte>, i: nat): Chunk
    requires i < ChunkCount(|source|)
  {
    Chunk(i * WRITE_CHUNK_BYTES, source[i * WRITE_CHUNK_BYTES..EndOf(|source|, i)], i == ChunkCount(|source|) - 1)
  }

  function Datas(source: seq<Byte>, n: nat): seq<Byte>
    requires n <= ChunkCount(|source|)
  {
    if n == 0 then [] else Datas(source, n - 1) + ChunkAt(source, n - 1).data
  }

  /** The first chunks carry the first bytes; all of them carry the source. */
  lemma {:induction false} ChunksCover(source: seq<Byte>, n: nat)
    requires n <= ChunkCount(|source|)
    ensures Datas(source, n) == source[..Min(n * WRITE_CHUNK_BYTES, |source|)]
    ensures n == ChunkCount(|source|) ==> Datas(source, n) == source
  {
    if n > 0 {
      ChunksCover(source, n - 1);
      var from, to := (n - 1) * WRITE_CHUNK_BYTES, EndOf(|source|, n - 1);
      assert from <= to <= |source|;
      assert source[..from] + source[from..to] == source[..to];
      assert n == ChunkCount(|source|) ==> source[..to] == source;
    }
  }

  /** Each chunk starts where those before it ended, fits a frame, is empty only for an empty source, and is last
      just when no source byte is left after it. */
  lemma ChunkShape(source: seq<Byte>, i: nat)
    requires i < ChunkCount(|source|)
    ensures var chunk := ChunkAt(source, i);
            && chunk.offset == |Datas(source, i)| && |chunk.data| <= WRITE_CHUNK_BYTES
            && (chunk.data == [] <==> source == [])
            && (chunk.last <==> chunk.offset + |chunk.data| == |source|)
  {
    ChunksCover(source, i);
  }

  /** The first chunk that is not accepted ends the write; `refusedAt` past them all is none. */
  predicate AreFirstChunks(sent: seq<Chunk>, source: seq<Byte>) {
    |sent| <= ChunkCount(|source|) && forall i :: 0 <= i < |sent| ==> sent[i] == ChunkAt(source, i)
  }

  ghost predicate HeldAtMost(peak: nat, pieces: seq<seq<Byte>>) {
    peak <= WRITE_CHUNK_BYTES || exists i :: 0 <= i < |pieces| && peak <= WRITE_CHUNK_BYTES + |pieces[i]|
  }

  lemma {:induction false} FlattenSplit(parts: seq<seq<Byte>>, n: nat)
    requires n <= |parts|
    ensures Flatten(parts) == Flatten(parts[..n]) + Flatten(parts[n..])
  {
    FlattenAppend(parts[..n], parts[n..]);
    assert parts == parts[..n] + parts[n..];
  }

  /** `writeFileFrom`: however the source comes in pieces, the chunks sent are those of the whole, in order, and it
      resolves exactly when each was accepted. At most a chunk and a piece are held. */
  method WriteFileFrom(pieces: seq<seq<Byte>>, refusedAt: nat) returns (sent: seq<Chunk>, resolved: bool, peak: nat)
    ensures AreFirstChunks(sent, Flatten(pieces))
    ensures resolved <==> ChunkCount(|Flatten(pieces)|) <= refusedAt
    ensures |sent| == (if resolved then ChunkCount(|Flatten(pieces)|) else refusedAt + 1)
    ensures HeldAtMost(peak, pieces)
  {
    ghost var source := Flatten(pieces);
    sent, resolved, peak := [], false, 0;
    var pending: seq<Byte> := [];
    var j := 0;
    assert Flatten(pieces[..0]) == [];
    NothingSent(source, pieces);
    hide Flatten, ChunkCount, ChunkAt, AreFirstChunks, IsRest, HeldAtMost;
    while j < |pieces|
      invariant 0 <= j <= |pieces| && |sent| <= refusedAt && AreFirstChunks(sent, source)
      invariant Flatten(pieces[..j]) <= source && IsRest(Flatten(pieces[..j]), |sent|, pending)
      invariant |pending| <= WRITE_CHUNK_BYTES && (|sent| == 0 || pending != [])
      invariant HeldAtMost(peak, pieces)
    {
      ghost var taken := Flatten(pieces[..j]) + pieces[j];
      TakePiece(pieces, j);
      RestWithPiece(Flatten(pieces[..j]), |sent|, pending, pieces[j]);
      pending := pending + pieces[j];
      if |pending| > peak {
        peak := |pending|;
        HeldWithPiece(peak, pieces, j);
      }
      sent, pending := SendFullChunks(source, taken, sent, pending, refusedAt);
      if |sent| > refusedAt {
        return;
      }
      j := j + 1;
    }
    assert pieces[..j] == pieces;
    TakeLast(source, sent, pending);
    sent := sent + [Chunk(|sent| * WRITE_CHUNK_BYTES, pending, true)];
    resolved := |sent| <= refusedAt;
  }

  /** Sends full chunks while more than one is pending, up to the first refused. */
  method SendFullChunks(ghost source: seq<Byte>, ghost taken: seq<Byte>, first: seq<Chunk>, rest: seq<Byte>,
    refusedAt: nat) returns (sent: seq<Chunk>, pending: seq<Byte>)
    requires |first| <= refusedAt && AreFirstChunks(first, source) && taken <= source
    requires IsRest(taken, |first|, rest) && (|first| == 0 || rest != [])
    ensures AreFirstChunks(sent, source) && |sent| <= refusedAt + 1
    ensures |sent| <= refusedAt ==> IsRest(taken, |sent|, pending) && |pending| <= WRITE_CHUNK_BYTES
    ensures |sent| <= refusedAt ==> |sent| == 0 || pending != []
    ensures |sent| > refusedAt ==> |sent| < ChunkCount(|source|)
  {
    sent, pending := first, rest;
    hide ChunkCount, ChunkAt, AreFirstChunks, IsRest;
    while |pending| > WRITE_CHUNK_BYTES
      invariant |sent| <= refusedAt && AreFirstChunks(sent, source) && IsRest(taken, |sent|, pending)
      invariant |sent| == 0 || pending != []
      decreases |pending|
    {
      TakeChunk(source, taken, sent, pending);
      sent := sent + [Chunk(|sent| * WRITE_CHUNK_BYTES, pending[..WRITE_CHUNK_BYTES], false)];
      if |sent| == refusedAt + 1 {
        return;
      }
      pending := pending[WRITE_CHUNK_BYTES..];
    }
  }

  /** The bytes taken that are not in the first `n` chunks. */
  predicate IsRest(taken: seq<Byte>, n: nat, rest: seq<Byte>) {
    n * WRITE_CHUNK_BYTES <= |taken| && rest == taken[n * WRITE_CHUNK_BYTES..]
  }

  lemma NothingSent(source: seq<Byte>, pieces: seq<seq<Byte>>)
    ensures AreFirstChunks([], source) && IsRest([], 0, []) && HeldAtMost(0, pieces)
  {
  }

  lemma RestWithPiece(taken: seq<Byte>, n: nat, rest: seq<Byte>, piece: seq<Byte>)
    requires IsRest(taken, n, rest)
    ensures IsRest(taken + piece, n, rest + piece)
  {
  }

  lemma HeldWithPiece(peak: nat, pieces: seq<seq<Byte>>, j: nat)
    requires j < |pieces| && peak <= WRITE_CHUNK_BYTES + |pieces[j]|
    ensures HeldAtMost(peak, pieces)
  {
  }

  /** More than a chunk left: the next chunk is a full one, and some of the source is left for another. */
  lemma TakeChunk(source: seq<Byte>, taken: seq<Byte>, sent: seq<Chunk>, rest: seq<Byte>)
    requires AreFirstChunks(sent, source) && taken <= source && IsRest(taken, |sent|, rest)
        && |rest| > WRITE_CHUNK_BYTES
    ensures |sent| + 1 < ChunkCount(|source|)
    ensures AreFirstChunks(sent + [Chunk(|sent| * WRITE_CHUNK_BYTES, rest[..WRITE_CHUNK_BYTES], false)], source)
    ensures IsRest(taken, |sent| + 1, rest[WRITE_CHUNK_BYTES..])
  {
    FullChunk(source, taken, |sent|);
    DropChunk(taken, |sent| * WRITE_CHUNK_BYTES);
  }

  /** At most a chunk left, and some of it unless nothing was sent: the next chunk is the last. */
  lemma TakeLast(source: seq<Byte>, sent: seq<Chunk>, rest: seq<Byte>)
    requires AreFirstChunks(sent, source) && IsRest(source, |sent|, rest)
    requires |rest| <= WRITE_CHUNK_BYTES && (|sent| == 0 || rest != [])
    ensures |sent| + 1 == ChunkCount(|source|)
    ensures AreFirstChunks(sent + [Chunk(|sent| * WRITE_CHUNK_BYTES, rest, true)], source)
  {
    FinalChunk(source, |sent|);
  }

  lemma TakePiece(pieces: seq<seq<Byte>>, j: nat)
    requires j < |pieces|
    ensures Flatten(pieces[..j + 1]) == Flatten(pieces[..j]) + pieces[j]
    ensures Flatten(pieces[..j + 1]) <= Flatten(pieces)
  {
    hide Flatten;
    FlattenSplit(pieces, j + 1);
    FlattenLast(pieces[..j], pieces[j]);
    assert pieces[..j + 1] == pieces[..j] + [pieces[j]];
  }

  lemma DropChunk(taken: seq<Byte>, from: nat)
    requires from + WRITE_CHUNK_BYTES < |taken|
    ensures taken[from..][WRITE_CHUNK_BYTES..] == taken[from + WRITE_CHUNK_BYTES..]
  {
  }

  /** With at most a chunk left, and some of it unless nothing was sent, the next chunk is the last. */
  lemma FinalChunk(source: seq<Byte>, i: nat)
    requires i * WRITE_CHUNK_BYTES <= |source| <= (i + 1) * WRITE_CHUNK_BYTES
        && (i == 0 || i * WRITE_CHUNK_BYTES < |source|)
    ensures i == ChunkCount(|source|) - 1
    ensures ChunkAt(source, i) == Chunk(i * WRITE_CHUNK_BYTES, source[i * WRITE_CHUNK_BYTES..], true)
  {
    assert source[i * WRITE_CHUNK_BYTES..EndOf(|source|, i)] == source[i * WRITE_CHUNK_BYTES..];
  }

  /** With more than a chunk still to send, the next chunk is a full one and not the last. */
  lemma FullChunk(source: seq<Byte>, taken: seq<Byte>, i: nat)
    requires taken <= source && (i + 1) * WRITE_CHUNK_BYTES < |taken|
    ensures i < ChunkCount(|source|) - 1
    ensures ChunkAt(source, i) == Chunk(i * WRITE_CHUNK_BYTES, taken[i * WRITE_CHUNK_BYTES..][..WRITE_CHUNK_BYTES],
        false)
  {
    assert source[i * WRITE_CHUNK_BYTES..(i + 1) * WRITE_CHUNK_BYTES]
        == taken[i * WRITE_CHUNK_BYTES..][..WRITE_CHUNK_BYTES];
  }

  // ---- A node's write ----

  /** What the disk does: all of it works, keeping the chunk fails at once or after some bytes, or placing the file
      fails, having left the target alone or cut to the first bytes of the new content. */
  datatype Disk = Works | KeepFails(part: Option<nat>) | PlaceFails(left: Option<nat>)

  datatype Answer = Done | Refused | FileError

  /** The chunks kept of one write, the IDs of finished writes, oldest first, and what is at the write's path. */
  datatype Store = Store(kept: Option<seq<Byte>>, finished: seq<WriteId>, target: Option<seq<Byte>>)

  function Take(data: seq<Byte>, n: nat): seq<Byte> {
    data[..Min(n, |data|)]
  }

  function Remember(finished: seq<WriteId>, id: WriteId): seq<WriteId> {
    var longer := if id in finished then finished else finished + [id];
    if |longer| > FINISHED_WRITES then longer[1..] else longer
  }

  function Placed(target: Option<seq<Byte>>, content: seq<Byte>, disk: Disk): Option<seq<Byte>> {
    match disk
    case PlaceFails(None) => target
    case PlaceFails(Some(n)) => Some(Take(content, n))
    case _ => Some(content)
  }

  function KeptBytes(s: Store): seq<Byte> {
    if s.kept.Some? then s.kept.value else []
  }

  function WriteChunk(s: Store, id: WriteId, chunk: Chunk, disk: Disk): (Store, Answer) {
    if chunk.offset == 0 && chunk.last then
      (s.(target := Placed(s.target, chunk.data, disk)), if disk.PlaceFails? then FileError else Done)
    else if chunk.last && id in s.finished then (s, Done)
    else if chunk.offset > |KeptBytes(s)| then (s, Refused)
    else if disk == KeepFails(None) then (s, Refused)
    else if disk.KeepFails? then
      (s.(kept := Some(KeptBytes(s)[..chunk.offset] + Take(chunk.data, disk.part.value))), Refused)
    else
      var content := KeptBytes(s)[..chunk.offset] + chunk.data;
      if !chunk.last then (s.(kept := Some(content)), Done)
      else if disk.PlaceFails? then (s.(kept := None, target := Placed(s.target, content, disk)), FileError)
      else (s.(kept := None, target := Some(content), finished := Remember(s.finished, id)), Done)
  }

  predicate IsWhole(chunk: Chunk) {
    chunk.offset == 0 && chunk.last
  }

  /** A chunk is refused exactly when it leaves a gap or cannot be kept, and the file is then as it was. */
  lemma RefusedForAGap(s: Store, id: WriteId, chunk: Chunk, disk: Disk)
    ensures var (s', answer) := WriteChunk(s, id, chunk, disk);
            && (answer.Refused? <==>
                  !IsWhole(chunk) && !(chunk.last && id in s.finished)
                  && (chunk.offset > |KeptBytes(s)| || disk.KeepFails?))
            && (answer.Refused? ==> s'.target == s.target && s'.finished == s.finished)
  {
  }

  /** The last chunk of a write not yet finished is placed with what is kept before it; nothing stays kept, whether
      that works or not, and the write is remembered as finished exactly if it does. */
  lemma LastChunkPlaces(s: Store, id: WriteId, chunk: Chunk, disk: Disk)
    requires chunk.last && (IsWhole(chunk) || id !in s.finished)
    requires !WriteChunk(s, id, chunk, disk).1.Refused?
    ensures chunk.offset <= |KeptBytes(s)|
    ensures var content := KeptBytes(s)[..chunk.offset] + chunk.data;
            var (s', answer) := WriteChunk(s, id, chunk, disk);
            && (answer.Done? <==> !disk.PlaceFails?) && (!answer.Done? ==> answer.FileError?)
            && (answer.Done? ==> s'.target == Some(content))
            && (answer.FileError? ==> match disk.left
                case None => s'.target == s.target
                case Some(n) => s'.target.Some? && s'.target.value <= content && |s'.target.value| == Min(n, |content|))
            && s'.kept == (if IsWhole(chunk) then s.kept else None)
            && (answer.Done? && !IsWhole(chunk) ==> id in s'.finished)
            && (answer.FileError? || IsWhole(chunk) ==> s'.finished == s.finished)
  {
    var longer := s.finished + [id];
    assert longer[|longer| - 1] == id && (|longer| > 1 ==> longer[1..][|longer| - 2] == id);
    assert KeptBytes(s)[..0] + chunk.data == chunk.data;
  }

  /** A chunk before the last only changes what is kept: up to its offset as it was, and then its bytes. */
  lemma EarlierChunkIsKept(s: Store, id: WriteId, chunk: Chunk, disk: Disk)
    requires !chunk.last && WriteChunk(s, id, chunk, disk).1.Done?
    ensures chunk.offset <= |KeptBytes(s)|
    ensures WriteChunk(s, id, chunk, disk).0
      == Store(Some(KeptBytes(s)[..chunk.offset] + chunk.data), s.finished, s.target)
  {
  }

  class Files {
    var kept: Option<seq<Byte>>
    var finished: seq<WriteId>
    var target: Option<seq<Byte>>

    ghost function Model(): Store
      reads this
    {
      Store(kept, finished, target)
    }

    constructor (there: Option<seq<Byte>>)
      ensures Model() == Store(None, [], there)
    {
      kept, finished, target := None, [], there;
    }

    method Write(id: WriteId, chunk: Chunk, disk: Disk) returns (answer: Answer)
      modifies this
      ensures (Model(), answer) == WriteChunk(old(Model()), id, chunk, disk)
    {
      if chunk.offset == 0 && chunk.last {
        answer := Place(chunk.data, disk);
        return;
      }
      if chunk.last && id in finished {
        return Done;
      }
      var written := if kept.Some? then |kept.value| else 0;
      if chunk.offset > written {
        return Refused;
      }
      if disk == KeepFails(None) {
        return Refused;
      }
      if chunk.offset == 0 {
        kept := Some([]);
      } else {
        kept := Some(kept.value[..chunk.offset]);
      }
      if disk.KeepFails? {
        kept := Some(kept.value + Take(chunk.data, disk.part.value));
        return Refused;
      }
      kept := Some(kept.value + chunk.data);
      if !chunk.last {
        return Done;
      }
      answer := Place(kept.value, disk);
      kept := None;
      if answer.Done? {
        if id !in finished {
          finished := finished + [id];
        }
        if |finished| > FINISHED_WRITES {
          finished := finished[1..];
        }
      }
    }

    /** The content goes to the target: wholly, or, when that fails, in part or not at all. */
    method Place(content: seq<Byte>, disk: Disk) returns (answer: Answer)
      modifies this`target
      ensures target == Placed(old(target), content, disk)
      ensures answer == if disk.PlaceFails? then FileError else Done
    {
      match disk {
        case PlaceFails(left) =>
          if left.Some? {
            target := Some(Take(content, left.value));
          }
          answer := FileError;
        case _ =>
          target := Some(content);
          answer := Done;
      }
    }

    /** A new start of the node keeps nothing of a write not placed. */
    method Restart()
      modifies this`kept, this`finished
      ensures Model() == old(Model()).(kept := None, finished := [])
    {
      kept, finished := None, [];
    }
  }
}
