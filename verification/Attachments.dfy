/**
  * Chunked attachment transfer (`packages/protocol/src/attachments.ts` and the `attachmentUpload*` and
  * `attachmentDownload*` methods of `server.service.ts`): chunks may arrive in any order and more than
  * once, are written once, and a completed transfer downloads as exactly the bytes its hash names.
  */
module Attachments {
  import opened Community
  import opened Base64

  type Data = seq<Byte>

  /** SHA-256, as the value hashed. */
  datatype Digest = Sha256(of: Data)

  datatype Chunk = Chunk(data: string, sizeBytes: nat, hash: Digest)

  const CHUNK_BYTES := 30 * 1024
  const MAX_BYTES := 50 * 1024 * 1024
  const MAX_CHARS := CHUNK_BYTES / 3 * 4

  // ---------------------------------------------------------------- the protocol package

  /** `attachmentChunkCount`; `None` is its exception. */
  function ChunkCount(size: nat): Option<nat> {
    if 1 <= size <= MAX_BYTES then Some((size + CHUNK_BYTES - 1) / CHUNK_BYTES) else None
  }

  /** What every chunk but the last holds, and what is left for that one; less than one if the count is too high. */
  function ExpectedBytes(size: nat, total: nat, index: nat): int
    requires index < total
  {
    if index == total - 1 then size - CHUNK_BYTES * (total - 1) else CHUNK_BYTES
  }

  /** The end of chunk `i - 1` in `data`. */
  function Upto(data: Data, i: nat): Data {
    if i * CHUNK_BYTES <= |data| then data[..i * CHUNK_BYTES] else data
  }

  /** `data.subarray(i * CHUNK, (i + 1) * CHUNK)` */
  function Slice(data: Data, i: nat): Data {
    if i * CHUNK_BYTES >= |data| then [] else Upto(data, i + 1)[i * CHUNK_BYTES..]
  }

  function ChunkOf(b: Data): Chunk {
    Chunk(Encode(b), |b|, Sha256(b))
  }

  method EncodeAttachmentChunks(data: Data) returns (chunks: Option<seq<Chunk>>)
    ensures chunks.Some? <==> ChunkCount(|data|).Some?
    ensures chunks.Some? ==> |chunks.value| == ChunkCount(|data|).value
    ensures chunks.Some? ==> forall i | 0 <= i < |chunks.value| :: chunks.value[i] == ChunkOf(Slice(data, i))
  {
    if ChunkCount(|data|).None? { return None; }
    var all := [];
    for i := 0 to ChunkCount(|data|).value
      invariant |all| == i && forall j | 0 <= j < i :: all[j] == ChunkOf(Slice(data, j))
    {
      all := all + [ChunkOf(Slice(data, i))];
    }
    return Some(all);
  }

  /** `decodeAttachmentChunk`; `None` is any of its exceptions. */
  function DecodeChunk(data: string, expected: int, hash: Digest): Option<Data> {
    if |data| > MAX_CHARS then None
    else match CanonicalBase64DecodedLength(data)
      case None => None
      case Some(n) =>
        if expected < 1 || expected > CHUNK_BYTES || n != expected then None
        else if Sha256(Decode(data)) != hash then None
        else Some(Decode(data))
  }

  lemma DecodedChunkFits(data: string, expected: int, hash: Digest)
    requires DecodeChunk(data, expected, hash).Some?
    ensures |DecodeChunk(data, expected, hash).value| == expected
  {
    CanonicalIsEncoding(data);
  }

  lemma ChunkDecodes(b: Data)
    requires 1 <= |b| <= CHUNK_BYTES
    ensures DecodeChunk(ChunkOf(b).data, |b|, ChunkOf(b).hash) == Some(b)
  {
    hide Encode, Decode, CanonicalBase64DecodedLength;
    EncodingIsLong(b);
    EncodingIsCanonical(b);
    DecodeEncode(b);
  }

  /** The slices of a text are as long as the server expects its chunks to be. */
  lemma SliceFits(data: Data, i: nat)
    requires ChunkCount(|data|).Some? && i < ChunkCount(|data|).value
    ensures |Slice(data, i)| == ExpectedBytes(|data|, ChunkCount(|data|).value, i) && 1 <= |Slice(data, i)| <= CHUNK_BYTES
    ensures Upto(data, i) + Slice(data, i) == Upto(data, i + 1)
  {
    var total := ChunkCount(|data|).value;
    assert (total - 1) * CHUNK_BYTES < |data| <= total * CHUNK_BYTES;
  }

  lemma AllSlices(data: Data)
    requires ChunkCount(|data|).Some?
    ensures Upto(data, ChunkCount(|data|).value) == data
  {
  }

  // ---------------------------------------------------------------- one transfer at the host

  /** What `attachmentUploadBegin` was told about the attachment. */
  datatype Declared = Declared(size: nat, total: nat, hash: Digest)

  /** A row of `attachments` with its rows of `attachment_chunks`. */
  datatype Transfer = Transfer(file: Declared, chunks: map<nat, Chunk>, completed: bool, linked: bool)

  /** `attachmentUploadBegin`: the count is checked against the size. */
  function Begun(file: Declared): Option<Transfer> {
    if ChunkCount(file.size) == Some(file.total) then Some(Transfer(file, map[], false, false)) else None
  }

  datatype Reply = Done | Forbidden | Invalid | Conflicting

  /** The bytes of a chunk, if it may stand at `index` of the file. */
  function DecodeAt(file: Declared, index: nat, c: Chunk): Option<Data>
    requires index < file.total
  {
    DecodeChunk(c.data, ExpectedBytes(file.size, file.total, index), c.hash)
  }

  /** `attachmentUploadChunk` by the transfer's owner. */
  function Upload(t: Transfer, index: nat, c: Chunk): (Transfer, Reply) {
    if t.linked then (t, Forbidden)
    else if index >= t.file.total then (t, Invalid)
    else if DecodeAt(t.file, index, c).None? then (t, Invalid)
    else if c.sizeBytes != ExpectedBytes(t.file.size, t.file.total, index) then (t, Invalid)
    else if index in t.chunks then (t, if t.chunks[index] == c then Done else Conflicting)
    else (t.(chunks := t.chunks[index := c]), Done)
  }

  /** What the first `n` stored chunks decode to, one after another; `None` if one is missing or does not decode. */
  function Assembled(file: Declared, chunks: map<nat, Chunk>, n: nat): Option<Data>
    requires n <= file.total
  {
    if n == 0 then Some([])
    else match Assembled(file, chunks, n - 1)
      case None => None
      case Some(front) =>
        if n - 1 !in chunks || DecodeAt(file, n - 1, chunks[n - 1]).None? then None
        else Some(front + DecodeAt(file, n - 1, chunks[n - 1]).value)
  }

  predicate Whole(file: Declared, chunks: map<nat, Chunk>) {
    && |chunks| == file.total
    && Assembled(file, chunks, file.total).Some?
    && |Assembled(file, chunks, file.total).value| == file.size
    && Sha256(Assembled(file, chunks, file.total).value) == file.hash
  }

  /** `attachmentUploadComplete` by the transfer's owner. */
  function Complete(t: Transfer): (Transfer, Reply) {
    if t.linked then (t, Forbidden)
    else if t.completed then (t, Done)
    else if !Whole(t.file, t.chunks) then (t, Conflicting)
    else (t.(completed := true), Done)
  }

  /** The message that carries the attachment is sent; only a completed transfer can be linked. */
  function Link(t: Transfer): Transfer {
    if t.completed then t.(linked := true) else t
  }

  /** `attachmentDownloadChunk` by an authorised reader. */
  function Download(t: Transfer, index: nat): Option<Chunk> {
    if !t.completed || !t.linked || index >= t.file.total || index !in t.chunks then None
    else if DecodeAt(t.file, index, t.chunks[index]).None? then None
    else Some(t.chunks[index])
  }

  // ---------------------------------------------------------------- runs

  datatype Step = UploadStep(index: nat, chunk: Chunk) | CompleteStep | LinkStep

  function Do(t: Transfer, s: Step): Transfer {
    match s
    case UploadStep(i, c) => Upload(t, i, c).0
    case CompleteStep => Complete(t).0
    case LinkStep => Link(t)
  }

  function Run(t: Transfer, ss: seq<Step>): Transfer {
    if ss == [] then t else Do(Run(t, ss[..|ss| - 1]), ss[|ss| - 1])
  }

  /** Every stored chunk has an index of the file and decodes to the size and hash it was stored under. */
  predicate ChunksFit(file: Declared, chunks: map<nat, Chunk>) {
    && ChunkCount(file.size) == Some(file.total)
    && forall i | i in chunks :: i < file.total && ChunkFits(file, i, chunks[i])
  }

  predicate ChunkFits(file: Declared, i: nat, c: Chunk)
    requires i < file.total
  {
    c.sizeBytes == ExpectedBytes(file.size, file.total, i) && DecodeAt(file, i, c).Some?
  }

  predicate Sound(t: Transfer) {
    ChunksFit(t.file, t.chunks) && (t.completed ==> Whole(t.file, t.chunks)) && (t.linked ==> t.completed)
  }

  predicate Prefixed(later: Transfer, earlier: Transfer) {
    later.file == earlier.file && forall i | i in earlier.chunks :: i in later.chunks && later.chunks[i] == earlier.chunks[i]
  }

  /** A set of indices below `n` with `n` elements is all of them. */
  lemma {:induction false} AllIndices(s: set<nat>, n: nat)
    requires forall i | i in s :: i < n
    ensures |s| <= n && (|s| == n ==> forall i: nat | i < n :: i in s)
    decreases n
  {
    if n == 0 {
      assert s == {};
    } else {
      var rest := s - {n - 1};
      AllIndices(rest, n - 1);
      if n - 1 in s { assert s == rest + {n - 1}; } else { assert s == rest; }
    }
  }

  /** A chunk already stored is never replaced, and a completed transfer has all of them. */
  lemma UploadKeeps(t: Transfer, index: nat, c: Chunk)
    requires Sound(t)
    ensures var u := Upload(t, index, c).0; Sound(u) && Prefixed(u, t) && (t.completed ==> u == t)
  {
    hide DecodeAt, ExpectedBytes, Assembled;
    AllIndices(t.chunks.Keys, t.file.total);
  }

  lemma DoKeeps(t: Transfer, s: Step)
    requires Sound(t)
    ensures Sound(Do(t, s)) && Prefixed(Do(t, s), t) && (t.completed ==> Do(t, s).completed && Do(t, s).chunks == t.chunks)
  {
    hide ChunksFit, Whole, Upload;
    if s.UploadStep? { UploadKeeps(t, s.index, s.chunk); }
  }

  /** Chunks are write-once: no step of any run replaces or removes one, and a completed transfer never changes. */
  lemma {:induction false} ChunksAreWriteOnce(t: Transfer, ss: seq<Step>)
    requires Sound(t)
    ensures Sound(Run(t, ss)) && Prefixed(Run(t, ss), t) && (t.completed ==> Run(t, ss).completed && Run(t, ss).chunks == t.chunks)
  {
    hide Sound;
    if ss != [] {
      ChunksAreWriteOnce(t, ss[..|ss| - 1]);
      DoKeeps(Run(t, ss[..|ss| - 1]), ss[|ss| - 1]);
    }
  }

  /** The sizes of the stored chunks add up to the declared total. */
  lemma {:induction false} SizesAddUp(file: Declared, chunks: map<nat, Chunk>, n: nat)
    requires ChunksFit(file, chunks) && n <= file.total && forall i: nat | i < n :: i in chunks
    ensures Assembled(file, chunks, n).Some?
    ensures |Assembled(file, chunks, n).value| == if n == file.total then file.size else n * CHUNK_BYTES
    decreases n
  {
    hide DecodeChunk;
    if n > 0 {
      SizesAddUp(file, chunks, n - 1);
      assert ChunkFits(file, n - 1, chunks[n - 1]);
      DecodedChunkFits(chunks[n - 1].data, ExpectedBytes(file.size, file.total, n - 1), chunks[n - 1].hash);
    }
  }

  /** What an authorised reader puts together from the chunks it downloads. */
  function Downloaded(t: Transfer, n: nat): Option<Data>
    requires n <= t.file.total
  {
    if n == 0 then Some([])
    else match Downloaded(t, n - 1)
      case None => None
      case Some(front) =>
        match Download(t, n - 1)
          case None => None
          case Some(c) =>
            match DecodeAt(t.file, n - 1, c)
              case None => None
              case Some(b) => Some(front + b)
  }

  lemma {:induction false} DownloadedIsAssembled(t: Transfer, n: nat)
    requires t.completed && t.linked && n <= t.file.total
    ensures Downloaded(t, n) == Assembled(t.file, t.chunks, n)
    decreases n
  {
    hide DecodeAt;
    if n > 0 { DownloadedIsAssembled(t, n - 1); }
  }

  /** `data`, as declared by whoever uploads it. */
  function Declaration(data: Data, total: nat): Declared {
    Declared(|data|, total, Sha256(data))
  }

  /**
    * Whoever uploaded what, in whatever order and however often: a transfer begun for `data` that was
    * completed and linked downloads as exactly `data`.
    */
  lemma CompletedDownloadsOriginal(data: Data, total: nat, ss: seq<Step>)
    requires Begun(Declaration(data, total)).Some?
    requires Run(Begun(Declaration(data, total)).value, ss).linked
    ensures var t := Run(Begun(Declaration(data, total)).value, ss); t.file.total == total && Downloaded(t, total) == Some(data)
  {
    hide Assembled, Downloaded, Run;
    var t := Begun(Declaration(data, total)).value;
    ChunksAreWriteOnce(t, ss);
    DownloadedIsAssembled(Run(t, ss), total);
  }

  // ---------------------------------------------------------------- removals

  /** What happens to one asset id: `Abort` is the owner's, `Remove` an expiry or the deletion of the message. */
  datatype Event = Begin(file: Declared) | Within(step: Step) | Abort | Remove

  function Next(t: Option<Transfer>, e: Event): Option<Transfer> {
    match e
    case Begin(file) => if t.Some? then t else Begun(file)
    case Within(s) => if t.Some? then Some(Do(t.value, s)) else None
    case Abort => if t.Some? && t.value.linked then t else None
    case Remove => None
  }

  function Life(t: Option<Transfer>, es: seq<Event>): Option<Transfer> {
    if es == [] then t else Next(Life(t, es[..|es| - 1]), es[|es| - 1])
  }

  lemma {:induction false} LifeIsSound(t: Option<Transfer>, es: seq<Event>)
    requires t.Some? ==> Sound(t.value)
    ensures Life(t, es).Some? ==> Sound(Life(t, es).value)
  {
    hide Sound, Whole;
    if es != [] {
      var before, e := Life(t, es[..|es| - 1]), es[|es| - 1];
      LifeIsSound(t, es[..|es| - 1]);
      if e.Within? && before.Some? { DoKeeps(before.value, e.step); }
      if e.Begin? && before.None? && Begun(e.file).Some? { BegunIsSound(e.file); }
    }
  }

  /** A stored chunk is replaced by nothing, and goes only with its whole transfer; a linked one outlives every abort. */
  lemma {:induction false} ChunksGoOnlyWithTransfers(t: Transfer, es: seq<Event>)
    requires Sound(t) && forall i | 0 <= i < |es| :: !es[i].Remove? && (es[i].Abort? ==> t.linked)
    ensures var u := Life(Some(t), es);
      && u.Some? && Sound(u.value) && Prefixed(u.value, t) && (t.linked ==> u.value.linked)
      && (t.completed ==> u.value.completed && u.value.chunks == t.chunks)
  {
    hide Sound, Whole;
    if es != [] {
      var earlier, e := es[..|es| - 1], es[|es| - 1];
      ChunksGoOnlyWithTransfers(t, earlier);
      if e.Within? { DoKeeps(Life(Some(t), earlier).value, e.step); }
    }
  }

  /** Whatever was begun, removed and begun again: what a linked transfer downloads has the declared size and hash. */
  lemma LinkedDownloadsDeclared(es: seq<Event>)
    requires Life(None, es).Some? && Life(None, es).value.linked
    ensures var t := Life(None, es).value;
      var got := Downloaded(t, t.file.total);
      got.Some? && |got.value| == t.file.size && Sha256(got.value) == t.file.hash
  {
    hide Assembled, Downloaded, Life;
    LifeIsSound(None, es);
    var t := Life(None, es).value;
    DownloadedIsAssembled(t, t.file.total);
  }

  // ---------------------------------------------------------------- an honest upload succeeds

  /** Every upload of the run offers the chunk of `data` it is for. */
  predicate Honest(data: Data, ss: seq<Step>) {
    forall i | 0 <= i < |ss| && ss[i].UploadStep? :: ss[i].chunk == ChunkOf(Slice(data, ss[i].index))
  }

  predicate Offers(ss: seq<Step>, index: nat) {
    exists i | 0 <= i < |ss| :: ss[i].UploadStep? && ss[i].index == index
  }

  predicate HoldsSlices(t: Transfer, data: Data) {
    forall i | i in t.chunks :: t.chunks[i] == ChunkOf(Slice(data, i))
  }

  lemma HonestChunkFits(data: Data, total: nat, index: nat)
    requires Begun(Declaration(data, total)).Some? && index < total
    ensures DecodeAt(Declaration(data, total), index, ChunkOf(Slice(data, index))) == Some(Slice(data, index))
    ensures |Slice(data, index)| == ExpectedBytes(|data|, total, index)
  {
    SliceFits(data, index);
    ChunkDecodes(Slice(data, index));
    hide DecodeChunk, Slice, ExpectedBytes;
  }

  lemma HonestUploadIsStored(t: Transfer, data: Data, index: nat)
    requires Begun(t.file).Some? && t.file == Declaration(data, t.file.total) && HoldsSlices(t, data) && !t.linked && index < t.file.total
    ensures var (u, reply) := Upload(t, index, ChunkOf(Slice(data, index))); reply == Done && index in u.chunks && HoldsSlices(u, data)
  {
    HonestChunkFits(data, t.file.total, index);
    hide DecodeAt, Slice, ExpectedBytes;
  }

  lemma {:induction false} HonestRunStores(data: Data, total: nat, ss: seq<Step>)
    requires Begun(Declaration(data, total)).Some? && Honest(data, ss)
    ensures var t := Run(Begun(Declaration(data, total)).value, ss);
      Sound(t) && t.file == Declaration(data, total) && HoldsSlices(t, data)
      && (t.linked || forall i: nat | i < total && Offers(ss, i) :: i in t.chunks)
  {
    hide Upload, Complete, Slice, Sound;
    var t0 := Begun(Declaration(data, total)).value;
    BegunIsSound(Declaration(data, total));
    if ss != [] {
      var n := |ss| - 1;
      var t, s := Run(t0, ss[..n]), ss[n];
      HonestRunStores(data, total, ss[..n]);
      DoKeeps(t, s);
      DoKeepsSlices(t, data, s);
      forall i: nat | i < total && Offers(ss, i) && !Do(t, s).linked ensures i in Do(t, s).chunks {
        var j :| 0 <= j < |ss| && ss[j].UploadStep? && ss[j].index == i;
        if j < n { assert ss[..n][j] == ss[j] && Offers(ss[..n], i); }
      }
    }
  }

  lemma BegunIsSound(file: Declared)
    requires Begun(file).Some?
    ensures Sound(Begun(file).value)
  {
  }

  lemma DoKeepsSlices(t: Transfer, data: Data, s: Step)
    requires Begun(t.file).Some? && t.file == Declaration(data, t.file.total) && HoldsSlices(t, data)
    requires s.UploadStep? ==> s.chunk == ChunkOf(Slice(data, s.index))
    ensures HoldsSlices(Do(t, s), data) && (t.linked ==> Do(t, s).linked)
    ensures s.UploadStep? && s.index < t.file.total && !t.linked ==> s.index in Do(t, s).chunks
  {
    if s.UploadStep? && !t.linked && s.index < t.file.total { HonestUploadIsStored(t, data, s.index); }
    hide DecodeAt, Slice, ExpectedBytes, Whole;
  }

  lemma {:induction false} SlicesAssemble(data: Data, total: nat, chunks: map<nat, Chunk>, n: nat)
    requires Begun(Declaration(data, total)).Some? && n <= total
    requires forall i: nat | i < n :: i in chunks && chunks[i] == ChunkOf(Slice(data, i))
    ensures Assembled(Declaration(data, total), chunks, n) == Some(Upto(data, n))
    decreases n
  {
    hide DecodeAt, Slice, Upto, ExpectedBytes, ChunkOf, ChunkCount;
    if n > 0 {
      SlicesAssemble(data, total, chunks, n - 1);
      SliceFits(data, n - 1);
      HonestChunkFits(data, total, n - 1);
    } else {
      UptoNothing(data);
    }
  }

  lemma UptoNothing(data: Data)
    ensures Upto(data, 0) == []
  {
  }

  /** Offering every chunk, in any order and with any retries, is enough to complete. */
  lemma HonestUploadCompletes(data: Data, total: nat, ss: seq<Step>)
    requires Begun(Declaration(data, total)).Some? && Honest(data, ss)
    requires forall i: nat | i < total :: Offers(ss, i)
    ensures var t := Run(Begun(Declaration(data, total)).value, ss); t.linked || Complete(t).1 == Done
  {
    hide Run, Slice, Assembled, DecodeAt, ExpectedBytes;
    HonestRunStores(data, total, ss);
    var t := Run(Begun(Declaration(data, total)).value, ss);
    if !t.linked {
      SlicesAssemble(data, total, t.chunks, total);
      AllSlices(data);
      ExactlyAll(t.chunks.Keys, total);
    }
  }

  lemma {:induction false} ExactlyAll(s: set<nat>, n: nat)
    requires forall i: nat :: i in s <==> i < n
    ensures |s| == n
    decreases n
  {
    if n > 0 {
      ExactlyAll(s - {n - 1}, n - 1);
    } else {
      assert s == {};
    }
  }

  // ---------------------------------------------------------------- the row in place

  class AttachmentTransfer {
    const file: Declared
    var chunks: map<nat, Chunk>
    var completed: bool
    var linked: bool

    function Value(): Transfer
      reads this
    {
      Transfer(file, chunks, completed, linked)
    }

    constructor (file: Declared)
      requires ChunkCount(file.size) == Some(file.total)
      ensures Begun(file) == Some(Value()) && Sound(Value())
    {
      this.file := file;
      chunks, completed, linked := map[], false, false;
    }

    method UploadChunk(index: nat, c: Chunk) returns (reply: Reply)
      modifies this`chunks
      ensures (Value(), reply) == Upload(old(Value()), index, c)
    {
      if linked { return Forbidden; }
      if index >= file.total { return Invalid; }
      if DecodeAt(file, index, c).None? || c.sizeBytes != ExpectedBytes(file.size, file.total, index) { return Invalid; }
      if index in chunks {
        return if chunks[index] == c then Done else Conflicting;
      }
      chunks := chunks[index := c];
      return Done;
    }

    /** `attachmentUploadComplete`: the chunks in order, one running hash and one running size. */
    method UploadComplete() returns (reply: Reply)
      modifies this`completed
      ensures (Value(), reply) == Complete(old(Value()))
    {
      hide DecodeAt;
      if linked { return Forbidden; }
      if completed { return Done; }
      if |chunks| != file.total { return Conflicting; }
      var aggregate: Data := [];
      for index := 0 to file.total
        invariant Assembled(file, chunks, index) == Some(aggregate)
      {
        if index !in chunks || DecodeAt(file, index, chunks[index]).None? {
          MissingStays(file, chunks, index + 1, file.total);
          return Conflicting;
        }
        aggregate := aggregate + DecodeAt(file, index, chunks[index]).value;
      }
      if |aggregate| != file.size || Sha256(aggregate) != file.hash { return Conflicting; }
      completed := true;
      return Done;
    }
  }

  lemma {:induction false} MissingStays(file: Declared, chunks: map<nat, Chunk>, m: nat, n: nat)
    requires m <= n <= file.total && Assembled(file, chunks, m).None?
    ensures Assembled(file, chunks, n).None?
    decreases n
  {
    hide DecodeAt;
    if m < n { MissingStays(file, chunks, m, n - 1); }
  }
}
