/** Cutting a file into content-addressed chunks and putting it together again (`files.rs`). */
module Files {
  import opened Wrappers
  import opened Model
  import opened Crypto
  import opened ChunkRows
  import T = Tables
  import opened Storage

  const TWO_32: nat := 0x1_0000_0000
  const TWO_64: nat := 0x1_0000_0000_0000_0000

  /** An open file. A read returns some non-empty piece of what is left, of any length up to the
      limit, and nothing only at the end of the file. */
  class Reader {
    const content: Bytes
    var pos: nat

    constructor (content: Bytes)
      ensures this.content == content && pos == 0
    {
      this.content, pos := content, 0;
    }

    method Read(limit: nat) returns (buffer: Bytes)
      requires pos <= |content| && limit > 0
      modifies this
      ensures pos == old(pos) + |buffer| <= |content| && buffer == content[old(pos)..pos]
      ensures |buffer| <= limit && (buffer == [] <==> old(pos) == |content|)
    {
      if pos == |content| {
        return [];
      }
      assert pos + 1 <= |content|;
      var count: nat :| 1 <= count <= limit && pos + count <= |content|;
      buffer := content[pos..pos + count];
      pos := pos + count;
    }
  }

  /** Appends the blobs of the chunks, in order, to `done`, up to the first chunk whose blob is
      absent or has another size; says whether all were appended. */
  function Gather(blobs: map<string, Bytes>, chunks: seq<ChunkDescriptor>, done: Bytes): (Bytes, bool)
    decreases chunks
  {
    if chunks == [] then (done, true)
    else if chunks[0].hash !in blobs || |blobs[chunks[0].hash]| != chunks[0].size then (done, false)
    else Gather(blobs, chunks[1..], done + blobs[chunks[0].hash])
  }

  function TotalSize(chunks: seq<ChunkDescriptor>): nat {
    if chunks == [] then 0 else chunks[0].size + TotalSize(chunks[1..])
  }

  /** The manifest tells how to rebuild exactly `content`. */
  ghost predicate Rebuilds(prim: Primitives, m: FileManifest, content: Bytes) {
    && m.fileHash == prim.hash(content)
    && exists blobs :: T.BlobsMatch(prim, blobs) && Gather(blobs, m.chunks, []) == (content, true)
  }

  /** The shape of the chunk list: numbered from 0 as long as the numbers fit 32 bits, no chunk
      empty, none larger than the read buffer. */
  ghost predicate Numbered(chunks: seq<ChunkDescriptor>) {
    forall k :: 0 <= k < |chunks| ==> chunks[k].index == k % TWO_32 && 1 <= chunks[k].size <= FILE_CHUNK_SIZE
  }

  lemma {:induction false} GatherAppend(
    blobs: map<string, Bytes>, chunks: seq<ChunkDescriptor>, c: ChunkDescriptor, done: Bytes)
    requires Gather(blobs, chunks, done).1 && c.hash in blobs && |blobs[c.hash]| == c.size
    ensures Gather(blobs, chunks + [c], done) == (Gather(blobs, chunks, done).0 + blobs[c.hash], true)
    decreases chunks
  {
    if chunks == [] {
      assert (chunks + [c])[1..] == [];
    } else {
      GatherAppend(blobs, chunks[1..], c, done + blobs[chunks[0].hash]);
      assert (chunks + [c])[1..] == chunks[1..] + [c];
    }
  }

  /** Only the blobs of the chunks matter. */
  lemma {:induction false} GatherAgrees(
    a: map<string, Bytes>, b: map<string, Bytes>, chunks: seq<ChunkDescriptor>, done: Bytes)
    requires Gather(a, chunks, done).1
    requires forall c :: c in chunks && c.hash in a ==> c.hash in b && b[c.hash] == a[c.hash]
    ensures Gather(b, chunks, done) == Gather(a, chunks, done)
    decreases chunks
  {
    if chunks != [] {
      assert chunks[0] in chunks;
      GatherAgrees(a, b, chunks[1..], done + a[chunks[0].hash]);
    }
  }

  lemma {:induction false} GatherSize(blobs: map<string, Bytes>, chunks: seq<ChunkDescriptor>, done: Bytes)
    requires Gather(blobs, chunks, done).1
    ensures |Gather(blobs, chunks, done).0| == |done| + TotalSize(chunks)
    ensures forall c :: c in chunks ==> c.hash in blobs
    decreases chunks
  {
    if chunks != [] {
      GatherSize(blobs, chunks[1..], done + blobs[chunks[0].hash]);
      assert chunks == [chunks[0]] + chunks[1..];
    }
  }

  /** Every chunk's blob is there and has the size the chunk promises. */
  ghost predicate Whole(blobs: map<string, Bytes>, chunks: seq<ChunkDescriptor>) {
    forall c :: c in chunks ==> c.hash in blobs && |blobs[c.hash]| == c.size
  }

  /** `bytes` has the chunk contents one after the other: chunk `k` begins where those before it end. */
  ghost predicate Joins(blobs: map<string, Bytes>, chunks: seq<ChunkDescriptor>, bytes: Bytes) {
    && |bytes| == TotalSize(chunks)
    && forall k :: 0 <= k < |chunks| ==> PieceAt(blobs, chunks[k], bytes, TotalSize(chunks[..k]))
  }

  ghost predicate PieceAt(blobs: map<string, Bytes>, c: ChunkDescriptor, bytes: Bytes, start: nat) {
    c.hash in blobs && start + c.size <= |bytes| && bytes[start..start + c.size] == blobs[c.hash]
  }

  /** Gathering succeeds exactly if all blobs are there with their sizes, and then the bytes are those joined. */
  lemma {:induction false} GatherJoins(blobs: map<string, Bytes>, chunks: seq<ChunkDescriptor>, done: Bytes)
    ensures Gather(blobs, chunks, done).1 <==> Whole(blobs, chunks)
    ensures Gather(blobs, chunks, done).1 ==>
      var bytes := Gather(blobs, chunks, done).0;
      |bytes| >= |done| && bytes[..|done|] == done && Joins(blobs, chunks, bytes[|done|..])
    decreases chunks
  {
    if chunks != [] {
      assert chunks == [chunks[0]] + chunks[1..];
      assert chunks[0] in chunks;
      if chunks[0].hash in blobs && |blobs[chunks[0].hash]| == chunks[0].size {
        var piece := blobs[chunks[0].hash];
        GatherJoins(blobs, chunks[1..], done + piece);
        if Whole(blobs, chunks) {
          var bytes := Gather(blobs, chunks[1..], done + piece).0;
          assert bytes[..|done|] == bytes[..|done + piece|][..|done|] == done;
          assert bytes[|done|..][..|piece|] == bytes[..|done + piece|][|done|..] == piece;
          assert bytes[|done|..][|piece|..] == bytes[|done + piece|..];
          JoinsNext(blobs, chunks, bytes[|done|..]);
        }
      }
    }
  }

  lemma SliceOfTail(bytes: Bytes, n: nat, start: nat, size: nat)
    requires n + start + size <= |bytes|
    ensures bytes[n..][start..start + size] == bytes[n + start..n + start + size]
  {
  }

  lemma JoinsNext(blobs: map<string, Bytes>, chunks: seq<ChunkDescriptor>, bytes: Bytes)
    requires chunks != [] && chunks[0].hash in blobs && chunks[0].size == |blobs[chunks[0].hash]| <= |bytes|
    requires bytes[..chunks[0].size] == blobs[chunks[0].hash]
    requires Joins(blobs, chunks[1..], bytes[chunks[0].size..])
    ensures Joins(blobs, chunks, bytes)
  {
    forall k | 0 <= k < |chunks|
      ensures PieceAt(blobs, chunks[k], bytes, TotalSize(chunks[..k]))
    {
      if k > 0 {
        var rest, before := bytes[chunks[0].size..], chunks[1..][..k - 1];
        assert chunks[..k][1..] == before && chunks[..k][0] == chunks[0];
        assert PieceAt(blobs, chunks[1..][k - 1], rest, TotalSize(before));
        SliceOfTail(bytes, chunks[0].size, TotalSize(before), chunks[k].size);
      }
    }
  }

  /** There is only one way to join the contents of the chunks. */
  lemma {:induction false} JoinedOnce(blobs: map<string, Bytes>, chunks: seq<ChunkDescriptor>, x: Bytes, y: Bytes)
    requires Joins(blobs, chunks, x) && Joins(blobs, chunks, y)
    ensures x == y
    decreases chunks
  {
    if chunks != [] {
      JoinsTail(blobs, chunks, x);
      JoinsTail(blobs, chunks, y);
      var size := chunks[0].size;
      JoinedOnce(blobs, chunks[1..], x[size..], y[size..]);
      assert x == x[..size] + x[size..] && y == y[..size] + y[size..];
    }
  }

  lemma JoinsTail(blobs: map<string, Bytes>, chunks: seq<ChunkDescriptor>, x: Bytes)
    requires chunks != [] && Joins(blobs, chunks, x)
    ensures chunks[0].size <= |x| && chunks[0].hash in blobs && x[..chunks[0].size] == blobs[chunks[0].hash]
    ensures Joins(blobs, chunks[1..], x[chunks[0].size..])
  {
    assert PieceAt(blobs, chunks[0], x, TotalSize(chunks[..0]));
    var rest := x[chunks[0].size..];
    forall k | 0 <= k < |chunks[1..]|
      ensures PieceAt(blobs, chunks[1..][k], rest, TotalSize(chunks[1..][..k]))
    {
      assert PieceAt(blobs, chunks[k + 1], x, TotalSize(chunks[..k + 1]));
      assert chunks[..k + 1][1..] == chunks[1..][..k];
      SliceOfTail(x, chunks[0].size, TotalSize(chunks[1..][..k]), chunks[k + 1].size);
    }
  }

  lemma {:induction false} TotalSizeAppend(chunks: seq<ChunkDescriptor>, c: ChunkDescriptor)
    ensures TotalSize(chunks + [c]) == TotalSize(chunks) + c.size
  {
    if chunks == [] {
      assert (chunks + [c])[1..] == [];
    } else {
      assert (chunks + [c])[1..] == chunks[1..] + [c];
      TotalSizeAppend(chunks[1..], c);
    }
  }

  lemma WrappingAdd(a: nat, b: nat)
    ensures (a % TWO_64 + b) % TWO_64 == (a + b) % TWO_64
  {
    var q := a / TWO_64;
    assert a == q * TWO_64 + a % TWO_64;
    var c := a % TWO_64 + b;
    assert (q * TWO_64 + c) % TWO_64 == c % TWO_64;
  }

  lemma IngestStep(
    prim: Primitives, start: T.Tables, t: T.Tables, chunks: seq<ChunkDescriptor>,
    hashed: Bytes, buffer: Bytes, chunk: ChunkDescriptor)
    requires T.Sound(prim, t) && T.Fills(start, t)
    requires chunk.hash == prim.hash(buffer) && chunk.size == |buffer|
    requires HashInjective(prim) ==> Gather(t.blobs, chunks, []) == (hashed, true)
    ensures var t' := T.PutBlob(prim, t, chunk.hash, buffer);
            && T.Fills(start, t')
            && (HashInjective(prim) ==> Gather(t'.blobs, chunks + [chunk], []) == (hashed + buffer, true))
  {
    var t' := T.PutBlob(prim, t, chunk.hash, buffer);
    T.PutBlobFills(prim, t, chunk.hash, buffer);
    T.FillsTransitive(start, t, t');
    if HashInjective(prim) {
      GatherAgrees(t.blobs, t'.blobs, chunks, []);
      assert prim.hash(t'.blobs[chunk.hash]) == prim.hash(buffer) by {
        T.PutBlobSound(prim, t, chunk.hash, buffer);
      }
      GatherAppend(t'.blobs, chunks, chunk, []);
    }
  }

  /** `pos` bytes of the file have been read and hashed, and cut into `chunks`. */
  ghost predicate Cut(content: Bytes, pos: nat, hashed: Bytes, chunks: seq<ChunkDescriptor>, total: nat) {
    && pos <= |content| && hashed == content[..pos] && total == pos % TWO_64
    && Numbered(chunks) && |chunks| <= pos && TotalSize(chunks) == pos
  }

  /** The chunks are stored, and make up `hashed`. */
  ghost predicate Kept(prim: Primitives, start: T.Tables, t: T.Tables, hashed: Bytes, chunks: seq<ChunkDescriptor>) {
    && T.Fills(start, t) && (forall c :: c in chunks ==> c.hash in t.blobs)
    && (HashInjective(prim) ==> Gather(t.blobs, chunks, []) == (hashed, true))
  }

  /** Position of the reading loop. */
  ghost predicate Ingested(
    prim: Primitives, start: T.Tables, t: T.Tables, content: Bytes, pos: nat, hashed: Bytes,
    chunks: seq<ChunkDescriptor>, total: nat)
  {
    Cut(content, pos, hashed, chunks, total) && Kept(prim, start, t, hashed, chunks)
  }

  lemma NextCut(
    content: Bytes, pos: nat, hashed: Bytes, chunks: seq<ChunkDescriptor>, total: nat, buffer: Bytes,
    chunk: ChunkDescriptor)
    requires Cut(content, pos, hashed, chunks, total)
    requires 0 < |buffer| <= FILE_CHUNK_SIZE && pos + |buffer| <= |content| && buffer == content[pos..pos + |buffer|]
    requires chunk.index == |chunks| % TWO_32 && chunk.size == |buffer|
    ensures Cut(content, pos + |buffer|, hashed + buffer, chunks + [chunk], (total + |buffer|) % TWO_64)
  {
    hide TotalSize;
    TotalSizeAppend(chunks, chunk);
    WrappingAdd(pos, |buffer|);
    assert hashed + buffer == content[..pos + |buffer|];
  }

  lemma NothingIngested(prim: Primitives, t: T.Tables, content: Bytes)
    ensures Ingested(prim, t, t, content, 0, [], [], 0)
  {
    T.FillsReflexive(t);
  }

  lemma NextIngested(
    prim: Primitives, start: T.Tables, t: T.Tables, content: Bytes, pos: nat, hashed: Bytes,
    chunks: seq<ChunkDescriptor>,
    total: nat, buffer: Bytes, chunk: ChunkDescriptor)
    requires T.Sound(prim, t) && Ingested(prim, start, t, content, pos, hashed, chunks, total)
    requires 0 < |buffer| <= FILE_CHUNK_SIZE && pos + |buffer| <= |content| && buffer == content[pos..pos + |buffer|]
    requires chunk == ChunkDescriptor(|chunks| % TWO_32, prim.hash(buffer), |buffer|)
    ensures Ingested(prim, start, T.PutBlob(prim, t, chunk.hash, buffer), content, pos + |buffer|, hashed + buffer,
                     chunks + [chunk], (total + |buffer|) % TWO_64)
  {
    hide T.Sound, Cut, Gather;
    IngestStep(prim, start, t, chunks, hashed, buffer, chunk);
    NextCut(content, pos, hashed, chunks, total, buffer, chunk);
    hide T.Fills;
  }

  lemma AllIngested(
    prim: Primitives, start: T.Tables, t: T.Tables, content: Bytes, pos: nat, hashed: Bytes,
    chunks: seq<ChunkDescriptor>, total: nat)
    requires T.Sound(prim, t) && Ingested(prim, start, t, content, pos, hashed, chunks, total) && pos == |content|
    ensures T.Fills(start, t) && hashed == content && total == |content| % TWO_64
    ensures Numbered(chunks) && |chunks| <= |content| && TotalSize(chunks) == |content|
    ensures forall c :: c in chunks ==> c.hash in t.blobs
    ensures HashInjective(prim) ==> Gather(t.blobs, chunks, []) == (content, true) && Joins(t.blobs, chunks, content)
    ensures HashInjective(prim) ==>
      forall m: FileManifest :: m.chunks == chunks && m.fileHash == prim.hash(hashed) ==> Rebuilds(prim, m, content)
  {
    hide T.Fills, Numbered;
    assert hashed == content;
    if HashInjective(prim) {
      assert T.BlobsMatch(prim, t.blobs) && Gather(t.blobs, chunks, []) == (content, true);
      GatherJoins(t.blobs, chunks, []);
      assert content[0..] == content;
    }
  }

  /** Cuts the file into chunks, stores each chunk, and describes the result. However the reads
      fall, the stored chunks make up exactly the file. */
  method IngestFile(store: Store, file: Reader, id: string, name: string, mediaType: string) returns (m: FileManifest)
    requires store.Valid() && file.pos == 0
    modifies store, file
    ensures store.Valid() && T.Fills(old(store.View()), store.View())
    ensures m.id == id && m.name == name && m.mediaType == mediaType && m.chunkSize == FILE_CHUNK_SIZE
    ensures m.size == |file.content| % TWO_64 && m.fileHash == store.prim.hash(file.content)
    ensures Numbered(m.chunks) && |m.chunks| <= |file.content| && TotalSize(m.chunks) == |file.content|
    ensures forall c :: c in m.chunks ==> c.hash in store.blobs
    ensures HashInjective(store.prim) ==> Gather(store.blobs, m.chunks, []) == (file.content, true)
    ensures HashInjective(store.prim) ==> Joins(store.blobs, m.chunks, file.content)
    ensures HashInjective(store.prim) ==> Rebuilds(store.prim, m, file.content)
  {
    hide T.Fills, T.Sound, Ingested, Rebuilds, Gather, TotalSize, Numbered, Joins;
    var hashed: Bytes, chunks: seq<ChunkDescriptor>, total := [], [], 0;
    ghost var start := store.View();
    NothingIngested(store.prim, start, file.content);
    while true
      invariant store.Valid() && file.pos <= |file.content| && 0 <= total < TWO_64
      invariant Ingested(store.prim, start, store.View(), file.content, file.pos, hashed, chunks, total)
      decreases |file.content| - file.pos
    {
      ghost var before, pos, was := store.View(), file.pos, hashed;
      var buffer := file.Read(FILE_CHUNK_SIZE);
      if buffer == [] {
        break;
      }
      var hash := store.prim.hash(buffer);
      hashed := hashed + buffer;
      var put := store.PutBlob(hash, buffer);
      var chunk := ChunkDescriptor(|chunks| % TWO_32, hash, |buffer| % TWO_32);
      NextIngested(store.prim, start, before, file.content, pos, was, chunks, total, buffer, chunk);
      chunks := chunks + [chunk];
      total := (total + |buffer|) % TWO_64;
    }
    AllIngested(store.prim, start, store.View(), file.content, file.pos, hashed, chunks, total);
    m := FileManifest(id, name, mediaType, total, FILE_CHUNK_SIZE, chunks, store.prim.hash(hashed));
  }

  /** The 32-bit chunk numbers are exact, and so distinct and increasing, precisely up to 2^32 chunks. */
  lemma NumbersExactUpTo32Bits(chunks: seq<ChunkDescriptor>)
    requires Numbered(chunks)
    ensures Increasing(chunks) <==> |chunks| <= TWO_32
    ensures Increasing(chunks) ==> forall k :: 0 <= k < |chunks| ==> chunks[k].index == k
  {
    if |chunks| > TWO_32 {
      assert chunks[0].index == 0 && chunks[TWO_32].index == 0;
    }
  }

  // ---------- Materialising ----------

  datatype Path = Path(dir: string, stem: string, extension: Option<string>)

  /** `Path::with_extension("nexus-partial")`. */
  function Partial(p: Path): Path {
    p.(extension := Some("nexus-partial"))
  }

  type Disk = map<Path, Bytes>

  /** Renaming moves the bytes and replaces what was there. */
  function Rename(disk: Disk, from: Path, to: Path): Disk
    requires from in disk
  {
    (disk - {from})[to := disk[from]]
  }

  /** What `materialize_file` makes of the disk, and whether it succeeds. */
  function Materialized(prim: Primitives, t: T.Tables, m: FileManifest, disk: Disk, to: Path): (Disk, bool) {
    var (bytes, whole) := Gather(t.blobs, m.chunks, []);
    var written := disk[Partial(to) := bytes];
    if T.MissingChunks(t, m.id) != [] then (disk, false)
    else if !whole || prim.hash(bytes) != m.fileHash then (written, false)
    else (Rename(written, Partial(to), to), true)
  }

  /** A file is written out exactly if no row is missing, every blob is there with its size, and the joined contents
      have the hash of the manifest. These are then at the destination. With a row missing nothing is touched; a failure
      touches the temporary file alone, and no outcome touches anything but the two paths. */
  ghost predicate Materializes(
    prim: Primitives, t: T.Tables, m: FileManifest, before: Disk, after: Disk, ok: bool, to: Path)
  {
    && (ok <==>
          && (forall row :: m.id in t.chunks && row in t.chunks[m.id] ==> row.present)
          && Whole(t.blobs, m.chunks)
          && exists bytes :: Joins(t.blobs, m.chunks, bytes) && prim.hash(bytes) == m.fileHash)
    && (ok ==>
          && to in after && Joins(t.blobs, m.chunks, after[to]) && |after[to]| == TotalSize(m.chunks)
          && prim.hash(after[to]) == m.fileHash)
    && ((exists row :: m.id in t.chunks && row in t.chunks[m.id] && !row.present) ==> !ok && after == before)
    && (!ok ==> after - {Partial(to)} == before - {Partial(to)})
    && after - {to, Partial(to)} == before - {to, Partial(to)}
  }

  class FileSystem {
    var files: Disk

    method Create(p: Path)
      modifies this
      ensures files == old(files)[p := []]
    {
      files := files[p := []];
    }

    method Append(p: Path, bytes: Bytes)
      requires p in files
      modifies this
      ensures files == old(files)[p := old(files)[p] + bytes]
    {
      files := files[p := files[p] + bytes];
    }

    method Move(from: Path, to: Path)
      requires from in files
      modifies this
      ensures files == Rename(old(files), from, to)
    {
      files := (files - {from})[to := files[from]];
    }
  }

  method MaterializeFile(store: Store, m: FileManifest, fs: FileSystem, to: Path) returns (r: Result<()>)
    requires store.Valid()
    modifies fs
    ensures (fs.files, r.Ok?) == Materialized(store.prim, store.View(), m, old(fs.files), to)
    ensures Materializes(store.prim, store.View(), m, old(fs.files), fs.files, r.Ok?, to)
  {
    hide Materializes;
    MaterializedExactly(store.prim, store.View(), m, fs.files, to);
    var missing := store.MissingChunks(m.id);
    if missing != [] {
      return Err("file is not complete");
    }
    var temporary := Partial(to);
    fs.Create(temporary);
    var hashed: Bytes := [];
    var k := 0;
    while k < |m.chunks|
      invariant 0 <= k <= |m.chunks|
      invariant fs.files == old(fs.files)[temporary := hashed]
      invariant Gather(store.blobs, m.chunks[k..], hashed) == Gather(store.blobs, m.chunks, [])
    {
      var chunk := m.chunks[k];
      assert m.chunks[k..][1..] == m.chunks[k + 1..];
      var blob := store.GetBlob(chunk.hash);
      if blob.Err? {
        return Err(blob.message);
      }
      if |blob.value| != chunk.size {
        return Err("stored chunk size mismatch");
      }
      hashed := hashed + blob.value;
      fs.Append(temporary, blob.value);
      k := k + 1;
    }
    if store.prim.hash(hashed) != m.fileHash {
      return Err("assembled file hash mismatch");
    }
    fs.Move(temporary, to);
    return Ok(());
  }

  lemma MaterializedExactly(prim: Primitives, t: T.Tables, m: FileManifest, disk: Disk, to: Path)
    ensures var (after, ok) := Materialized(prim, t, m, disk, to); Materializes(prim, t, m, disk, after, ok, to)
  {
    hide Joins, Whole;
    var (bytes, whole) := Gather(t.blobs, m.chunks, []);
    GatherJoins(t.blobs, m.chunks, []);
    if whole {
      assert bytes[0..] == bytes;
      forall other | Joins(t.blobs, m.chunks, other)
        ensures other == bytes
      {
        JoinedOnce(t.blobs, m.chunks, other, bytes);
      }
      GatherSize(t.blobs, m.chunks, []);
    }
    NothingMissing(T.RowsOf(t, m.id));
  }

  /** Materialising inverts ingesting: a store that holds the manifest with no chunk missing
      gives back exactly the bytes the manifest was made from. */
  lemma MaterializeRestores(prim: Primitives, t: T.Tables, m: FileManifest, content: Bytes, disk: Disk, to: Path)
    requires T.Sound(prim, t) && HashInjective(prim)
    requires T.Holds(t, m) && T.MissingChunks(t, m.id) == [] && Rebuilds(prim, m, content)
    ensures var (after, ok) := Materialized(prim, t, m, disk, to);
            && ok && to in after && after[to] == content
            && forall p :: p != to && p != Partial(to) ==>
                 (p in after <==> p in disk) && (p in disk ==> after[p] == disk[p])
  {
    var original :| T.BlobsMatch(prim, original) && Gather(original, m.chunks, []) == (content, true);
    var rows := T.RowsOf(t, m.id);
    NothingMissing(rows);
    forall c | c in m.chunks && c.hash in original
      ensures c.hash in t.blobs && t.blobs[c.hash] == original[c.hash]
    {
      var k :| 0 <= k < |m.chunks| && m.chunks[k] == c;
      assert rows[k] in rows;
      assert prim.hash(t.blobs[c.hash]) == prim.hash(original[c.hash]);
    }
    GatherAgrees(original, t.blobs, m.chunks, []);
  }

  /** What stands at the destination afterwards is either what was there before, or bytes whose
      hash is the one the manifest promises. */
  ghost predicate DestinationSafe(prim: Primitives, m: FileManifest, before: Disk, after: Disk, to: Path) {
    || (to in after && prim.hash(after[to]) == m.fileHash)
    || (to in after && to in before && after[to] == before[to])
    || (to !in after && to !in before)
  }

  /** This holds for every store, manifest and disk exactly when the destination's own extension
      is not the one used for the temporary file. */
  lemma DestinationSafeExactlyWhen(prim: Primitives, to: Path)
    ensures (forall t, m: FileManifest, disk ::
               DestinationSafe(prim, m, disk, Materialized(prim, t, m, disk, to).0, to))
       <==> to.extension != Some("nexus-partial")
  {
    if to.extension == Some("nexus-partial") {
      var h := prim.hash([]) + "x";
      var m := FileManifest("", "", "", 0, 0, [], h);
      var disk: Disk := map[];
      assert Partial(to) == to;
      assert !DestinationSafe(prim, m, disk, Materialized(prim, T.EMPTY, m, disk, to).0, to);
    } else {
      forall t, m: FileManifest, disk
        ensures DestinationSafe(prim, m, disk, Materialized(prim, t, m, disk, to).0, to)
      {
        assert Partial(to) != to;
      }
    }
  }
}
