/** One exchange of file chunks between two devices: what the sender encrypts, the receiver
    decrypts and stores, and every row whose hash was exchanged is then present. */
module ChunkTraffic {
  import opened Wrappers
  import opened Model
  import opened Crypto
  import opened ChunkRows
  import opened Tables
  import opened Protocol

  function WireHashes(chunks: seq<WireChunk>): set<string> {
    set c | c in chunks :: c.hash
  }

  /** The answer to a chunk request carries the requested hashes, in order. */
  lemma {:induction false} ChunksForShape(
    prim: Primitives, me: Identity, t: Tables, peer: PublicIdentity, m: FileManifest,
    hashes: seq<string>, nonces: nat -> Bytes, k: nat)
    requires ChunksFor(prim, me, t, peer, m, hashes, nonces, k).Ok?
    ensures var chunks := ChunksFor(prim, me, t, peer, m, hashes, nonces, k).value;
            |chunks| == |hashes| && WireHashes(chunks) == HashSet(hashes)
    decreases hashes
  {
    if hashes != [] {
      ChunksForShape(prim, me, t, peer, m, hashes[1..], nonces, k + 1);
      var rest := ChunksFor(prim, me, t, peer, m, hashes[1..], nonces, k + 1).value;
      var chunks := ChunksFor(prim, me, t, peer, m, hashes, nonces, k).value;
      assert forall c :: c in chunks <==> c == chunks[0] || c in rest;
      assert forall h :: h in hashes <==> h == hashes[0] || h in hashes[1..];
      HeadHash(chunks, rest);
    }
  }

  lemma HeadHash(chunks: seq<WireChunk>, rest: seq<WireChunk>)
    requires chunks != [] && rest == chunks[1..]
    ensures WireHashes(chunks) == {chunks[0].hash} + WireHashes(rest)
  {
    assert forall c :: c in chunks <==> c == chunks[0] || c in rest;
  }

  /** Every hash of a batch that was stored completely is no longer missing, and only those. */
  lemma {:induction false} StoreChunksClears(
    prim: Primitives, me: Identity, t: Tables, peer: PublicIdentity, manifestId: string,
    allowed: Option<set<string>>, chunks: seq<WireChunk>, id: string)
    requires StoreChunks(prim, me, t, peer, manifestId, allowed, chunks).1
    ensures MissingChunks(StoreChunks(prim, me, t, peer, manifestId, allowed, chunks).0, id)
         == Without(MissingChunks(t, id), WireHashes(chunks))
    decreases chunks
  {
    if chunks == [] {
      assert WireHashes(chunks) == {};
      WithoutNothing(MissingChunks(t, id));
    } else {
      var c := chunks[0];
      var stream := DirectStreamId(me.public.deviceId, peer.deviceId);
      var clear := DecryptChunk(prim, me, peer, stream, manifestId, c.hash, c.nonce, c.bytes).value;
      var next := PutBlob(prim, t, c.hash, clear);
      StoreChunksClears(prim, me, next, peer, manifestId, allowed, chunks[1..], id);
      MissingAfterPut(prim, t, c.hash, clear, id);
      WithoutTwice(MissingChunks(t, id), {c.hash}, WireHashes(chunks[1..]));
      HeadHash(chunks, chunks[1..]);
    }
  }

  /** Between honest devices the whole batch goes through. */
  lemma {:induction false} ChunksArrive(
    prim: Primitives, a: Identity, b: Identity, ta: Tables, tb: Tables, m: FileManifest,
    hashes: seq<string>, nonces: nat -> Bytes, k: nat, allowed: Option<set<string>>)
    requires Ideal(prim) && WellKeyed(prim, a) && WellKeyed(prim, b) && Sound(prim, ta)
    requires HashSet(hashes) <= HashesOf(m.chunks) && HashSet(hashes) <= ta.blobs.Keys
    requires allowed.Some? ==> HashesOf(m.chunks) <= allowed.value
    ensures var sent := ChunksFor(prim, a, ta, b.public, m, hashes, nonces, k);
            sent.Ok? && StoreChunks(prim, b, tb, a.public, m.id, allowed, sent.value).1
    decreases hashes
  {
    if hashes != [] {
      var h := hashes[0];
      assert h in HashSet(hashes);
      assert HashSet(hashes[1..]) <= HashSet(hashes);
      var stream := DirectStreamId(a.public.deviceId, b.public.deviceId);
      StreamIdSymmetric(a.public.deviceId, b.public.deviceId);
      ChunkRoundTrip(prim, a, b, stream, m.id, h, ta.blobs[h], nonces(k));
      ChunksArrive(prim, a, b, ta, PutBlob(prim, tb, h, ta.blobs[h]), m, hashes[1..], nonces, k + 1, allowed);
      var rest := ChunksFor(prim, a, ta, b.public, m, hashes[1..], nonces, k + 1).value;
      var sent := ChunksFor(prim, a, ta, b.public, m, hashes, nonces, k).value;
      assert sent[1..] == rest;
    }
  }

  /** Exactly the rows with these hashes have ceased to be missing. */
  ghost predicate Cleared(t: Tables, t': Tables, id: string, hashes: set<string>) {
    MissingChunks(t', id) == Without(MissingChunks(t, id), hashes)
  }

  /** A pushed batch only fills; if it is acknowledged, none of its hashes is missing any more. */
  lemma PushChunksKeeps(
    prim: Primitives, me: Identity, t: Tables, sender: PublicIdentity, id: string, chunks: seq<WireChunk>)
    requires Sound(prim, t)
    ensures var o := HandlePushChunks(prim, me, t, sender, id, chunks);
            && Fills(t, o.t)
            && (o.body.Ack? ==> Cleared(t, o.t, id, WireHashes(chunks)))
  {
    FillsReflexive(t);
    if Trusts(t, sender) && id in t.manifests {
      var allowed := Some(HashesOf(t.manifests[id].manifest.chunks));
      StoreChunksKeeps(prim, me, t, sender, id, allowed, chunks);
      var (t', ok) := StoreChunks(prim, me, t, sender, id, allowed, chunks);
      if ok {
        StoreChunksClears(prim, me, t, sender, id, allowed, chunks, id);
        RefreshFills(t', id);
        FillsTransitive(t, t', Refresh(t', id));
      }
    }
  }

  /** A device can serve every chunk of this manifest to `client`. */
  ghost predicate Serves(t: Tables, client: PublicIdentity, m: FileManifest) {
    && Trusts(t, client)
    && m.id in t.manifests && t.manifests[m.id].manifest == m
    && HashesOf(m.chunks) <= t.blobs.Keys
  }

  /** What is missing of a manifest belongs to the manifest. */
  lemma MissingBelongs(t: Tables, m: FileManifest)
    requires Holds(t, m)
    ensures HashSet(MissingChunks(t, m.id)) <= HashesOf(m.chunks)
    ensures |MissingChunks(t, m.id)| <= |m.chunks|
  {
    var rows := RowsOf(t, m.id);
    MissingMembers(rows);
    forall h | h in MissingChunks(t, m.id)
      ensures h in HashesOf(m.chunks)
    {
      var r :| r in rows && !r.present && r.hash == h;
      var k :| 0 <= k < |rows| && rows[k] == r;
      assert m.chunks[k] in m.chunks;
    }
  }

  /** The progress shown to the user never runs below zero or past the total, never falls while
      rows only rise, and reaches the total exactly when the refresh reports completion. */
  lemma ProgressIsTrue(t: Tables, t': Tables, m: FileManifest)
    requires Holds(t, m) && ChunksRise(t, t')
    ensures var before, after := Progress(t, m, m.id), Progress(t', m, m.id);
            && 0 <= before.received <= after.received <= after.total == |m.chunks|
            && (after.received == after.total <==> Refresh(t', m.id).manifests[m.id].complete)
  {
    MissingBelongs(t, m);
    assert Raised(RowsOf(t, m.id), RowsOf(t', m.id));
    assert Holds(t', m);
    MissingBelongs(t', m);
    MissingFalls(RowsOf(t, m.id), RowsOf(t', m.id));
  }

  lemma {:induction false} MissingFalls(before: seq<ChunkRow>, after: seq<ChunkRow>)
    requires Raised(before, after)
    ensures |Missing(after)| <= |Missing(before)|
  {
    if before != [] {
      assert after[0].hash == before[0].hash;
      assert forall k :: 0 <= k < |before[1..]| ==> before[1..][k] == before[k + 1] && after[1..][k] == after[k + 1];
      MissingFalls(before[1..], after[1..]);
    }
  }
}
