/** The contents of a device's store as one value, and the effect of each locked section of
    `storage.rs` on it. The class `Storage.Store` keeps these tables up to date in place;
    the step machines `StoreRaces` and `Replication` interleave the same sections. */
module Tables {
  import opened Wrappers
  import opened Model
  import opened Crypto
  import opened ChunkRows
  import opened EventLog

  datatype PeerRow = PeerRow(
    identity: PublicIdentity, paired: bool, host: Option<string>, port: Option<nat>, lastSeen: int)

  datatype ManifestRow = ManifestRow(peer: DeviceId, manifest: FileManifest, complete: bool)

  datatype Tables = Tables(
    events: Log,
    peers: map<DeviceId, PeerRow>,
    manifests: map<string, ManifestRow>,
    chunks: map<string, seq<ChunkRow>>,
    blobs: map<string, Bytes>)

  const EMPTY: Tables := Tables(map[], map[], map[], map[], map[])

  // ---------- Peers ----------

  function Coalesce<T>(a: Option<T>, b: Option<T>): Option<T> {
    if a.Some? then a else b
  }

  function HostOf(e: Option<Endpoint>): Option<string> {
    if e.Some? then Some(e.value.host) else None
  }

  function PortOf(e: Option<Endpoint>): Option<nat> {
    if e.Some? then Some(e.value.port) else None
  }

  /** The `INSERT ... ON CONFLICT DO UPDATE` of `upsert_peer`. */
  function UpsertPeer(peers: map<DeviceId, PeerRow>, p: Peer): map<DeviceId, PeerRow> {
    var id := p.identity.deviceId;
    var row := PeerRow(p.identity, p.paired, HostOf(p.endpoint), PortOf(p.endpoint), p.lastSeen);
    if id !in peers then peers[id := row]
    else
      var was := peers[id];
      peers[id := PeerRow(
        p.identity, was.paired || p.paired, Coalesce(row.host, was.host), Coalesce(row.port, was.port), p.lastSeen)]
  }

  function LookupPeer(peers: map<DeviceId, PeerRow>, id: DeviceId): Option<Peer> {
    if id !in peers then None
    else
      var row := peers[id];
      var endpoint := if row.host.Some? && row.port.Some? then Some(Endpoint(row.host.value, row.port.value)) else None;
      Some(Peer(row.identity, endpoint, row.paired, row.lastSeen))
  }

  predicate IsPaired(t: Tables, id: DeviceId) {
    id in t.peers && t.peers[id].paired
  }

  /** Host and port are always written together. */
  ghost predicate EndpointsWhole(peers: map<DeviceId, PeerRow>) {
    forall id :: id in peers ==> (peers[id].host.Some? <==> peers[id].port.Some?)
  }

  /** What a sequence of upserts can never take away, whatever stale values it writes. */
  ghost predicate PeersGrow(before: map<DeviceId, PeerRow>, after: map<DeviceId, PeerRow>) {
    forall id :: id in before ==>
      && id in after
      && (before[id].paired ==> after[id].paired)
      && (LookupPeer(before, id).value.endpoint.Some? ==> LookupPeer(after, id).value.endpoint.Some?)
  }

  function UpsertAll(peers: map<DeviceId, PeerRow>, ps: seq<Peer>): map<DeviceId, PeerRow>
    decreases ps
  {
    if ps == [] then peers else UpsertAll(UpsertPeer(peers, ps[0]), ps[1..])
  }

  /** No update is lost: however reads and upserts of peers interleave, a device once paired stays
      paired, a known endpoint stays known, and a row that was just stored is found. */
  lemma {:induction false} NoPeerUpdateIsLost(peers: map<DeviceId, PeerRow>, ps: seq<Peer>)
    requires EndpointsWhole(peers)
    ensures EndpointsWhole(UpsertAll(peers, ps)) && PeersGrow(peers, UpsertAll(peers, ps))
    ensures forall p :: p in ps ==>
      var found := LookupPeer(UpsertAll(peers, ps), p.identity.deviceId);
      && found.Some?
      && (p.paired ==> found.value.paired)
      && (p.endpoint.Some? ==> found.value.endpoint.Some?)
    decreases ps
  {
    if ps != [] {
      var next := UpsertPeer(peers, ps[0]);
      assert EndpointsWhole(next) && PeersGrow(peers, next);
      NoPeerUpdateIsLost(next, ps[1..]);
      var p := ps[0];
      assert p.identity.deviceId in next;
      assert ps == [p] + ps[1..];
    }
  }

  /** What is read back after an upsert: paired if it was ever stored so, the new endpoint or else the old
      one, and everything else as stored last. Other peers stay as they are. */
  lemma UpsertThenLookup(peers: map<DeviceId, PeerRow>, p: Peer)
    requires EndpointsWhole(peers)
    ensures
      var id := p.identity.deviceId;
      var was := LookupPeer(peers, id);
      LookupPeer(UpsertPeer(peers, p), id) == Some(Peer(
        p.identity,
        if p.endpoint.Some? || was.None? then p.endpoint else was.value.endpoint,
        p.paired || (was.Some? && was.value.paired),
        p.lastSeen))
    ensures forall id :: id != p.identity.deviceId ==> LookupPeer(UpsertPeer(peers, p), id) == LookupPeer(peers, id)
  {
  }

  // ---------- Manifests, chunk rows and blobs ----------

  function RowsOf(t: Tables, id: string): seq<ChunkRow> {
    if id in t.chunks then t.chunks[id] else []
  }

  function MissingChunks(t: Tables, id: string): seq<string> {
    Missing(RowsOf(t, id))
  }

  /** The transaction of `save_manifest`. */
  function SaveRows(t: Tables, peer: DeviceId, m: FileManifest): Tables {
    t.(manifests := if m.id in t.manifests then t.manifests else t.manifests[m.id := ManifestRow(peer, m, false)],
       chunks := t.chunks[m.id := InsertRows(RowsOf(t, m.id), m.chunks, t.blobs.Keys)])
  }

  function SetComplete(t: Tables, id: string, complete: bool): Tables {
    if id in t.manifests then t.(manifests := t.manifests[id := t.manifests[id].(complete := complete)]) else t
  }

  function Refresh(t: Tables, id: string): Tables {
    SetComplete(t, id, MissingChunks(t, id) == [])
  }

  function SaveManifest(t: Tables, peer: DeviceId, m: FileManifest): (r: Tables)
    ensures r.events == t.events && r.peers == t.peers && r.blobs == t.blobs
  {
    Refresh(SaveRows(t, peer, m), m.id)
  }

  function MarkPresent(t: Tables, hash: string): Tables {
    t.(chunks := map id | id in t.chunks :: Mark(t.chunks[id], hash))
  }

  function AddBlob(t: Tables, hash: string, bytes: Bytes): Tables {
    if hash in t.blobs then t else t.(blobs := t.blobs[hash := bytes])
  }

  /** `put_blob` without interference; bytes that do not match the hash are refused. */
  function PutBlob(prim: Primitives, t: Tables, hash: string, bytes: Bytes): Tables {
    if prim.hash(bytes) == hash then MarkPresent(AddBlob(t, hash, bytes), hash) else t
  }

  function IncompleteFor(t: Tables, peer: DeviceId): set<string> {
    set id | id in t.manifests && t.manifests[id].peer == peer && !t.manifests[id].complete
  }

  // ---------- What always holds of a store ----------

  ghost predicate BlobsMatch(prim: Primitives, blobs: map<string, Bytes>) {
    forall h :: h in blobs ==> prim.hash(blobs[h]) == h
  }

  /** `present` never claims a blob that is not there. */
  ghost predicate FlagsHonest(rows: seq<ChunkRow>, blobs: map<string, Bytes>) {
    forall r :: r in rows && r.present ==> r.hash in blobs
  }

  ghost predicate Sound(prim: Primitives, t: Tables) {
    && KeyedById(t.events)
    && EndpointsWhole(t.peers)
    && BlobsMatch(prim, t.blobs)
    && t.chunks.Keys == t.manifests.Keys
    && (forall id :: id in t.manifests ==> t.manifests[id].manifest.id == id)
    && (forall id :: id in t.chunks ==> Sorted(t.chunks[id]) && FlagsHonest(t.chunks[id], t.blobs))
    && (forall id :: id in t.manifests && t.manifests[id].complete ==> MissingChunks(t, id) == [])
  }

  lemma SoundIsKeyed(prim: Primitives, t: Tables)
    requires Sound(prim, t)
    ensures KeyedById(t.events)
  {
  }

  lemma SoundEndpoints(prim: Primitives, t: Tables)
    requires Sound(prim, t)
    ensures EndpointsWhole(t.peers)
  {
  }

  lemma SoundHasRows(prim: Primitives, t: Tables)
    requires Sound(prim, t)
    ensures t.chunks.Keys == t.manifests.Keys
  {
  }

  lemma SoundRows(prim: Primitives, t: Tables, id: string)
    requires Sound(prim, t)
    ensures t.chunks.Keys == t.manifests.Keys && Sorted(RowsOf(t, id))
  {
  }

  lemma InsertEventSound(prim: Primitives, t: Tables, e: EventEnvelope)
    requires Sound(prim, t)
    ensures Sound(prim, t.(events := Insert(t.events, e)))
  {
    var t' := t.(events := Insert(t.events, e));
    assert forall id :: RowsOf(t', id) == RowsOf(t, id);
  }

  lemma UpsertPeerSound(prim: Primitives, t: Tables, p: Peer)
    requires Sound(prim, t)
    ensures Sound(prim, t.(peers := UpsertPeer(t.peers, p)))
  {
    var t' := t.(peers := UpsertPeer(t.peers, p));
    assert forall id :: RowsOf(t', id) == RowsOf(t, id);
  }

  lemma SetCompleteSound(prim: Primitives, t: Tables, id: string, complete: bool)
    requires Sound(prim, t) && (complete ==> MissingChunks(t, id) == [])
    ensures Sound(prim, SetComplete(t, id, complete))
  {
    var t' := SetComplete(t, id, complete);
    assert t'.chunks == t.chunks;
    forall i | i in t'.manifests && t'.manifests[i].complete
      ensures MissingChunks(t', i) == []
    {
      assert RowsOf(t', i) == RowsOf(t, i);
    }
  }

  lemma SaveManifestSound(prim: Primitives, t: Tables, peer: DeviceId, m: FileManifest)
    requires Sound(prim, t)
    ensures Sound(prim, SaveManifest(t, peer, m))
  {
    var saved := SaveRows(t, peer, m);
    SaveRowsSound(prim, t, peer, m);
    hide SaveRows;
    SetCompleteSound(prim, SetComplete(saved, m.id, false), m.id, MissingChunks(saved, m.id) == []);
    SetTwice(saved, m.id, false, MissingChunks(saved, m.id) == []);
  }

  lemma SetTwice(t: Tables, id: string, first: bool, second: bool)
    ensures SetComplete(SetComplete(t, id, first), id, second) == SetComplete(t, id, second)
    ensures MissingChunks(SetComplete(t, id, first), id) == MissingChunks(t, id)
  {
    if id in t.manifests {
      assert t.manifests[id := t.manifests[id].(complete := first)][id := t.manifests[id].(complete := second)]
          == t.manifests[id := t.manifests[id].(complete := second)];
    }
  }

  /** Until the refresh, the saved manifest may have gained missing rows; all else is in order. */
  lemma SaveRowsSound(prim: Primitives, t: Tables, peer: DeviceId, m: FileManifest)
    requires Sound(prim, t)
    ensures Sound(prim, SetComplete(SaveRows(t, peer, m), m.id, false))
  {
    hide Sorted, FlagsHonest, InsertRows, Missing, BlobsMatch, KeyedById, EndpointsWhole;
    var t' := SetComplete(SaveRows(t, peer, m), m.id, false);
    assert Sorted(RowsOf(t, m.id)) && FlagsHonest(RowsOf(t, m.id), t.blobs) by { NoRows(t.blobs); }
    InsertRowsKeepOrder(RowsOf(t, m.id), m.chunks, t.blobs.Keys);
    InsertRowsHonest(RowsOf(t, m.id), m.chunks, t.blobs);
    assert t'.chunks[m.id] == InsertRows(RowsOf(t, m.id), m.chunks, t.blobs.Keys);
    forall i | i in t'.manifests && t'.manifests[i].complete
      ensures MissingChunks(t', i) == []
    {
      assert i != m.id && RowsOf(t', i) == RowsOf(t, i);
    }
  }

  lemma NoRows(blobs: map<string, Bytes>)
    ensures Sorted([]) && FlagsHonest([], blobs)
  {
  }

  lemma InsertRowsHonest(rows: seq<ChunkRow>, chunks: seq<ChunkDescriptor>, blobs: map<string, Bytes>)
    requires Sorted(rows) && FlagsHonest(rows, blobs)
    ensures FlagsHonest(InsertRows(rows, chunks, blobs.Keys), blobs)
  {
    InsertRowsKeepOrder(rows, chunks, blobs.Keys);
  }

  lemma AddBlobSound(prim: Primitives, t: Tables, hash: string, bytes: Bytes)
    requires Sound(prim, t) && prim.hash(bytes) == hash
    ensures Sound(prim, AddBlob(t, hash, bytes))
  {
    var t' := AddBlob(t, hash, bytes);
    assert forall id :: RowsOf(t', id) == RowsOf(t, id);
  }

  /** What saving a manifest means: the first save of an id decides manifest and peer, rows are only added, and the
      manifest is complete exactly if all its rows are present. Nothing else changes. */
  ghost predicate Saved(t: Tables, t': Tables, peer: DeviceId, m: FileManifest) {
    && t' == t.(manifests := t'.manifests, chunks := t'.chunks)
    && t'.manifests.Keys == t.manifests.Keys + {m.id} && t'.chunks.Keys == t.chunks.Keys + {m.id}
    && (forall id :: id in t.manifests && id != m.id ==> t'.manifests[id] == t.manifests[id])
    && (forall id :: id in t.chunks && id != m.id ==> t'.chunks[id] == t.chunks[id])
    && t'.manifests[m.id].peer == (if m.id in t.manifests then t.manifests[m.id].peer else peer)
    && t'.manifests[m.id].manifest == (if m.id in t.manifests then t.manifests[m.id].manifest else m)
    && (t'.manifests[m.id].complete <==> forall r :: r in t'.chunks[m.id] ==> r.present)
    && RowsSaved(RowsOf(t, m.id), m.chunks, t.blobs.Keys, t'.chunks[m.id])
  }

  lemma SavedExactly(prim: Primitives, t: Tables, peer: DeviceId, m: FileManifest)
    requires Sound(prim, t)
    ensures Saved(t, SaveManifest(t, peer, m), peer, m)
  {
    SoundRows(prim, t, m.id);
    SavedForm(t, peer, m);
    hide Sound, RowsSaved, InsertRows, Missing, SaveManifest, Saved;
    var row := if m.id in t.manifests then t.manifests[m.id] else ManifestRow(peer, m, false);
    var rows := InsertRows(RowsOf(t, m.id), m.chunks, t.blobs.Keys);
    InsertRowsSaved(RowsOf(t, m.id), m.chunks, t.blobs.Keys);
    NothingMissing(rows);
    SavedAs(t, peer, m, row.(complete := Missing(rows) == []), rows);
  }

  lemma SavedAs(t: Tables, peer: DeviceId, m: FileManifest, row: ManifestRow, rows: seq<ChunkRow>)
    requires row.peer == (if m.id in t.manifests then t.manifests[m.id].peer else peer)
    requires row.manifest == (if m.id in t.manifests then t.manifests[m.id].manifest else m)
    requires row.complete <==> forall r :: r in rows ==> r.present
    requires RowsSaved(RowsOf(t, m.id), m.chunks, t.blobs.Keys, rows)
    ensures Saved(t, t.(manifests := t.manifests[m.id := row], chunks := t.chunks[m.id := rows]), peer, m)
  {
    hide RowsSaved;
  }

  lemma SavedForm(t: Tables, peer: DeviceId, m: FileManifest)
    ensures
      var row := if m.id in t.manifests then t.manifests[m.id] else ManifestRow(peer, m, false);
      var rows := InsertRows(RowsOf(t, m.id), m.chunks, t.blobs.Keys);
      SaveManifest(t, peer, m)
        == t.(manifests := t.manifests[m.id := row.(complete := Missing(rows) == [])], chunks := t.chunks[m.id := rows])
  {
    hide InsertRows, Missing;
    SaveManifestRows(t, peer, m);
  }

  lemma MarkPresentSound(prim: Primitives, t: Tables, hash: string)
    requires Sound(prim, t) && hash in t.blobs
    ensures Sound(prim, MarkPresent(t, hash))
  {
    var t' := MarkPresent(t, hash);
    forall id | id in t'.chunks
      ensures FlagsHonest(t'.chunks[id], t'.blobs)
    {
      assert t'.chunks[id] == Mark(t.chunks[id], hash);
      forall r | r in t'.chunks[id] && r.present
        ensures r.hash in t'.blobs
      {
        var k :| 0 <= k < |t'.chunks[id]| && t'.chunks[id][k] == r;
        assert t.chunks[id][k] in t.chunks[id];
      }
    }
    forall id | id in t'.manifests && t'.manifests[id].complete
      ensures MissingChunks(t', id) == []
    {
      MissingAfterMark(t.chunks[id], hash);
    }
  }

  lemma PutBlobSound(prim: Primitives, t: Tables, hash: string, bytes: Bytes)
    requires Sound(prim, t)
    ensures Sound(prim, PutBlob(prim, t, hash, bytes))
  {
    if prim.hash(bytes) == hash {
      AddBlobSound(prim, t, hash, bytes);
      MarkPresentSound(prim, AddBlob(t, hash, bytes), hash);
    }
  }

  /** Effect of a stored blob on what a manifest still lacks. */
  lemma MissingAfterPut(prim: Primitives, t: Tables, hash: string, bytes: Bytes, id: string)
    requires prim.hash(bytes) == hash
    ensures MissingChunks(PutBlob(prim, t, hash, bytes), id) == Without(MissingChunks(t, id), {hash})
  {
    MissingAfterMark(RowsOf(t, id), hash);
  }

  /** A stored chunk is read back as it was put, even if it had been stored before. */
  lemma PutThenGet(prim: Primitives, t: Tables, bytes: Bytes)
    requires Sound(prim, t) && HashInjective(prim)
    ensures var hash := prim.hash(bytes); var t' := PutBlob(prim, t, hash, bytes);
            hash in t'.blobs && t'.blobs[hash] == bytes
  {
    var hash := prim.hash(bytes);
    if hash in t.blobs {
      assert prim.hash(t.blobs[hash]) == hash;
    }
  }

  /** The change that file traffic makes: blobs are added, flags of existing rows may rise, the
      `complete` flag of existing manifests is rewritten. */
  ghost predicate Fills(t: Tables, t': Tables) {
    && t'.events == t.events && t'.peers == t.peers
    && t'.manifests.Keys == t.manifests.Keys && t'.chunks.Keys == t.chunks.Keys
    && (forall id :: id in t.manifests ==>
        t'.manifests[id].peer == t.manifests[id].peer && t'.manifests[id].manifest == t.manifests[id].manifest)
    && (forall h :: h in t.blobs ==> h in t'.blobs && t'.blobs[h] == t.blobs[h])
    && (forall id :: id in t.chunks ==> Raised(t.chunks[id], t'.chunks[id]))
  }

  ghost predicate Raised(before: seq<ChunkRow>, after: seq<ChunkRow>) {
    && |after| == |before|
    && forall k :: 0 <= k < |before| ==>
      && after[k].index == before[k].index && after[k].hash == before[k].hash
      && (before[k].present ==> after[k].present)
  }

  /** Manifests stay, and their rows only rise. */
  ghost predicate ChunksRise(t: Tables, t': Tables) {
    forall id :: id in t.manifests ==>
      && id in t'.manifests && t'.manifests[id].manifest == t.manifests[id].manifest
      && t'.manifests[id].peer == t.manifests[id].peer
      && Raised(RowsOf(t, id), RowsOf(t', id))
  }

  lemma ChunksRiseTransitive(a: Tables, b: Tables, c: Tables)
    requires ChunksRise(a, b) && ChunksRise(b, c)
    ensures ChunksRise(a, c)
  {
    hide RowsOf;
    forall id | id in a.manifests
      ensures id in c.manifests && Raised(RowsOf(a, id), RowsOf(c, id))
      ensures c.manifests[id].manifest == a.manifests[id].manifest && c.manifests[id].peer == a.manifests[id].peer
    {
      RaisedTransitive(RowsOf(a, id), RowsOf(b, id), RowsOf(c, id));
    }
  }

  lemma RaisedTransitive(a: seq<ChunkRow>, b: seq<ChunkRow>, c: seq<ChunkRow>)
    requires Raised(a, b) && Raised(b, c)
    ensures Raised(a, c)
  {
  }

  lemma RaisedReflexive(rows: seq<ChunkRow>)
    ensures Raised(rows, rows)
  {
  }

  lemma FillsRaised(t: Tables, t': Tables, id: string)
    requires Fills(t, t')
    ensures Raised(RowsOf(t, id), RowsOf(t', id))
  {
    RaisedReflexive([]);
  }

  lemma FillsRise(t: Tables, t': Tables)
    requires Fills(t, t')
    ensures ChunksRise(t, t')
  {
    forall id | id in t.manifests
      ensures Raised(RowsOf(t, id), RowsOf(t', id))
    {
      FillsRaised(t, t', id);
    }
  }

  lemma FillsReflexive(t: Tables)
    ensures Fills(t, t)
  {
  }

  lemma FillsTransitive(a: Tables, b: Tables, c: Tables)
    requires Fills(a, b) && Fills(b, c)
    ensures Fills(a, c)
  {
    forall id | id in a.chunks
      ensures Raised(a.chunks[id], c.chunks[id])
    {
      assert Raised(a.chunks[id], b.chunks[id]) && Raised(b.chunks[id], c.chunks[id]);
    }
  }

  lemma PutBlobFills(prim: Primitives, t: Tables, hash: string, bytes: Bytes)
    ensures Fills(t, PutBlob(prim, t, hash, bytes))
    ensures PutBlob(prim, t, hash, bytes).manifests == t.manifests
  {
    if prim.hash(bytes) == hash {
      var t' := PutBlob(prim, t, hash, bytes);
      forall id | id in t.chunks
        ensures Raised(t.chunks[id], t'.chunks[id])
      {
        assert t'.chunks[id] == Mark(t.chunks[id], hash);
        MarkRaises(t.chunks[id], hash);
      }
    }
  }

  lemma MarkRaises(rows: seq<ChunkRow>, hash: string)
    ensures Raised(rows, Mark(rows, hash))
  {
  }

  lemma RefreshFills(t: Tables, id: string)
    ensures Fills(t, Refresh(t, id))
  {
    forall x | x in t.chunks
      ensures Raised(t.chunks[x], Refresh(t, id).chunks[x])
    {
    }
  }

  // ---------- Manifest ids name one manifest ----------

  /** The stored manifest `m` together with exactly its chunk list. */
  ghost predicate Holds(t: Tables, m: FileManifest) {
    && m.id in t.manifests && t.manifests[m.id].manifest == m
    && Describes(RowsOf(t, m.id), m.chunks)
  }

  lemma HeldManifest(t: Tables, m: FileManifest)
    requires Holds(t, m)
    ensures m.id in t.manifests && t.manifests[m.id].manifest == m
  {
  }

  /** The store has either never seen this manifest id or holds this very manifest under it. */
  ghost predicate Unambiguous(t: Tables, m: FileManifest) {
    (m.id in t.manifests || m.id in t.chunks) ==> Holds(t, m)
  }

  lemma SaveManifestRows(t: Tables, peer: DeviceId, m: FileManifest)
    ensures RowsOf(SaveManifest(t, peer, m), m.id) == InsertRows(RowsOf(t, m.id), m.chunks, t.blobs.Keys)
    ensures forall id :: id != m.id ==> RowsOf(SaveManifest(t, peer, m), id) == RowsOf(t, id)
  {
  }

  lemma SaveManifestKeepsOthers(t: Tables, peer: DeviceId, m: FileManifest, n: FileManifest)
    requires n.id != m.id && Holds(t, n)
    ensures Holds(SaveManifest(t, peer, m), n)
  {
    SaveManifestRows(t, peer, m);
  }

  /** After the save the store holds the manifest with exactly its chunk list; saving it again
      leaves the rows as they are. */
  lemma SaveManifestHolds(prim: Primitives, t: Tables, peer: DeviceId, m: FileManifest)
    requires Sound(prim, t) && Unambiguous(t, m) && Increasing(m.chunks)
    ensures Holds(SaveManifest(t, peer, m), m)
    ensures m.id in t.manifests ==> RowsOf(SaveManifest(t, peer, m), m.id) == RowsOf(t, m.id)
  {
    SaveManifestRows(t, peer, m);
    if m.id in t.manifests {
      DescribesCovers(RowsOf(t, m.id), m.chunks);
      InsertRowsAgain(RowsOf(t, m.id), m.chunks, t.blobs.Keys);
    } else {
      assert [] + m.chunks == m.chunks;
      FirstSaveDescribes([], [], m.chunks, t.blobs.Keys);
    }
  }

  /** A save changes no row of a manifest that is stored already. */
  lemma SaveRises(prim: Primitives, t: Tables, peer: DeviceId, m: FileManifest)
    requires Sound(prim, t) && Unambiguous(t, m) && Increasing(m.chunks)
    ensures ChunksRise(t, SaveManifest(t, peer, m))
  {
    hide Sound, Holds, Unambiguous, Raised;
    SaveManifestHolds(prim, t, peer, m);
    SaveManifestRows(t, peer, m);
    hide RowsOf;
    forall id | id in t.manifests
      ensures Raised(RowsOf(t, id), RowsOf(SaveManifest(t, peer, m), id))
    {
      RaisedReflexive(RowsOf(t, id));
    }
  }

  lemma FillsHolds(t: Tables, t': Tables, m: FileManifest)
    requires Holds(t, m) && Fills(t, t')
    ensures Holds(t', m)
  {
    if m.id in t.chunks {
      assert Raised(t.chunks[m.id], t'.chunks[m.id]);
    }
  }

  lemma {:induction false} InsertRowRaised(rows: seq<ChunkRow>, rows': seq<ChunkRow>, row: ChunkRow, row': ChunkRow)
    requires Raised(rows, rows') && row'.index == row.index && row'.hash == row.hash && (row.present ==> row'.present)
    ensures Raised(InsertRow(rows, row), InsertRow(rows', row'))
  {
    if rows != [] {
      assert rows'[0].index == rows[0].index;
      if row.index > rows[0].index {
        assert Raised(rows[1..], rows'[1..]) by {
          assert forall k :: 0 <= k < |rows[1..]| ==> rows[1..][k] == rows[k + 1] && rows'[1..][k] == rows'[k + 1];
        }
        InsertRowRaised(rows[1..], rows'[1..], row, row');
      }
    }
  }

  lemma {:induction false} InsertRowsRaised(
    rows: seq<ChunkRow>, rows': seq<ChunkRow>, chunks: seq<ChunkDescriptor>, onDisk: set<string>, onDisk': set<string>)
    requires Raised(rows, rows') && onDisk <= onDisk'
    ensures Raised(InsertRows(rows, chunks, onDisk), InsertRows(rows', chunks, onDisk'))
    decreases chunks
  {
    hide Raised, InsertRow;
    if chunks != [] {
      var row, row' := RowFor(chunks[0], chunks[0].hash in onDisk), RowFor(chunks[0], chunks[0].hash in onDisk');
      InsertRowRaised(rows, rows', row, row');
      InsertRowsRaised(InsertRow(rows, row), InsertRow(rows', row'), chunks[1..], onDisk, onDisk');
    }
  }

  lemma SaveRowsRaised(t: Tables, t': Tables, peer: DeviceId, m: FileManifest, id: string)
    requires Fills(t, t') && id in SaveRows(t, peer, m).chunks && id in SaveRows(t', peer, m).chunks
    ensures Raised(SaveRows(t, peer, m).chunks[id], SaveRows(t', peer, m).chunks[id])
  {
    FillsRaised(t, t', m.id);
    if id == m.id {
      InsertRowsRaised(RowsOf(t, id), RowsOf(t', id), m.chunks, t.blobs.Keys, t'.blobs.Keys);
    }
  }

  lemma SameRowSaved(t: Tables, t': Tables, peer: DeviceId, m: FileManifest, id: string)
    requires Fills(t, t') && id in SaveRows(t, peer, m).manifests && id in SaveRows(t', peer, m).manifests
    ensures SaveRows(t', peer, m).manifests[id].peer == SaveRows(t, peer, m).manifests[id].peer
    ensures SaveRows(t', peer, m).manifests[id].manifest == SaveRows(t, peer, m).manifests[id].manifest
  {
  }

  lemma SaveRowsFills(t: Tables, t': Tables, peer: DeviceId, m: FileManifest)
    requires Fills(t, t')
    ensures Fills(SaveRows(t, peer, m), SaveRows(t', peer, m))
  {
    SaveRowsKeeps(t, peer, m);
    SaveRowsKeeps(t', peer, m);
    hide SaveRows, Raised;
    var u, u' := SaveRows(t, peer, m), SaveRows(t', peer, m);
    forall id | id in u.chunks
      ensures Raised(u.chunks[id], u'.chunks[id])
    {
      SaveRowsRaised(t, t', peer, m, id);
    }
    forall id | id in u.manifests
      ensures u'.manifests[id].peer == u.manifests[id].peer && u'.manifests[id].manifest == u.manifests[id].manifest
    {
      SameRowSaved(t, t', peer, m, id);
    }
  }

  lemma SaveRowsKeeps(t: Tables, peer: DeviceId, m: FileManifest)
    ensures var u := SaveRows(t, peer, m);
            && u.events == t.events && u.peers == t.peers && u.blobs == t.blobs
            && u.manifests.Keys == t.manifests.Keys + {m.id} && u.chunks.Keys == t.chunks.Keys + {m.id}
  {
  }

  lemma FlagsDoNotMatter(t: Tables, t': Tables, id: string, complete: bool, complete': bool)
    requires Fills(t, t')
    ensures Fills(SetComplete(t, id, complete), SetComplete(t', id, complete'))
  {
    hide Raised;
  }

  /** Chunks that have arrived meanwhile only make a save find more rows present. */
  lemma SaveManifestFills(t: Tables, t': Tables, peer: DeviceId, m: FileManifest)
    requires Fills(t, t')
    ensures Fills(SaveManifest(t, peer, m), SaveManifest(t', peer, m))
  {
    hide Fills, SaveRows, SetComplete, MissingChunks;
    SaveRowsFills(t, t', peer, m);
    var u, u' := SaveRows(t, peer, m), SaveRows(t', peer, m);
    FlagsDoNotMatter(u, u', m.id, MissingChunks(u, m.id) == [], MissingChunks(u', m.id) == []);
  }
}
