/** The store of one device (`storage.rs`): tables and blob directory updated in place.
    Each method is proved against the table functions of module `Tables`. A SQL statement is
    one assignment; a loop of statements in the source is a loop here. */
module Storage {
  import opened Wrappers
  import opened Text
  import opened Model
  import opened Crypto
  import opened ChunkRows
  import opened EventLog
  import T = Tables

  class Store {
    const prim: Primitives
    var events: Log
    var peers: map<DeviceId, T.PeerRow>
    var manifests: map<string, T.ManifestRow>
    var chunks: map<string, seq<ChunkRow>>
    var blobs: map<string, Bytes>

    ghost function View(): T.Tables
      reads this
    {
      T.Tables(events, peers, manifests, chunks, blobs)
    }

    ghost predicate Valid()
      reads this
    {
      T.Sound(prim, View())
    }

    constructor (prim: Primitives)
      ensures Valid() && View() == T.EMPTY && this.prim == prim
    {
      this.prim := prim;
      events, peers, manifests, chunks, blobs := map[], map[], map[], map[], map[];
    }

    // ---------- Peers ----------

    method UpsertPeer(peer: Peer)
      requires Valid()
      modifies this
      ensures Valid()
      ensures View() == old(View()).(peers := T.UpsertPeer(old(peers), peer))
    {
      T.UpsertPeerSound(prim, View(), peer);
      var (host, port) := match peer.endpoint
        case Some(e) => (Some(e.host), Some(e.port))
        case None => (None, None);
      var id := peer.identity.deviceId;
      if id in peers {
        var was := peers[id];
        peers := peers[id := T.PeerRow(
          peer.identity, was.paired || peer.paired,
          T.Coalesce(host, was.host), T.Coalesce(port, was.port), peer.lastSeen)];
      } else {
        peers := peers[id := T.PeerRow(peer.identity, peer.paired, host, port, peer.lastSeen)];
      }
    }

    method SetPeerPaired(identity: PublicIdentity, endpoint: Option<Endpoint>, now: int)
      requires Valid()
      modifies this
      ensures Valid()
      ensures View() == old(View()).(peers := T.UpsertPeer(old(peers), Peer(identity, endpoint, true, now)))
      ensures T.IsPaired(View(), identity.deviceId) && peers[identity.deviceId].identity == identity
      ensures
        var was := T.LookupPeer(old(peers), identity.deviceId);
        T.LookupPeer(peers, identity.deviceId).value.endpoint
          == if endpoint.Some? || was.None? then endpoint else was.value.endpoint
    {
      T.SoundEndpoints(prim, View());
      T.UpsertThenLookup(peers, Peer(identity, endpoint, true, now));
      UpsertPeer(Peer(identity, endpoint, true, now));
    }

    /** The row as a peer; it has an endpoint exactly when the row has both a host and a port. */
    method GetPeer(id: DeviceId) returns (peer: Option<Peer>)
      ensures peer == T.LookupPeer(peers, id)
      ensures peer.Some? <==> id in peers
      ensures peer.Some? ==>
        && peer.value.identity == peers[id].identity && peer.value.paired == peers[id].paired
        && peer.value.lastSeen == peers[id].lastSeen
        && (peer.value.endpoint.Some? <==> peers[id].host.Some? && peers[id].port.Some?)
      ensures peer.Some? && peer.value.endpoint.Some? ==>
        Some(peer.value.endpoint.value.host) == peers[id].host && Some(peer.value.endpoint.value.port) == peers[id].port
    {
      if id !in peers {
        return None;
      }
      var row := peers[id];
      var endpoint := match (row.host, row.port)
        case (Some(host), Some(port)) => Some(Endpoint(host, port))
        case _ => None;
      return Some(Peer(row.identity, endpoint, row.paired, row.lastSeen));
    }

    // ---------- Events ----------

    /** Returns whether the event was new. */
    method InsertEvent(e: EventEnvelope) returns (added: bool)
      requires Valid()
      modifies this
      ensures Valid()
      ensures added <==> e.id !in old(events)
      ensures View() == old(View()).(events := Insert(old(events), e))
      ensures events == if added then old(events)[e.id := e] else old(events)
    {
      T.InsertEventSound(prim, View(), e);
      added := e.id !in events;
      if added {
        events := events[e.id := e];
      }
    }

    /** `SELECT ... WHERE stream_id = ? ORDER BY created_at_ms, id`, row by row. */
    method EventsOf(stream: string) returns (es: seq<EventEnvelope>)
      requires Valid()
      ensures es == Events(events, stream)
      ensures forall i, j :: 0 <= i < j < |es| ==>
        es[i].time < es[j].time || (es[i].time == es[j].time && Less(es[i].id, es[j].id))
      ensures forall e :: e in es <==> e.id in events && events[e.id] == e && e.stream == stream
    {
      StreamHasUniqueIds(events, stream);
      var rest := Stream(events, stream);
      es := [];
      while rest != {}
        invariant Listed(es, rest, Stream(events, stream))
        decreases |rest|
      {
        FirstExists(rest);
        var e :| e in rest && forall f :: f in rest && f != e ==> Before(e, f);
        ListNext(es, rest, Stream(events, stream), e);
        es, rest := es + [e], rest - {e};
      }
      ListingUnique(es, Events(events, stream));
      assert forall e :: e in es <==> e in Elements(es);
    }

    method EventIds(stream: string) returns (ids: set<string>)
      requires Valid()
      ensures ids == set e | e in Events(events, stream) :: e.id
      ensures ids == set id | id in events && events[id].stream == stream
    {
      var es := EventsOf(stream);
      ids := set e | e in es :: e.id;
      forall id | id in events && events[id].stream == stream
        ensures id in ids
      {
        assert events[id] in es;
      }
    }

    // ---------- Manifests and chunks ----------

    method SaveManifest(peer: DeviceId, m: FileManifest)
      requires Valid()
      modifies this
      ensures Valid()
      ensures View() == T.SaveManifest(old(View()), peer, m)
      ensures T.Saved(old(View()), View(), peer, m)
    {
      hide T.Sound, T.Saved, InsertRows, RowsSaved, Missing;
      T.SaveManifestSound(prim, View(), peer, m);
      T.SavedExactly(prim, View(), peer, m);
      if m.id !in manifests {
        manifests := manifests[m.id := T.ManifestRow(peer, m, false)];
      }
      var rows := SavedRows(if m.id in chunks then chunks[m.id] else [], m.chunks, blobs.Keys);
      chunks := chunks[m.id := rows];
      assert View() == T.SaveRows(old(View()), peer, m);
      var missing := MissingRows(rows);
      manifests := manifests[m.id := manifests[m.id].(complete := missing == [])];
    }

    /** The loop of the transaction: one `INSERT OR IGNORE` per chunk. */
    static method SavedRows(start: seq<ChunkRow>, descriptors: seq<ChunkDescriptor>, onDisk: set<string>)
      returns (rows: seq<ChunkRow>)
      ensures rows == InsertRows(start, descriptors, onDisk)
    {
      rows := start;
      var k := 0;
      while k < |descriptors|
        invariant 0 <= k <= |descriptors|
        invariant InsertRows(rows, descriptors[k..], onDisk) == InsertRows(start, descriptors, onDisk)
      {
        rows := InsertRow(rows, RowFor(descriptors[k], descriptors[k].hash in onDisk));
        assert descriptors[k..][1..] == descriptors[k + 1..];
        k := k + 1;
      }
    }

    static method MissingRows(rows: seq<ChunkRow>) returns (hashes: seq<string>)
      ensures hashes == Missing(rows)
      ensures exists at :: AbsentAt(rows, hashes, at)
    {
      ghost var at := MissingPositions(rows);
      hashes := [];
      var k := |rows|;
      while 0 < k
        invariant 0 <= k <= |rows|
        invariant hashes == Missing(rows[k..])
      {
        k := k - 1;
        assert rows[k..][1..] == rows[k + 1..];
        if !rows[k].present {
          hashes := [rows[k].hash] + hashes;
        }
      }
      assert rows[0..] == rows;
      assert AbsentAt(rows, hashes, at);
    }

    /** The manifest of this id, which is the one named by it. */
    method GetManifest(id: string) returns (m: Option<FileManifest>)
      ensures m.Some? <==> id in manifests
      ensures m.Some? ==> m.value == manifests[id].manifest && (Valid() ==> m.value.id == id)
    {
      m := if id in manifests then Some(manifests[id].manifest) else None;
    }

    method MissingChunks(id: string) returns (hashes: seq<string>)
      ensures hashes == T.MissingChunks(View(), id)
      ensures exists at :: AbsentAt(T.RowsOf(View(), id), hashes, at)
    {
      hashes := MissingRows(if id in chunks then chunks[id] else []);
    }

    method MarkChunkPresent(hash: string)
      requires Valid() && hash in blobs
      modifies this
      ensures Valid()
      ensures View() == T.MarkPresent(old(View()), hash)
      ensures View() == old(View()).(chunks := chunks) && chunks.Keys == old(chunks).Keys
      ensures forall id, k :: id in chunks && 0 <= k < |old(chunks)[id]| ==>
        && |chunks[id]| == |old(chunks)[id]|
        && chunks[id][k] == if old(chunks)[id][k].hash == hash then old(chunks)[id][k].(present := true)
                            else old(chunks)[id][k]
    {
      T.MarkPresentSound(prim, View(), hash);
      chunks := map id | id in chunks :: Mark(chunks[id], hash);
    }

    method RefreshManifestComplete(id: string) returns (complete: bool)
      requires Valid()
      modifies this
      ensures Valid()
      ensures View() == T.Refresh(old(View()), id)
      ensures complete <==> T.MissingChunks(View(), id) == []
      ensures id in manifests ==> manifests[id].complete == complete
      ensures View() == old(View()).(manifests := manifests) && manifests - {id} == old(manifests) - {id}
      ensures complete <==> forall r :: id in chunks && r in chunks[id] ==> r.present
    {
      hide T.Sound, Missing;
      NothingMissing(if id in chunks then chunks[id] else []);
      T.SetCompleteSound(prim, View(), id, T.MissingChunks(View(), id) == []);
      var missing := MissingChunks(id);
      complete := missing == [];
      if id in manifests {
        manifests := manifests[id := manifests[id].(complete := complete)];
      }
    }

    /** The query gives no order, so the contract leaves it open. */
    method IncompleteManifestsForPeer(peer: DeviceId) returns (ms: seq<FileManifest>)
      requires Valid()
      ensures forall m :: m in ms <==> m.id in T.IncompleteFor(View(), peer) && m == manifests[m.id].manifest
      ensures forall m :: m in ms <==> m.id in manifests && manifests[m.id].peer == peer && !manifests[m.id].complete
                                       && manifests[m.id].manifest == m
      ensures forall i, j :: 0 <= i < j < |ms| ==> ms[i].id != ms[j].id
    {
      var rest := set id | id in manifests && manifests[id].peer == peer && !manifests[id].complete;
      assert rest == T.IncompleteFor(View(), peer);
      ms := [];
      while rest != {}
        invariant rest <= T.IncompleteFor(View(), peer)
        invariant forall m :: m in ms <==> m.id in T.IncompleteFor(View(), peer) - rest && m == manifests[m.id].manifest
        invariant forall i, j :: 0 <= i < j < |ms| ==> ms[i].id != ms[j].id
        decreases |rest|
      {
        var id :| id in rest;
        assert forall m :: m in ms ==> m.id != id;
        ms, rest := ms + [manifests[id].manifest], rest - {id};
      }
    }

    // ---------- Blobs ----------

    method PutBlob(hash: string, bytes: Bytes) returns (r: Result<()>)
      requires Valid()
      modifies this
      ensures Valid()
      ensures View() == T.PutBlob(prim, old(View()), hash, bytes)
      ensures r.Ok? <==> prim.hash(bytes) == hash
      ensures r.Err? ==> View() == old(View())
      ensures r.Ok? ==> blobs == if hash in old(blobs) then old(blobs) else old(blobs)[hash := bytes]
      ensures r.Ok? ==>
        forall id :: id in chunks ==> forall row :: row in chunks[id] && row.hash == hash ==> row.present
    {
      hide T.Sound;
      T.PutBlobSound(prim, View(), hash, bytes);
      if prim.hash(bytes) != hash {
        return Err("chunk hash mismatch");
      }
      if hash !in blobs {
        T.AddBlobSound(prim, View(), hash, bytes);
        blobs := blobs[hash := bytes];
      }
      MarkChunkPresent(hash);
      return Ok(());
    }

    /** The content of a chunk, which has the hash asked for. */
    method GetBlob(hash: string) returns (r: Result<Bytes>)
      ensures r.Ok? <==> hash in blobs
      ensures r.Ok? ==> r.value == blobs[hash] && (Valid() ==> prim.hash(r.value) == hash)
      ensures r.Err? ==> r.message == "no such blob"
    {
      r := if hash in blobs then Ok(blobs[hash]) else Err("no such blob");
    }
  }
}
