/** What each handler promises: who is answered, with what, and what is left in the store, told from the rows of the
    store and the message alone. */
module HandlerLaws {
  import opened Wrappers
  import opened Text
  import opened Model
  import opened Crypto
  import opened ChunkRows
  import opened EventLog
  import opened Tables
  import opened Protocol
  import opened ChunkTraffic

  // ---------- Who is answered ----------

  /** Everything but greeting and pairing. */
  predicate NeedsPairing(body: Message) {
    body.PushEvent? || body.SyncExchange? || body.ChunkRequest? || body.PushChunks?
  }

  predicate PairedAs(peers: map<DeviceId, PeerRow>, sender: PublicIdentity) {
    sender.deviceId in peers && peers[sender.deviceId].paired && peers[sender.deviceId].identity == sender
  }

  /** A sender that is unknown, not paired, or paired under another identity is refused and changes nothing. */
  lemma UnpairedIsRefused(
    prim: Primitives, me: Identity, t: Tables, sender: PublicIdentity, body: Message, now: int, nonces: nat -> Bytes)
    requires Sound(prim, t) && NeedsPairing(body)
    requires || sender.deviceId !in t.peers || !t.peers[sender.deviceId].paired
             || t.peers[sender.deviceId].identity != sender
    ensures
      var o := Handle(prim, me, t, sender, body, now, nonces);
      && o.t == t && o.notices == []
      && o.body == Error(
           if sender.deviceId !in t.peers then "unknown sender"
           else if !t.peers[sender.deviceId].paired then "sender is not paired"
           else "paired identity changed")
  {
    hide Sound;
  }

  /** A pair request is always accepted: the sender ends up paired under this identity, keeps the endpoint known
      for it, and is reported. */
  lemma PairIsAccepted(
    prim: Primitives, me: Identity, t: Tables, sender: PublicIdentity, pairingNonce: string, now: int,
    nonces: nat -> Bytes)
    requires Sound(prim, t)
    ensures
      var o := Handle(prim, me, t, sender, PairRequest(pairingNonce), now, nonces);
      var was := LookupPeer(t.peers, sender.deviceId);
      var p := Peer(sender, if was.Some? then was.value.endpoint else None, true, now);
      && o.body == PairResponse(true) && o.notices == [Paired(p)] && o.t == t.(peers := o.t.peers)
      && PairedAs(o.t.peers, sender) && LookupPeer(o.t.peers, sender.deviceId) == Some(p)
      && o.t.peers - {sender.deviceId} == t.peers - {sender.deviceId}
  {
    SoundEndpoints(prim, t);
    hide Sound;
  }

  /** A greeting is answered by one, and a message that is itself an answer is refused. */
  lemma OthersChangeNothing(
    prim: Primitives, me: Identity, t: Tables, sender: PublicIdentity, body: Message, now: int, nonces: nat -> Bytes)
    requires Sound(prim, t) && !NeedsPairing(body) && !body.PairRequest?
    ensures
      var o := Handle(prim, me, t, sender, body, now, nonces);
      && o.t == t && o.notices == [] && (o.body.Error? <==> body != Hello) && (body == Hello ==> o.body == Hello)
  {
    hide Sound;
  }

  // ---------- Events ----------

  /** The manifest that a new event brings along. */
  ghost predicate Brings(e: EventEnvelope, item: ChatItem, m: FileManifest) {
    e.kind == ManifestKind && item.payload == ManifestPayload(m)
  }

  /** An event is acknowledged exactly if its sender is paired, wrote it, and it opens. It is then in the log, and if it
      is new it is shown and its manifest is saved for the sender. Anything else is refused without effect. */
  lemma PushIsTakenExactlyWhen(
    prim: Primitives, me: Identity, t: Tables, sender: PublicIdentity, e: EventEnvelope, now: int, nonces: nat -> Bytes)
    requires Sound(prim, t)
    ensures
      var o := Handle(prim, me, t, sender, PushEvent(e), now, nonces);
      var item := OpenItem(prim, me, sender, e);
      var taken := PairedAs(t.peers, sender) && e.author == sender.deviceId && item.Ok?;
      var added := taken && e.id !in t.events;
      var logged := t.(events := if added then t.events[e.id := e] else t.events);
      && (o.body == Ack(e.id) <==> taken) && (!taken <==> o.body.Error?)
      && o.t.events == logged.events && o.t.peers == t.peers && o.t.blobs == t.blobs
      && o.notices == (if added then [NewMessage(item.value)] else [])
      && (forall m :: added && Brings(e, item.value, m) ==> Saved(logged, o.t, sender.deviceId, m))
      && ((!added || forall m :: !Brings(e, item.value, m)) ==> o.t == logged)
  {
    hide Saved, SaveManifest, OpenItem;
    var item := OpenItem(prim, me, sender, e);
    if item.Ok? && e.id !in t.events {
      InsertEventSound(prim, t, e);
      hide Sound;
      var logged := t.(events := t.events[e.id := e]);
      if e.kind == ManifestKind && item.value.payload.ManifestPayload? {
        SavedExactly(prim, logged, sender.deviceId, item.value.payload.manifest);
        assert Brings(e, item.value, item.value.payload.manifest);
      }
    }
  }

  /** The receiving loop: it goes through exactly if every event by the peer opens; events by others are passed over;
      what it adds are events of the list by the peer, and if it goes through, all of them. */
  lemma {:induction false} AdmitAllExactly(
    prim: Primitives, me: Identity, t: Tables, peer: PublicIdentity, es: seq<EventEnvelope>)
    ensures
      var (t', ok) := AdmitAll(prim, me, t, peer, es);
      && (ok <==> forall e :: e in es && e.author == peer.deviceId ==> OpenItem(prim, me, peer, e).Ok?)
      && t'.peers == t.peers && t'.blobs == t.blobs
      && (forall id :: id in t.events ==> id in t'.events && t'.events[id] == t.events[id])
      && (forall id :: id in t'.events && id !in t.events ==>
            t'.events[id] in es && t'.events[id].id == id && t'.events[id].author == peer.deviceId)
      && (ok ==> forall e :: e in es && e.author == peer.deviceId ==> e.id in t'.events)
    decreases es
  {
    hide OpenItem;
    if es != [] {
      assert es == [es[0]] + es[1..];
      var item := OpenItem(prim, me, peer, es[0]);
      if es[0].author != peer.deviceId {
        AdmitAllExactly(prim, me, t, peer, es[1..]);
      } else if item.Ok? {
        AdmitAllExactly(prim, me, Admit(t, peer.deviceId, es[0], item.value.payload), peer, es[1..]);
      }
    }
  }

  /** What a list of events by `peer` brings in: no stored manifest changes, a new one is that of an event of the list
      that opens, stored for the peer, and no new event is without its manifest. */
  ghost predicate ManifestsFrom(
    prim: Primitives, me: Identity, peer: PublicIdentity, es: seq<EventEnvelope>, t: Tables, t': Tables)
  {
    && (forall id :: id in t.manifests ==>
          && id in t'.manifests && t'.manifests[id].manifest == t.manifests[id].manifest
          && t'.manifests[id].peer == t.manifests[id].peer)
    && (forall id :: id in t'.manifests && id !in t.manifests ==>
          && t'.manifests[id].peer == peer.deviceId && t'.manifests[id].manifest.id == id
          && exists e :: e in es && BroughtBy(prim, me, peer, e, t'.manifests[id].manifest))
    && (forall id, m: FileManifest ::
          id in t'.events && id !in t.events && BroughtBy(prim, me, peer, t'.events[id], m) ==> m.id in t'.manifests)
  }

  ghost predicate BroughtBy(prim: Primitives, me: Identity, peer: PublicIdentity, e: EventEnvelope, m: FileManifest) {
    e.author == peer.deviceId && OpenItem(prim, me, peer, e).Ok? && Brings(e, OpenItem(prim, me, peer, e).value, m)
  }

  lemma AdmitBrings(
    prim: Primitives, me: Identity, t: Tables, peer: PublicIdentity, e: EventEnvelope, es: seq<EventEnvelope>)
    requires e.author == peer.deviceId && OpenItem(prim, me, peer, e).Ok? && e in es
    ensures
      ManifestsFrom(prim, me, peer, es, t, Admit(t, peer.deviceId, e, OpenItem(prim, me, peer, e).value.payload))
  {
    hide SaveManifest, OpenItem, ManifestsFrom;
    var payload := OpenItem(prim, me, peer, e).value.payload;
    var logged := t.(events := Insert(t.events, e));
    if e.id !in t.events && e.kind == ManifestKind && payload.ManifestPayload? {
      var m := payload.manifest;
      SavedForm(logged, peer.deviceId, m);
      var row := if m.id in t.manifests then t.manifests[m.id] else ManifestRow(peer.deviceId, m, false);
      var rows := InsertRows(RowsOf(logged, m.id), m.chunks, logged.blobs.Keys);
      SaveBrings(prim, me, t, peer, e, es, m, row.(complete := Missing(rows) == []), rows);
    } else {
      EventBrings(prim, me, t, peer, e, es);
    }
  }

  lemma SaveBrings(
    prim: Primitives, me: Identity, t: Tables, peer: PublicIdentity, e: EventEnvelope, es: seq<EventEnvelope>,
    m: FileManifest, row: ManifestRow, rows: seq<ChunkRow>)
    requires e in es && BroughtBy(prim, me, peer, e, m)
    requires row.peer == (if m.id in t.manifests then t.manifests[m.id].peer else peer.deviceId)
    requires row.manifest == (if m.id in t.manifests then t.manifests[m.id].manifest else m)
    ensures ManifestsFrom(prim, me, peer, es, t,
              t.(events := Insert(t.events, e), manifests := t.manifests[m.id := row],
                 chunks := t.chunks[m.id := rows]))
  {
    hide OpenItem;
  }

  lemma EventBrings(
    prim: Primitives, me: Identity, t: Tables, peer: PublicIdentity, e: EventEnvelope, es: seq<EventEnvelope>)
    requires e.id in t.events || forall m :: !BroughtBy(prim, me, peer, e, m)
    ensures ManifestsFrom(prim, me, peer, es, t, t.(events := Insert(t.events, e)))
  {
    hide BroughtBy;
  }

  lemma BringsOn(
    prim: Primitives, me: Identity, peer: PublicIdentity, es: seq<EventEnvelope>, a: Tables, b: Tables, c: Tables)
    requires ManifestsFrom(prim, me, peer, es, a, b) && ManifestsFrom(prim, me, peer, es, b, c)
    requires forall id :: id in b.events ==> id in c.events && c.events[id] == b.events[id]
    ensures ManifestsFrom(prim, me, peer, es, a, c)
  {
    hide BroughtBy;
  }

  lemma MoreBrings(
    prim: Primitives, me: Identity, peer: PublicIdentity, es: seq<EventEnvelope>, more: seq<EventEnvelope>, t: Tables,
    t': Tables)
    requires ManifestsFrom(prim, me, peer, es, t, t') && forall e :: e in es ==> e in more
    ensures ManifestsFrom(prim, me, peer, more, t, t')
  {
    hide BroughtBy;
  }

  lemma {:induction false} AdmitAllBrings(
    prim: Primitives, me: Identity, t: Tables, peer: PublicIdentity, es: seq<EventEnvelope>)
    ensures ManifestsFrom(prim, me, peer, es, t, AdmitAll(prim, me, t, peer, es).0)
    decreases es
  {
    hide OpenItem, ManifestsFrom, Admit;
    var item := if es == [] then Err("") else OpenItem(prim, me, peer, es[0]);
    if es == [] || (es[0].author == peer.deviceId && item.Err?) {
      NothingBrought(prim, me, peer, es, t);
    } else {
      var next := if es[0].author != peer.deviceId then t else Admit(t, peer.deviceId, es[0], item.value.payload);
      var t' := AdmitAll(prim, me, t, peer, es).0;
      if es[0].author == peer.deviceId {
        AdmitBrings(prim, me, t, peer, es[0], es);
      } else {
        NothingBrought(prim, me, peer, es, t);
      }
      AdmitAllBrings(prim, me, next, peer, es[1..]);
      AdmitAllExactly(prim, me, next, peer, es[1..]);
      hide AdmitAll;
      MoreBrings(prim, me, peer, es[1..], es, next, t');
      BringsOn(prim, me, peer, es, t, next, t');
    }
  }

  lemma NothingBrought(prim: Primitives, me: Identity, peer: PublicIdentity, es: seq<EventEnvelope>, t: Tables)
    ensures ManifestsFrom(prim, me, peer, es, t, t)
  {
  }

  /** A sync request is served exactly if its sender is paired, it names the conversation of the two devices, and every
      event by the sender opens. The answer lists, by time and id, the events this device has written there whose ids
      were not named; the log has gained exactly the sender's events, and the manifests they carry. */
  lemma SyncIsServedExactlyWhen(
    prim: Primitives, me: Identity, t: Tables, sender: PublicIdentity, stream: string, known: set<string>,
    events: seq<EventEnvelope>, now: int, nonces: nat -> Bytes)
    requires Sound(prim, t)
    ensures
      var o := Handle(prim, me, t, sender, SyncExchange(stream, known, events), now, nonces);
      var admitted := PairedAs(t.peers, sender) && stream == DirectStreamId(me.public.deviceId, sender.deviceId);
      && o.notices == [] && o.t.peers == t.peers && o.t.blobs == t.blobs && (!admitted ==> o.t == t)
      && (o.body.SyncResult? || o.body.Error?)
      && (o.body.SyncResult? <==>
            admitted && forall e :: e in events && e.author == sender.deviceId ==> OpenItem(prim, me, sender, e).Ok?)
      && (forall id :: id in t.events ==> id in o.t.events && o.t.events[id] == t.events[id])
      && (forall id :: id in o.t.events && id !in t.events ==>
            o.t.events[id] in events && o.t.events[id].id == id && o.t.events[id].author == sender.deviceId)
      && ManifestsFrom(prim, me, sender, events, t, o.t)
      && (o.body.SyncResult? ==>
            && (forall e :: e in events && e.author == sender.deviceId ==> e.id in o.t.events)
            && Answers(me.public.deviceId, o.t.events, stream, known, o.body.events))
  {
    AdmitAllExactly(prim, me, t, sender, events);
    AdmitAllBrings(prim, me, t, sender, events);
    NothingBrought(prim, me, sender, events, t);
    hide ManifestsFrom;
    AdmitAllSound(prim, me, t, sender, events);
    var t' := AdmitAll(prim, me, t, sender, events).0;
    SoundIsKeyed(prim, t');
    hide Sound, OpenItem, AdmitAll, By, Unknown;
    AnswersOwn(me.public.deviceId, t', stream, known);
  }

  /** `es` are the events of the stream by `author` that are not known, by time and, at equal times, by id. */
  ghost predicate Answers(author: DeviceId, log: Log, stream: string, known: set<string>, es: seq<EventEnvelope>) {
    && (forall e :: e in es <==>
          e.id in log && log[e.id] == e && e.stream == stream && e.author == author && e.id !in known)
    && forall i, j :: 0 <= i < j < |es| ==>
          es[i].time < es[j].time || (es[i].time == es[j].time && Less(es[i].id, es[j].id))
  }

  lemma OwnMembers(me: DeviceId, t: Tables, stream: string)
    requires KeyedById(t.events)
    ensures forall e :: e in OwnEvents(me, t, stream) <==>
      e.id in t.events && t.events[e.id] == e && e.stream == stream && e.author == me
  {
    var all := Events(t.events, stream);
    assert forall e :: e in all <==> e in Elements(all);
    ByMembers(me, all);
  }

  lemma AnswersOwn(me: DeviceId, t: Tables, stream: string, known: set<string>)
    requires KeyedById(t.events)
    ensures Answers(me, t.events, stream, known, Unknown(known, OwnEvents(me, t, stream)))
  {
    var all := Events(t.events, stream);
    OwnMembers(me, t, stream);
    BySorted(me, all);
    UnknownMembers(known, By(me, all));
    UnknownSorted(known, By(me, all));
  }

  // ---------- File chunks ----------

  function Asked(hashes: seq<string>): nat {
    if |hashes| < 16 then |hashes| else 16
  }

  /** The chunk is in the file's list and its content is stored. */
  ghost predicate Servable(t: Tables, m: FileManifest, hash: string) {
    (exists c :: c in m.chunks && c.hash == hash) && hash in t.blobs
  }

  /** Chunks are served exactly if the sender is paired, the manifest is known, and each of the first sixteen hashes is
      one of its chunks and stored; the answer has them in the order asked for, encrypted for the sender. Nothing
      changes. */
  lemma ChunksAreServedExactlyWhen(
    prim: Primitives, me: Identity, t: Tables, sender: PublicIdentity, id: string, hashes: seq<string>, now: int,
    nonces: nat -> Bytes)
    requires Sound(prim, t)
    ensures
      var o := Handle(prim, me, t, sender, ChunkRequest(id, hashes), now, nonces);
      var stream := DirectStreamId(me.public.deviceId, sender.deviceId);
      && o.t == t && o.notices == [] && (o.body.ChunkResult? || o.body.Error?)
      && (o.body.ChunkResult? <==>
            && PairedAs(t.peers, sender) && id in t.manifests
            && forall k :: 0 <= k < Asked(hashes) ==> Servable(t, t.manifests[id].manifest, hashes[k]))
      && (o.body.ChunkResult? ==>
            && o.body.manifestId == id && |o.body.chunks| == Asked(hashes)
            && forall k :: 0 <= k < Asked(hashes) ==>
                 ServedAs(prim, me, t, sender, stream, id, hashes[k], nonces(k), o.body.chunks[k]))
  {
    if PairedAs(t.peers, sender) && id in t.manifests {
      var m := t.manifests[id].manifest;
      assert m.id == id;
      hide Sound;
      ChunksForExactly(prim, me, t, sender, m, hashes[..Asked(hashes)], nonces, 0);
      assert hashes[..|hashes|] == hashes;
    }
    hide Sound;
  }

  ghost predicate ServedAs(
    prim: Primitives, me: Identity, t: Tables, sender: PublicIdentity, stream: string, id: string, hash: string,
    nonce: Bytes, c: WireChunk)
  {
    && c.hash == hash && c.nonce == nonce && hash in t.blobs
    && c.bytes == EncryptChunk(prim, me, sender, stream, id, hash, t.blobs[hash], nonce)
  }

  /** What an honest sender of the request decrypts is the stored content. */
  lemma ServedOpens(
    prim: Primitives, me: Identity, client: Identity, t: Tables, stream: string, id: string, hash: string, nonce: Bytes,
    c: WireChunk)
    requires Ideal(prim) && WellKeyed(prim, me) && WellKeyed(prim, client)
    requires ServedAs(prim, me, t, client.public, stream, id, hash, nonce, c)
    ensures DecryptChunk(prim, client, me.public, stream, id, c.hash, c.nonce, c.bytes) == Ok(t.blobs[hash])
  {
    ChunkRoundTrip(prim, me, client, stream, id, hash, t.blobs[hash], nonce);
  }

  lemma {:induction false} ChunksForExactly(
    prim: Primitives, me: Identity, t: Tables, peer: PublicIdentity, m: FileManifest, hashes: seq<string>,
    nonces: nat -> Bytes, n: nat)
    ensures
      var r := ChunksFor(prim, me, t, peer, m, hashes, nonces, n);
      var stream := DirectStreamId(me.public.deviceId, peer.deviceId);
      && (r.Ok? <==> forall k :: 0 <= k < |hashes| ==> Servable(t, m, hashes[k]))
      && (r.Ok? ==> |r.value| == |hashes| && forall k :: 0 <= k < |hashes| ==>
            ServedAs(prim, me, t, peer, stream, m.id, hashes[k], nonces(n + k), r.value[k]))
    decreases hashes
  {
    hide EncryptChunk;
    if hashes != [] {
      assert (hashes[0] in HashesOf(m.chunks)) <==> exists c :: c in m.chunks && c.hash == hashes[0];
      ChunksForExactly(prim, me, t, peer, m, hashes[1..], nonces, n + 1);
      var r := ChunksFor(prim, me, t, peer, m, hashes, nonces, n);
      if forall k :: 0 <= k < |hashes| ==> Servable(t, m, hashes[k]) {
        assert forall k :: 0 <= k < |hashes[1..]| ==> Servable(t, m, hashes[1..][k]);
      }
      if r.Ok? {
        forall k | 0 <= k < |hashes|
          ensures Servable(t, m, hashes[k])
          ensures k < |r.value|
          ensures ServedAs(prim, me, t, peer, DirectStreamId(me.public.deviceId, peer.deviceId), m.id, hashes[k],
            nonces(n + k), r.value[k])
        {
          if k > 0 {
            assert hashes[1..][k - 1] == hashes[k];
          }
        }
      }
    }
  }

  /** The chunk is one of those allowed, opens, and its content has its hash. */
  ghost predicate Acceptable(
    prim: Primitives, me: Identity, sender: PublicIdentity, id: string, allowed: Option<set<string>>, c: WireChunk)
  {
    var stream := DirectStreamId(me.public.deviceId, sender.deviceId);
    var clear := DecryptChunk(prim, me, sender, stream, id, c.hash, c.nonce, c.bytes);
    (allowed.Some? ==> c.hash in allowed.value) && clear.Ok? && prim.hash(clear.value) == c.hash
  }

  /** Contents for `hashes` have been added, the rows with these hashes are present, nothing else has changed. */
  ghost predicate Arrived(t: Tables, t': Tables, hashes: set<string>) {
    && t' == t.(blobs := t'.blobs, chunks := t'.chunks)
    && t'.blobs.Keys == t.blobs.Keys + hashes && t'.chunks.Keys == t.chunks.Keys
    && (forall h :: h in t.blobs ==> t'.blobs[h] == t.blobs[h])
    && forall id :: id in t.chunks ==> t'.chunks[id] == MarkAll(t.chunks[id], hashes)
  }

  /** Received chunks are stored up to the first one that is not acceptable. */
  lemma {:induction false} StoreChunksExactly(
    prim: Primitives, me: Identity, t: Tables, peer: PublicIdentity, id: string, allowed: Option<set<string>>,
    chunks: seq<WireChunk>) returns (n: nat)
    ensures n <= |chunks|
    ensures forall k :: 0 <= k < n ==> Acceptable(prim, me, peer, id, allowed, chunks[k])
    ensures n < |chunks| ==> !Acceptable(prim, me, peer, id, allowed, chunks[n])
    ensures StoreChunks(prim, me, t, peer, id, allowed, chunks).1 <==> n == |chunks|
    ensures Arrived(t, StoreChunks(prim, me, t, peer, id, allowed, chunks).0, WireHashes(chunks[..n]))
    decreases chunks
  {
    hide DecryptChunk, Arrived, WireHashes, PutBlob;
    if chunks == [] || !Acceptable(prim, me, peer, id, allowed, chunks[0]) {
      n := 0;
      NothingArrived(t, chunks[..0]);
    } else {
      var c, stream := chunks[0], DirectStreamId(me.public.deviceId, peer.deviceId);
      var next := PutBlob(prim, t, c.hash, DecryptChunk(prim, me, peer, stream, id, c.hash, c.nonce, c.bytes).value);
      n := StoreChunksExactly(prim, me, next, peer, id, allowed, chunks[1..]);
      OneArrived(prim, t, c.hash, DecryptChunk(prim, me, peer, stream, id, c.hash, c.nonce, c.bytes).value);
      ArrivedTwice(
        t, next, StoreChunks(prim, me, t, peer, id, allowed, chunks).0, {c.hash}, WireHashes(chunks[1..][..n]));
      n := n + 1;
      assert chunks[..n][1..] == chunks[1..][..n - 1];
      HeadHash(chunks[..n], chunks[1..][..n - 1]);
    }
  }

  lemma NothingArrived(t: Tables, chunks: seq<WireChunk>)
    requires chunks == []
    ensures Arrived(t, t, WireHashes(chunks))
  {
  }

  lemma OneArrived(prim: Primitives, t: Tables, hash: string, bytes: Bytes)
    requires prim.hash(bytes) == hash
    ensures Arrived(t, PutBlob(prim, t, hash, bytes), {hash})
  {
    forall id | id in t.chunks
      ensures Mark(t.chunks[id], hash) == MarkAll(t.chunks[id], {hash})
    {
      MarkedAll(t.chunks[id], hash);
    }
    hide Mark, MarkAll;
  }

  lemma MarkedAll(rows: seq<ChunkRow>, hash: string)
    ensures Mark(rows, hash) == MarkAll(rows, {hash})
  {
  }

  lemma ArrivedTwice(t: Tables, t': Tables, t'': Tables, a: set<string>, b: set<string>)
    requires Arrived(t, t', a) && Arrived(t', t'', b)
    ensures Arrived(t, t'', a + b)
  {
  }

  /** How many rows of the manifest are not present. */
  ghost function Absent(t: Tables, id: string): nat {
    |set k: nat | k < |RowsOf(t, id)| && !RowsOf(t, id)[k].present|
  }

  /** Pushed chunks are acknowledged exactly if the sender is paired, the manifest is known and each of them is
      acceptable; they are stored up to the first that is not. After all of them the flag of the manifest is set to
      whether every row is present, and progress and completion are reported. */
  lemma ChunksAreTakenExactlyWhen(
    prim: Primitives, me: Identity, t: Tables, sender: PublicIdentity, id: string, chunks: seq<WireChunk>, now: int,
    nonces: nat -> Bytes) returns (n: nat)
    requires Sound(prim, t)
    ensures
      var o := Handle(prim, me, t, sender, PushChunks(id, chunks), now, nonces);
      var admitted := PairedAs(t.peers, sender) && id in t.manifests;
      && (!admitted ==> o.body.Error? && o.t == t && o.notices == [])
      && (admitted ==>
            var m := t.manifests[id].manifest;
            var allowed := Some(HashesOf(m.chunks));
            && n <= |chunks| && (forall k :: 0 <= k < n ==> Acceptable(prim, me, sender, id, allowed, chunks[k]))
            && (n < |chunks| ==> !Acceptable(prim, me, sender, id, allowed, chunks[n]))
            && Arrived(t, o.t.(manifests := t.manifests), WireHashes(chunks[..n]))
            && (n < |chunks| ==> o.body.Error? && o.t.manifests == t.manifests && o.notices == [])
            && (n == |chunks| ==>
                  && o.body == Ack(id)
                  && o.t.manifests == t.manifests[id := t.manifests[id].(complete := Absent(o.t, id) == 0)]
                  && o.notices == [FileProgress(id, |m.chunks| - Absent(o.t, id), |m.chunks|)]
                       + if Absent(o.t, id) == 0 then [FileComplete(id, m.name)] else []))
  {
    hide StoreChunks, Acceptable, WireHashes, HashesOf, Arrived, Sound, Missing;
    n := 0;
    if PairedAs(t.peers, sender) && id in t.manifests {
      var m := t.manifests[id].manifest;
      n := StoreChunksExactly(prim, me, t, sender, id, Some(HashesOf(m.chunks)), chunks);
      var t' := StoreChunks(prim, me, t, sender, id, Some(HashesOf(m.chunks)), chunks).0;
      ArrivedManifests(t, t', WireHashes(chunks[..n]));
      MissingInOrder(RowsOf(t', id));
      assert RowsOf(Refresh(t', id), id) == RowsOf(t', id);
      assert |MissingChunks(t', id)| == Absent(t', id) == Absent(Refresh(t', id), id);
    }
  }

  lemma ArrivedManifests(t: Tables, t': Tables, hashes: set<string>)
    requires Arrived(t, t', hashes)
    ensures t'.manifests == t.manifests
    ensures forall complete: bool, id :: id in t'.manifests ==>
      SetComplete(t', id, complete).(manifests := t.manifests) == t'
  {
  }
}
