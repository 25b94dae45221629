/** The message alphabet (`protocol.rs`) and, as functions on tables, what a device does with each
    message (`handle_message` in `node.rs`). A handler that fails part-way keeps what it has
    already stored, so every function returns the tables it leaves behind. */
module Protocol {
  import opened Wrappers
  import opened Model
  import opened Crypto
  import opened ChunkRows
  import opened EventLog
  import opened Tables

  const BATCH: nat := 16

  datatype WireChunk = WireChunk(hash: string, nonce: Bytes, bytes: Bytes)

  datatype Message =
    | Hello
    | PairRequest(pairingNonce: string)
    | PairResponse(accepted: bool)
    | PushEvent(event: EventEnvelope)
    | Ack(eventId: string)
    | SyncExchange(stream: string, known: set<string>, events: seq<EventEnvelope>)
    | SyncResult(events: seq<EventEnvelope>)
    | ChunkRequest(manifestId: string, hashes: seq<string>)
    | ChunkResult(manifestId: string, chunks: seq<WireChunk>)
    | PushChunks(manifestId: string, chunks: seq<WireChunk>)
    | Error(message: string)

  /** The events that travel in a message. */
  function EventsIn(body: Message): seq<EventEnvelope> {
    match body
    case PushEvent(e) => [e]
    case SyncExchange(_, _, es) => es
    case SyncResult(es) => es
    case _ => []
  }

  /** What a device tells its user interface. */
  datatype Notice =
    | Paired(peer: Peer)
    | NewMessage(item: ChatItem)
    | FileProgress(manifestId: string, received: int, total: nat)
    | FileComplete(manifestId: string, name: string)
    | SyncComplete(peerId: DeviceId, receivedEvents: nat)

  /** Tables left behind, answer given and notices sent by a handler. */
  datatype Outcome = Outcome(t: Tables, body: Message, notices: seq<Notice>)

  // ---------- Receiving events ----------

  /** The manifest that has to be saved along with an event. */
  function ManifestIn(e: EventEnvelope, payload: Payload): Option<FileManifest> {
    if e.kind == ManifestKind && payload.ManifestPayload? then Some(payload.manifest) else None
  }

  /** Insert an event that opened as `payload`; if it is new, save the manifest it carries. */
  function Admit(t: Tables, peer: DeviceId, e: EventEnvelope, payload: Payload): (r: Tables)
    ensures r.events == Insert(t.events, e) && r.peers == t.peers && r.blobs == t.blobs
  {
    var t1 := t.(events := Insert(t.events, e));
    if e.id in t.events then t
    else
      match ManifestIn(e, payload)
      case None => t1
      case Some(m) => SaveManifest(t1, peer, m)
  }

  /** The loop over received events: events by anyone but the peer are skipped, an event that
      does not open ends the loop with an error. */
  function AdmitAll(
    prim: Primitives, me: Identity, t: Tables, peer: PublicIdentity, es: seq<EventEnvelope>): (Tables, bool)
    decreases es
  {
    if es == [] then (t, true)
    else if es[0].author != peer.deviceId then AdmitAll(prim, me, t, peer, es[1..])
    else
      match OpenItem(prim, me, peer, es[0])
      case Err(_) => (t, false)
      case Ok(item) => AdmitAll(prim, me, Admit(t, peer.deviceId, es[0], item.payload), peer, es[1..])
  }

  ghost function OwnEvents(me: DeviceId, t: Tables, stream: string): seq<EventEnvelope>
    requires KeyedById(t.events)
  {
    By(me, Events(t.events, stream))
  }

  function StreamIds(t: Tables, stream: string): set<string> {
    set id | id in t.events && t.events[id].stream == stream
  }

  // ---------- File chunks ----------

  function HashesOf(chunks: seq<ChunkDescriptor>): set<string> {
    set c | c in chunks :: c.hash
  }

  /** Encrypts the requested chunks; a hash outside the manifest or a missing blob is an error. */
  function ChunksFor(
    prim: Primitives, me: Identity, t: Tables, peer: PublicIdentity, m: FileManifest,
    hashes: seq<string>, nonces: nat -> Bytes, k: nat): Result<seq<WireChunk>>
    decreases hashes
  {
    if hashes == [] then Ok([])
    else if hashes[0] !in HashesOf(m.chunks) then Err("chunk is not part of manifest")
    else if hashes[0] !in t.blobs then Err("no such blob")
    else
      var stream := DirectStreamId(me.public.deviceId, peer.deviceId);
      var bytes := EncryptChunk(prim, me, peer, stream, m.id, hashes[0], t.blobs[hashes[0]], nonces(k));
      match ChunksFor(prim, me, t, peer, m, hashes[1..], nonces, k + 1)
      case Err(e) => Err(e)
      case Ok(rest) => Ok([WireChunk(hashes[0], nonces(k), bytes)] + rest)
  }

  /** Decrypts and stores received chunks, up to the first that is refused. A chunk whose hash
      is not in `allowed` is refused; `None` allows all. */
  function StoreChunks(
    prim: Primitives, me: Identity, t: Tables, peer: PublicIdentity, manifestId: string,
    allowed: Option<set<string>>, chunks: seq<WireChunk>): (Tables, bool)
    decreases chunks
  {
    if chunks == [] then (t, true)
    else
      var c := chunks[0];
      var stream := DirectStreamId(me.public.deviceId, peer.deviceId);
      if allowed.Some? && c.hash !in allowed.value then (t, false)
      else
        match DecryptChunk(prim, me, peer, stream, manifestId, c.hash, c.nonce, c.bytes)
        case Err(_) => (t, false)
        case Ok(clear) =>
          if prim.hash(clear) != c.hash then (t, false)
          else StoreChunks(prim, me, PutBlob(prim, t, c.hash, clear), peer, manifestId, allowed, chunks[1..])
  }

  function Progress(t: Tables, m: FileManifest, id: string): Notice {
    FileProgress(id, |m.chunks| - |MissingChunks(t, id)|, |m.chunks|)
  }

  // ---------- The handlers ----------

  /** `require_sender_paired`. */
  predicate Trusts(t: Tables, sender: PublicIdentity) {
    IsPaired(t, sender.deviceId) && t.peers[sender.deviceId].identity == sender
  }

  function Distrust(t: Tables, sender: PublicIdentity): string {
    if sender.deviceId !in t.peers then "unknown sender"
    else if !t.peers[sender.deviceId].paired then "sender is not paired"
    else "paired identity changed"
  }

  ghost function HandlePair(t: Tables, sender: PublicIdentity, now: int): Outcome {
    var known := LookupPeer(t.peers, sender.deviceId);
    var endpoint := if known.Some? then known.value.endpoint else None;
    var t' := t.(peers := UpsertPeer(t.peers, Peer(sender, endpoint, true, now)));
    Outcome(t', PairResponse(true), [Paired(LookupPeer(t'.peers, sender.deviceId).value)])
  }

  ghost function HandlePush(
    prim: Primitives, me: Identity, t: Tables, sender: PublicIdentity, e: EventEnvelope): Outcome {
    if !Trusts(t, sender) then Outcome(t, Error(Distrust(t, sender)), [])
    else if e.author != sender.deviceId then Outcome(t, Error("forwarded events are not accepted"), [])
    else
      match OpenItem(prim, me, sender, e)
      case Err(m) => Outcome(t, Error(m), [])
      case Ok(item) =>
        Outcome(Admit(t, sender.deviceId, e, item.payload), Ack(e.id),
          if e.id in t.events then [] else [NewMessage(item)])
  }

  ghost function HandleSync(
    prim: Primitives, me: Identity, t: Tables, sender: PublicIdentity,
    stream: string, known: set<string>, events: seq<EventEnvelope>): Outcome
    requires Sound(prim, t)
  {
    if !Trusts(t, sender) then Outcome(t, Error(Distrust(t, sender)), [])
    else if stream != DirectStreamId(me.public.deviceId, sender.deviceId) then
      Outcome(t, Error("invalid stream id"), [])
    else
      var (t', ok) := AdmitAll(prim, me, t, sender, events);
      AdmitAllSound(prim, me, t, sender, events);
      if !ok then Outcome(t', Error("event refused"), [])
      else Outcome(t', SyncResult(Unknown(known, OwnEvents(me.public.deviceId, t', stream))), [])
  }

  ghost function HandleChunkRequest(
    prim: Primitives, me: Identity, t: Tables, sender: PublicIdentity,
    id: string, hashes: seq<string>, nonces: nat -> Bytes): Outcome
  {
    if !Trusts(t, sender) then Outcome(t, Error(Distrust(t, sender)), [])
    else if id !in t.manifests then Outcome(t, Error("unknown manifest"), [])
    else
      var asked := if |hashes| <= BATCH then hashes else hashes[..BATCH];
      match ChunksFor(prim, me, t, sender, t.manifests[id].manifest, asked, nonces, 0)
      case Err(e) => Outcome(t, Error(e), [])
      case Ok(chunks) => Outcome(t, ChunkResult(id, chunks), [])
  }

  ghost function HandlePushChunks(
    prim: Primitives, me: Identity, t: Tables, sender: PublicIdentity, id: string, chunks: seq<WireChunk>): Outcome
  {
    if !Trusts(t, sender) then Outcome(t, Error(Distrust(t, sender)), [])
    else if id !in t.manifests then Outcome(t, Error("unknown manifest"), [])
    else
      var m := t.manifests[id].manifest;
      var (t', ok) := StoreChunks(prim, me, t, sender, id, Some(HashesOf(m.chunks)), chunks);
      if !ok then Outcome(t', Error("chunk refused"), [])
      else
        var complete := if MissingChunks(t', id) == [] then [FileComplete(id, m.name)] else [];
        Outcome(Refresh(t', id), Ack(id), [Progress(t', m, id)] + complete)
  }

  ghost function Handle(
    prim: Primitives, me: Identity, t: Tables, sender: PublicIdentity, body: Message,
    now: int, nonces: nat -> Bytes): Outcome
    requires Sound(prim, t)
  {
    match body
    case Hello => Outcome(t, Hello, [])
    case PairRequest(_) => HandlePair(t, sender, now)
    case PushEvent(e) => HandlePush(prim, me, t, sender, e)
    case SyncExchange(stream, known, events) => HandleSync(prim, me, t, sender, stream, known, events)
    case ChunkRequest(id, hashes) => HandleChunkRequest(prim, me, t, sender, id, hashes, nonces)
    case PushChunks(id, chunks) => HandlePushChunks(prim, me, t, sender, id, chunks)
    case _ => Outcome(t, Error("response message used as a request"), [])
  }

  // ---------- What handlers keep ----------

  lemma AdmitSound(prim: Primitives, t: Tables, peer: DeviceId, e: EventEnvelope, payload: Payload)
    requires Sound(prim, t)
    ensures Sound(prim, Admit(t, peer, e, payload))
  {
    InsertEventSound(prim, t, e);
    if ManifestIn(e, payload).Some? {
      SaveManifestSound(prim, t.(events := Insert(t.events, e)), peer, payload.manifest);
    }
  }

  lemma {:induction false} AdmitAllSound(
    prim: Primitives, me: Identity, t: Tables, peer: PublicIdentity, es: seq<EventEnvelope>)
    requires Sound(prim, t)
    ensures Sound(prim, AdmitAll(prim, me, t, peer, es).0)
    decreases es
  {
    if es != [] {
      match OpenItem(prim, me, peer, es[0]) {
        case Err(_) =>
        case Ok(item) =>
          AdmitSound(prim, t, peer.deviceId, es[0], item.payload);
          AdmitAllSound(prim, me, Admit(t, peer.deviceId, es[0], item.payload), peer, es[1..]);
      }
      AdmitAllSound(prim, me, t, peer, es[1..]);
    }
  }

  lemma {:induction false} StoreChunksKeeps(
    prim: Primitives, me: Identity, t: Tables, peer: PublicIdentity, id: string, allowed: Option<set<string>>,
    chunks: seq<WireChunk>)
    requires Sound(prim, t)
    ensures var t' := StoreChunks(prim, me, t, peer, id, allowed, chunks).0;
            Sound(prim, t') && Fills(t, t') && t'.manifests == t.manifests
    decreases chunks
  {
    FillsReflexive(t);
    if chunks != [] {
      var c := chunks[0];
      var stream := DirectStreamId(me.public.deviceId, peer.deviceId);
      var clear := DecryptChunk(prim, me, peer, stream, id, c.hash, c.nonce, c.bytes);
      if clear.Ok? && prim.hash(clear.value) == c.hash {
        var next := PutBlob(prim, t, c.hash, clear.value);
        PutBlobSound(prim, t, c.hash, clear.value);
        PutBlobFills(prim, t, c.hash, clear.value);
        StoreChunksKeeps(prim, me, next, peer, id, allowed, chunks[1..]);
        FillsTransitive(t, next, StoreChunks(prim, me, next, peer, id, allowed, chunks[1..]).0);
      }
    }
  }
}
