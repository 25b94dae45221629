/** Data types of `model.rs` and `identity.rs`, and the identifier of a direct conversation. */
module Model {
  import opened Wrappers
  import opened Text

  type Byte = b: int | 0 <= b < 256
  type Bytes = seq<Byte>
  type DeviceId = string

  /** Largest piece of a file that `ingest_file` reads at once. */
  const FILE_CHUNK_SIZE: nat := 262144

  datatype PublicIdentity = PublicIdentity(
    deviceId: DeviceId, displayName: string, signKey: Bytes, exchangeKey: Bytes)

  datatype Identity = Identity(public: PublicIdentity, signSecret: Bytes, exchangeSecret: Bytes)

  datatype Endpoint = Endpoint(host: string, port: nat)

  datatype Peer = Peer(
    identity: PublicIdentity, endpoint: Option<Endpoint>, paired: bool, lastSeen: int)

  datatype EventKind = TextKind | ManifestKind | SystemKind

  /** The number that stands for a kind on the wire and in the database. */
  function KindCode(k: EventKind): int {
    match k
    case TextKind => 1
    case ManifestKind => 2
    case SystemKind => 3
  }

  datatype EventEnvelope = EventEnvelope(
    id: string, stream: string, author: DeviceId, time: int, kind: EventKind,
    nonce: Bytes, ciphertext: Bytes, signature: Bytes)

  datatype ChunkDescriptor = ChunkDescriptor(index: nat, hash: string, size: nat)

  datatype FileManifest = FileManifest(
    id: string, name: string, mediaType: string, size: nat, chunkSize: nat,
    chunks: seq<ChunkDescriptor>, fileHash: string)

  datatype Payload = TextPayload(text: string) | ManifestPayload(manifest: FileManifest) | SystemPayload(note: string)

  datatype ChatItem = ChatItem(eventId: string, author: DeviceId, time: int, payload: Payload)

  /** The conversation between two devices is named by both device ids, the smaller one first. */
  function DirectStreamId(a: DeviceId, b: DeviceId): string {
    if Less(b, a) then "dm:" + b + ":" + a else "dm:" + a + ":" + b
  }

  /** "dm:", the device id that comes first, a colon and the other one. */
  lemma StreamIdForm(a: DeviceId, b: DeviceId, k: nat)
    requires SmallerAt(a, b, k)
    ensures DirectStreamId(a, b) == "dm:" + a + ":" + b && DirectStreamId(b, a) == "dm:" + a + ":" + b
  {
    LessExactly(a, b);
    LessAsymmetric(a, b);
  }

  lemma StreamIdSymmetric(a: DeviceId, b: DeviceId)
    ensures DirectStreamId(a, b) == DirectStreamId(b, a)
  {
    LessTotal(a, b);
    if Less(a, b) {
      LessAsymmetric(a, b);
    }
  }

  /** Device ids are hexadecimal text, so they hold no colon, and then a stream id names
      exactly one unordered pair of devices. */
  lemma StreamIdInjective(a: DeviceId, b: DeviceId, c: DeviceId, d: DeviceId)
    requires Free(':', a) && Free(':', b) && Free(':', c) && Free(':', d)
    ensures DirectStreamId(a, b) == DirectStreamId(c, d) <==> (a == c && b == d) || (a == d && b == c)
  {
    StreamIdSymmetric(a, b);
    var (p, q) := if Less(b, a) then (b, a) else (a, b);
    var (r, s) := if Less(d, c) then (d, c) else (c, d);
    var left, right := p + ":" + q, r + ":" + s;
    assert DirectStreamId(a, b) == "dm:" + left;
    assert DirectStreamId(c, d) == "dm:" + right;
    if DirectStreamId(a, b) == DirectStreamId(c, d) {
      assert ("dm:" + left)[3..] == left && ("dm:" + right)[3..] == right;
      assert p + [':'] + q == r + [':'] + s;
      SplitAt(':', p, q, r, s);
    }
  }

  /** Without that restriction on device ids two different pairs can share a stream id. */
  lemma StreamIdsCollideOnColons()
    ensures DirectStreamId("a", "b:c") == DirectStreamId("a:b", "c")
  {
    assert !Less("b:c", "a") && !Less("c", "a:b");
  }
}
