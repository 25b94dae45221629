/** Event and chunk encryption (`crypto.rs`) over idealised primitives.
    The primitives are a record of functions; the laws a run relies on are stated as
    predicates over that record and appear as hypotheses of the lemmas that need them. */
module Crypto {
  import opened Wrappers
  import opened Text
  import opened Model

  datatype Primitives = Primitives(
    validIdentity: PublicIdentity -> bool,                    // `validate_public_identity`
    hash: Bytes -> string,                                    // BLAKE3, in hexadecimal
    publicSign: Bytes -> Bytes,                               // Ed25519 public key of a secret
    sign: (Bytes, Bytes) -> Bytes,
    verify: (Bytes, Bytes, Bytes) -> bool,
    publicExchange: Bytes -> Bytes,                           // X25519 public key of a secret
    shared: (Bytes, Bytes) -> Bytes,                          // Diffie-Hellman
    derive: (Bytes, string) -> Bytes,                         // HKDF with the stream id as info
    seal: (Bytes, Bytes, string, Bytes) -> Bytes,             // key, nonce, associated data, message
    open: (Bytes, Bytes, string, Bytes) -> Option<Bytes>,
    signable: EventEnvelope -> Bytes,                         // serialised envelope without signature
    encode: Payload -> Bytes,
    decode: Bytes -> Option<Payload>)

  /** Laws of honest use: what one side makes, the other side can read. */
  ghost predicate Ideal(prim: Primitives) {
    && (forall s: Bytes, m: Bytes :: prim.verify(prim.publicSign(s), m, prim.sign(s, m)))
    && (forall s: Bytes, t: Bytes :: prim.shared(s, prim.publicExchange(t)) == prim.shared(t, prim.publicExchange(s)))
    && (forall k: Bytes, n: Bytes, a: string, m: Bytes :: prim.open(k, n, a, prim.seal(k, n, a, m)) == Some(m))
    && (forall p: Payload :: prim.decode(prim.encode(p)) == Some(p))
  }

  /** A ciphertext opens under no other associated data than the one it was sealed with. */
  ghost predicate Binding(prim: Primitives) {
    forall k: Bytes, n: Bytes, a: string, b: string, m: Bytes ::
      prim.open(k, n, b, prim.seal(k, n, a, m)).Some? ==> a == b
  }

  ghost predicate HashInjective(prim: Primitives) {
    forall x: Bytes, y: Bytes :: prim.hash(x) == prim.hash(y) ==> x == y
  }

  ghost predicate WellKeyed(prim: Primitives, me: Identity) {
    && me.public.signKey == prim.publicSign(me.signSecret)
    && me.public.exchangeKey == prim.publicExchange(me.exchangeSecret)
  }

  /** Two honest devices that are not the same. */
  ghost predicate Converse(prim: Primitives, a: Identity, b: Identity) {
    Ideal(prim) && WellKeyed(prim, a) && WellKeyed(prim, b) && a.public.deviceId != b.public.deviceId
  }

  function ConversationKey(prim: Primitives, me: Identity, peer: PublicIdentity, stream: string): Bytes {
    prim.derive(prim.shared(me.exchangeSecret, peer.exchangeKey), stream)
  }

  lemma ConversationKeyShared(prim: Primitives, a: Identity, b: Identity, stream: string)
    requires Ideal(prim) && WellKeyed(prim, a) && WellKeyed(prim, b)
    ensures ConversationKey(prim, a, b.public, stream) == ConversationKey(prim, b, a.public, stream)
  {
  }

  /** The key depends on both devices and on the stream: if derivation keeps its inputs apart, two keys of a device are
      equal only for equal secrets shared with the peer and equal streams. */
  lemma OwnKeyPerConversation(
    prim: Primitives, me: Identity, p: PublicIdentity, q: PublicIdentity, stream: string, stream': string)
    requires forall x: Bytes, y: Bytes, s: string, s': string ::
      prim.derive(x, s) == prim.derive(y, s') ==> x == y && s == s'
    ensures ConversationKey(prim, me, p, stream) == ConversationKey(prim, me, q, stream')
       <==> prim.shared(me.exchangeSecret, p.exchangeKey) == prim.shared(me.exchangeSecret, q.exchangeKey)
            && stream == stream'
  {
  }

  /** A field followed by a slash and the rest. */
  function Field(a: string, rest: string): string {
    a + ['/'] + rest
  }

  /** Associated data of an event. */
  function Aad(id: string, stream: string, author: DeviceId, time: int, kind: EventKind): string {
    "nexus/v1/" + Field(id, Field(stream, Field(author, Field(Decimal(time), Decimal(KindCode(kind))))))
  }

  /** Associated data of a file chunk. */
  function ChunkAad(manifestId: string, hash: string): string {
    "nexus/v1/" + Field("chunk", Field(manifestId, hash))
  }

  /** The two formats on an example. */
  lemma AadExample()
    ensures Aad("01H", "dm:a:b", "a", -50, ManifestKind) == "nexus/v1/01H/dm:a:b/a/-50/2"
    ensures Aad("01H", "dm:a:b", "b", 70, TextKind) == "nexus/v1/01H/dm:a:b/b/70/1"
    ensures Aad("", "", "", 0, SystemKind) == "nexus/v1////0/3"
    ensures ChunkAad("01H", "ff") == "nexus/v1/chunk/01H/ff"
  {
    assert Decimal(-50) == "-50" && Decimal(70) == "70";
  }

  /** Manifest and hash can be read back from the associated data of a chunk. */
  lemma ChunkAadInjective(manifestId: string, hash: string, manifestId': string, hash': string)
    requires Free('/', manifestId) && Free('/', manifestId')
    ensures ChunkAad(manifestId, hash) == ChunkAad(manifestId', hash') <==> manifestId == manifestId' && hash == hash'
  {
    if ChunkAad(manifestId, hash) == ChunkAad(manifestId', hash') {
      PrefixInjective(Field("chunk", Field(manifestId, hash)), Field("chunk", Field(manifestId', hash')));
      FieldsInjective("chunk", Field(manifestId, hash), "chunk", Field(manifestId', hash'));
      FieldsInjective(manifestId, hash, manifestId', hash');
    }
  }

  lemma FieldsInjective(a: string, x: string, b: string, y: string)
    requires Free('/', a) && Free('/', b) && Field(a, x) == Field(b, y)
    ensures a == b && x == y
  {
    SplitAt('/', a, x, b, y);
  }

  lemma PrefixInjective(x: string, y: string)
    requires "nexus/v1/" + x == "nexus/v1/" + y
    ensures x == y
  {
    assert ("nexus/v1/" + x)[9..] == x && ("nexus/v1/" + y)[9..] == y;
  }

  /** Fields without slashes can be read back from the associated data, negative times included. */
  lemma EventAadInjective(
    id: string, stream: string, author: DeviceId, time: int, kind: EventKind,
    id': string, stream': string, author': DeviceId, time': int, kind': EventKind)
    requires Free('/', id) && Free('/', stream) && Free('/', author)
    requires Free('/', id') && Free('/', stream') && Free('/', author')
    ensures Aad(id, stream, author, time, kind) == Aad(id', stream', author', time', kind')
       <==> id == id' && stream == stream' && author == author' && time == time' && kind == kind'
  {
    if Aad(id, stream, author, time, kind) == Aad(id', stream', author', time', kind') {
      var k, k' := Decimal(KindCode(kind)), Decimal(KindCode(kind'));
      var t, t' := Field(Decimal(time), k), Field(Decimal(time'), k');
      PrefixInjective(Field(id, Field(stream, Field(author, t))), Field(id', Field(stream', Field(author', t'))));
      FieldsInjective(id, Field(stream, Field(author, t)), id', Field(stream', Field(author', t')));
      FieldsInjective(stream, Field(author, t), stream', Field(author', t'));
      FieldsInjective(author, t, author', t');
      DecimalHasNoSlash(time);
      DecimalHasNoSlash(time');
      FieldsInjective(Decimal(time), k, Decimal(time'), k');
      DecimalInjective(time, time');
      DecimalInjective(KindCode(kind), KindCode(kind'));
    }
  }

  /** An event can never be mistaken for a chunk: the chunk string has too few fields. */
  lemma EventAadIsNoChunkAad(
    id: string, stream: string, author: DeviceId, time: int, kind: EventKind, manifestId: string, hash: string)
    requires Free('/', id) && Free('/', stream) && Free('/', author)
    requires Free('/', manifestId) && Free('/', hash)
    ensures Aad(id, stream, author, time, kind) != ChunkAad(manifestId, hash)
  {
    var rest := Field(author, Field(Decimal(time), Decimal(KindCode(kind))));
    assert rest[|author|] == '/';
    if Aad(id, stream, author, time, kind) == ChunkAad(manifestId, hash) {
      PrefixInjective(Field(id, Field(stream, rest)), Field("chunk", Field(manifestId, hash)));
      FieldsInjective(id, Field(stream, rest), "chunk", Field(manifestId, hash));
      FieldsInjective(stream, rest, manifestId, hash);
    }
  }

  /** The envelope that `create_event` makes of a payload. The time, the id and the nonce come
      from the clock and from random sources, so they are parameters. */
  function SealEvent(
    prim: Primitives, me: Identity, peer: PublicIdentity, stream: string, kind: EventKind,
    payload: Payload, id: string, time: int, nonce: Bytes): EventEnvelope
  {
    var author := me.public.deviceId;
    var ciphertext := prim.seal(
      ConversationKey(prim, me, peer, stream), nonce, Aad(id, stream, author, time, kind), prim.encode(payload));
    var unsigned := EventEnvelope(id, stream, author, time, kind, nonce, ciphertext, []);
    unsigned.(signature := prim.sign(me.signSecret, prim.signable(unsigned)))
  }

  method CreateEvent(
    prim: Primitives, me: Identity, peer: PublicIdentity, stream: string, kind: EventKind,
    payload: Payload, id: string, time: int, nonce: Bytes) returns (event: EventEnvelope)
    ensures event == SealEvent(prim, me, peer, stream, kind, payload, id, time, nonce)
    ensures forall b: Identity ::
      b.public == peer && Converse(prim, me, b) ==>
        && OpenItem(prim, b, me.public, event) == Ok(ChatItem(id, me.public.deviceId, time, payload))
        && OpenItem(prim, me, b.public, event) == Ok(ChatItem(id, me.public.deviceId, time, payload))
    ensures event.id == id && event.stream == stream && event.author == me.public.deviceId && event.time == time
    ensures event.kind == kind && event.nonce == nonce
    ensures Ideal(prim) && WellKeyed(prim, me) ==>
      prim.verify(me.public.signKey, prim.signable(event.(signature := [])), event.signature)
  {
    forall b: Identity |
      b.public == peer && Converse(prim, me, b)
      ensures
        var e := SealEvent(prim, me, peer, stream, kind, payload, id, time, nonce);
        && OpenItem(prim, b, me.public, e) == Ok(ChatItem(id, me.public.deviceId, time, payload))
        && OpenItem(prim, me, b.public, e) == Ok(ChatItem(id, me.public.deviceId, time, payload))
    {
      EventRoundTrip(prim, me, b, stream, kind, payload, id, time, nonce);
    }
    var key := ConversationKey(prim, me, peer, stream);
    var cleartext := prim.encode(payload);
    var ciphertext := prim.seal(key, nonce, Aad(id, stream, me.public.deviceId, time, kind), cleartext);
    event := EventEnvelope(id, stream, me.public.deviceId, time, kind, nonce, ciphertext, []);
    event := event.(signature := prim.sign(me.signSecret, prim.signable(event)));
  }

  function VerifyAndDecrypt(
    prim: Primitives, me: Identity, peer: PublicIdentity, author: PublicIdentity, event: EventEnvelope): Result<Payload>
  {
    if event.author != author.deviceId then Err("event author mismatch")
    else if !prim.verify(author.signKey, prim.signable(event.(signature := [])), event.signature) then
      Err("bad signature")
    else
      var key := ConversationKey(prim, me, peer, event.stream);
      match prim.open(key, event.nonce, Aad(event.id, event.stream, event.author, event.time, event.kind),
        event.ciphertext)
      case None => Err("event authentication failed")
      case Some(cleartext) =>
        match prim.decode(cleartext)
        case None => Err("malformed payload")
        case Some(payload) => Ok(payload)
  }

  /** The item a device shows for an event of its conversation with `peer`. */
  function OpenItem(prim: Primitives, me: Identity, peer: PublicIdentity, event: EventEnvelope): Result<ChatItem> {
    var author := if event.author == me.public.deviceId then me.public else peer;
    match VerifyAndDecrypt(prim, me, peer, author, event)
    case Err(m) => Err(m)
    case Ok(payload) => Ok(ChatItem(event.id, event.author, event.time, payload))
  }

  /** An event opens exactly if it is by one of the two devices, carries that device's signature over the envelope
      without its signature, and its ciphertext opens under the conversation key and its own metadata to something that
      decodes. The item then shows what was decoded. */
  lemma OpensExactlyWhen(prim: Primitives, me: Identity, peer: PublicIdentity, e: EventEnvelope)
    ensures
      var signKey := if e.author == me.public.deviceId then me.public.signKey else peer.signKey;
      var clear := prim.open(
        prim.derive(prim.shared(me.exchangeSecret, peer.exchangeKey), e.stream), e.nonce,
        Aad(e.id, e.stream, e.author, e.time, e.kind), e.ciphertext);
      && (OpenItem(prim, me, peer, e).Ok? <==>
            && (e.author == me.public.deviceId || e.author == peer.deviceId)
            && prim.verify(signKey, prim.signable(e.(signature := [])), e.signature)
            && clear.Some? && prim.decode(clear.value).Some?)
      && (OpenItem(prim, me, peer, e).Ok? ==>
            OpenItem(prim, me, peer, e).value == ChatItem(e.id, e.author, e.time, prim.decode(clear.value).value))
  {
  }

  /** Both ends of a conversation read an event as the payload it was created from. */
  lemma EventRoundTrip(
    prim: Primitives, a: Identity, b: Identity, stream: string, kind: EventKind,
    payload: Payload, id: string, time: int, nonce: Bytes)
    requires Ideal(prim) && WellKeyed(prim, a) && WellKeyed(prim, b)
    requires a.public.deviceId != b.public.deviceId
    ensures var e := SealEvent(prim, a, b.public, stream, kind, payload, id, time, nonce);
            && OpenItem(prim, b, a.public, e) == Ok(ChatItem(id, a.public.deviceId, time, payload))
            && OpenItem(prim, a, b.public, e) == Ok(ChatItem(id, a.public.deviceId, time, payload))
  {
    ConversationKeyShared(prim, a, b, stream);
    var e := SealEvent(prim, a, b.public, stream, kind, payload, id, time, nonce);
    var unsigned := e.(signature := []);
    assert e.signature == prim.sign(a.signSecret, prim.signable(unsigned));
  }

  /** An envelope whose visible metadata was changed after sealing is rejected, whoever signs it. */
  lemma MetadataIsAuthenticated(
    prim: Primitives, a: Identity, b: Identity, author: PublicIdentity, kind: EventKind,
    payload: Payload, id: string, stream: string, time: int, nonce: Bytes, forged: EventEnvelope)
    requires Ideal(prim) && Binding(prim) && WellKeyed(prim, a) && WellKeyed(prim, b)
    requires Free('/', id) && Free('/', stream) && Free('/', a.public.deviceId)
    requires Free('/', forged.id) && Free('/', forged.author)
    requires var e := SealEvent(prim, a, b.public, stream, kind, payload, id, time, nonce);
             && forged.stream == e.stream && forged.nonce == e.nonce && forged.ciphertext == e.ciphertext
    requires VerifyAndDecrypt(prim, b, a.public, author, forged).Ok?
    ensures forged.id == id && forged.author == a.public.deviceId && forged.time == time && forged.kind == kind
  {
    ConversationKeyShared(prim, a, b, stream);
    EventAadInjective(
      id, stream, a.public.deviceId, time, kind, forged.id, stream, forged.author, forged.time, forged.kind);
  }

  function EncryptChunk(
    prim: Primitives, me: Identity, peer: PublicIdentity, stream: string, manifestId: string,
    hash: string, cleartext: Bytes, nonce: Bytes): Bytes
  {
    prim.seal(ConversationKey(prim, me, peer, stream), nonce, ChunkAad(manifestId, hash), cleartext)
  }

  function DecryptChunk(
    prim: Primitives, me: Identity, peer: PublicIdentity, stream: string, manifestId: string,
    hash: string, nonce: Bytes, ciphertext: Bytes): Result<Bytes>
  {
    match prim.open(ConversationKey(prim, me, peer, stream), nonce, ChunkAad(manifestId, hash), ciphertext)
    case None => Err("chunk authentication failed")
    case Some(cleartext) => Ok(cleartext)
  }

  lemma ChunkRoundTrip(
    prim: Primitives, a: Identity, b: Identity, stream: string, manifestId: string,
    hash: string, cleartext: Bytes, nonce: Bytes)
    requires Ideal(prim) && WellKeyed(prim, a) && WellKeyed(prim, b)
    ensures DecryptChunk(prim, b, a.public, stream, manifestId, hash, nonce,
              EncryptChunk(prim, a, b.public, stream, manifestId, hash, cleartext, nonce)) == Ok(cleartext)
  {
    ConversationKeyShared(prim, a, b, stream);
  }

  /** A chunk opens only under the manifest and the hash it was encrypted for. */
  lemma ChunkIsBound(
    prim: Primitives, a: Identity, b: Identity, stream: string, manifestId: string, hash: string, manifestId': string,
    hash': string, cleartext: Bytes, nonce: Bytes)
    requires Ideal(prim) && Binding(prim) && WellKeyed(prim, a) && WellKeyed(prim, b)
    requires Free('/', manifestId) && Free('/', manifestId')
    ensures DecryptChunk(prim, b, a.public, stream, manifestId', hash', nonce,
              EncryptChunk(prim, a, b.public, stream, manifestId, hash, cleartext, nonce)).Ok?
       <==> manifestId' == manifestId && hash' == hash
  {
    ConversationKeyShared(prim, a, b, stream);
    ChunkAadInjective(manifestId, hash, manifestId', hash');
  }

  /** A sealed event is no chunk of any file, and opens as none. */
  lemma EventIsNotAChunk(
    prim: Primitives, a: Identity, b: Identity, stream: string, kind: EventKind, payload: Payload,
    id: string, time: int, nonce: Bytes, manifestId: string, hash: string)
    requires Ideal(prim) && Binding(prim) && WellKeyed(prim, a) && WellKeyed(prim, b)
    requires Free('/', id) && Free('/', stream) && Free('/', a.public.deviceId)
    requires Free('/', manifestId) && Free('/', hash)
    ensures var e := SealEvent(prim, a, b.public, stream, kind, payload, id, time, nonce);
            DecryptChunk(prim, b, a.public, stream, manifestId, hash, nonce, e.ciphertext).Err?
  {
    ConversationKeyShared(prim, a, b, stream);
    EventAadIsNoChunkAad(id, stream, a.public.deviceId, time, kind, manifestId, hash);
  }
}
