/** The size of messages on the wire and the frame limit (`transport/lan.rs`). Messages travel as CBOR (RFC 8949):
    structures are maps from field names, a byte vector is an array of integers, so a byte takes one byte on the
    wire below 24 and two from there on (sections 3 and 3.1). */
module Frames {
  import opened Wrappers
  import opened Model
  import opened Protocol

  const MAX_FRAME: nat := 8388608

  /** Size of the authentication tag that encryption appends. */
  const TAG: nat := 16

  /** Ciphertext of a chunk of the largest size. */
  const FULL: nat := FILE_CHUNK_SIZE + TAG

  // ---------- Encoded sizes ----------

  datatype Item =
    | Number(n: int)
    | Flag
    | Text(s: string)
    | List(items: seq<Item>)
    | Struct(fields: seq<Field>)

  datatype Field = Field(name: string, value: Item)

  /** The initial byte of an item and the argument that follows it. */
  function Head(n: nat): nat {
    if n < 24 then 1
    else if n < 0x100 then 2
    else if n < 0x1_0000 then 3
    else if n < 0x1_0000_0000 then 5
    else 9
  }

  function CharBytes(c: char): nat {
    if c as int < 0x80 then 1
    else if c as int < 0x800 then 2
    else if c as int < 0x1_0000 then 3
    else 4
  }

  /** Length of a text in UTF-8. */
  function TextBytes(s: string): nat {
    if s == "" then 0 else CharBytes(s[0]) + TextBytes(s[1..])
  }

  function TextSize(s: string): nat {
    Head(TextBytes(s)) + TextBytes(s)
  }

  function Size(x: Item): nat {
    match x
    case Number(n) => Head(if n >= 0 then n else -1 - n)
    case Flag => 1
    case Text(s) => TextSize(s)
    case List(items) => Head(|items|) + SizeOfItems(items)
    case Struct(fields) => Head(|fields|) + SizeOfFields(fields)
  }

  function SizeOfItems(items: seq<Item>): nat {
    if items == [] then 0 else Size(items[0]) + SizeOfItems(items[1..])
  }

  function SizeOfFields(fields: seq<Field>): nat {
    if fields == [] then 0 else TextSize(fields[0].name) + Size(fields[0].value) + SizeOfFields(fields[1..])
  }

  // ---------- Messages as items ----------

  function ByteList(bytes: Bytes): Item {
    List(seq(|bytes|, i requires 0 <= i < |bytes| => Number(bytes[i])))
  }

  function ChunkItem(c: WireChunk): Item {
    Struct([Field("hash", Text(c.hash)), Field("nonce", ByteList(c.nonce)), Field("bytes", ByteList(c.bytes))])
  }

  function IdentityItem(p: PublicIdentity): Item {
    Struct([Field("device_id", Text(p.deviceId)), Field("display_name", Text(p.displayName)),
            Field("signing_public_key", ByteList(p.signKey)), Field("exchange_public_key", ByteList(p.exchangeKey))])
  }

  function KindName(kind: EventKind): string {
    match kind
    case TextKind => "Text"
    case ManifestKind => "FileManifest"
    case SystemKind => "System"
  }

  function EventItem(e: EventEnvelope): Item {
    Struct(EventHead(e) + EventTail(e))
  }

  function EventHead(e: EventEnvelope): seq<Field> {
    [Field("id", Text(e.id)), Field("stream_id", Text(e.stream)), Field("author", Text(e.author)),
     Field("created_at_ms", Number(e.time))]
  }

  function EventTail(e: EventEnvelope): seq<Field> {
    [Field("kind", Text(KindName(e.kind))), Field("nonce", ByteList(e.nonce)),
     Field("ciphertext", ByteList(e.ciphertext)), Field("signature", ByteList(e.signature))]
  }

  function Texts(ts: seq<string>): Item {
    List(seq(|ts|, i requires 0 <= i < |ts| => Text(ts[i])))
  }

  function EventItems(es: seq<EventEnvelope>): Item {
    List(seq(|es|, i requires 0 <= i < |es| => EventItem(es[i])))
  }

  function ChunkItems(chunks: seq<WireChunk>): Item {
    List(seq(|chunks|, i requires 0 <= i < |chunks| => ChunkItem(chunks[i])))
  }

  function Variant(name: string, fields: seq<Field>): Item {
    Struct([Field(name, Struct(fields))])
  }

  /** A message; `ids` are the known ids of a sync request in the order in which they are listed. */
  function MessageItem(body: Message, ids: seq<string>): Item {
    match body
    case Hello => Text("Hello")
    case PairRequest(nonce) => Variant("PairRequest", [Field("pairing_nonce", Text(nonce))])
    case PairResponse(_) => Variant("PairResponse", [Field("accepted", Flag)])
    case PushEvent(e) => Variant("PushEvent", [Field("event", EventItem(e))])
    case Ack(id) => Variant("Ack", [Field("event_id", Text(id))])
    case SyncExchange(stream, _, es) =>
      Variant("SyncExchange",
        [Field("stream_id", Text(stream)), Field("known_ids", Texts(ids)), Field("events", EventItems(es))])
    case SyncResult(es) => Variant("SyncResult", [Field("events", EventItems(es))])
    case ChunkRequest(id, hashes) =>
      Variant("ChunkRequest", [Field("manifest_id", Text(id)), Field("hashes", Texts(hashes))])
    case ChunkResult(id, chunks) => BatchVariant("ChunkResult", id, chunks)
    case PushChunks(id, chunks) => BatchVariant("PushChunks", id, chunks)
    case Error(message) => Variant("Error", [Field("message", Text(message))])
  }

  function BatchVariant(variant: string, id: string, chunks: seq<WireChunk>): Item {
    Variant(variant, [Field("manifest_id", Text(id)), Field("chunks", ChunkItems(chunks))])
  }

  function EnvelopeItem(sender: PublicIdentity, message: Item): Item {
    Struct([Field("version", Number(1)), Field("sender", IdentityItem(sender)), Field("body", message)])
  }

  /** The envelope of a chunk batch; `variant` is `PushChunks` or `ChunkResult`. */
  function BatchItem(sender: PublicIdentity, variant: string, id: string, chunks: seq<WireChunk>): Item {
    EnvelopeItem(sender, BatchVariant(variant, id, chunks))
  }

  /** The check made before sending: `request` and `write_frame`. */
  predicate Fits(x: Item) {
    Size(x) <= MAX_FRAME
  }

  /** Sizes on either side of each boundary of the encoding. */
  lemma SizeExamples()
    ensures Size(Number(23)) == 1 && Size(Number(24)) == 2 && Size(Number(0xFF)) == 2 && Size(Number(0x100)) == 3
    ensures Size(Number(0xFFFF)) == 3 && Size(Number(0x1_0000)) == 5 && Size(Number(0xFFFF_FFFF)) == 5
    ensures Size(Number(0x1_0000_0000)) == 9 && Size(Number(-24)) == 1 && Size(Number(-25)) == 2
    ensures Size(Text("\U{7F}")) == 2 && Size(Text("\U{80}")) == 3 && Size(Text("\U{7FF}")) == 3
    ensures Size(Text("\U{800}")) == 4 && Size(Text("\U{FFFF}")) == 4 && Size(Text("\U{10000}")) == 5
  {
  }

  // ---------- The frame of a message ----------

  function KnownIn(body: Message): set<string> {
    if body.SyncExchange? then body.known else {}
  }

  ghost predicate ListsOnce(ids: seq<string>, known: set<string>) {
    (forall i, j :: 0 <= i < j < |ids| ==> ids[i] != ids[j]) && (set id | id in ids) == known
  }

  /** What a set of texts takes, in whatever order they are listed. */
  ghost function TextsSize(known: set<string>): nat {
    if known == {} then 0
    else
      var x :| x in known;
      TextSize(x) + TextsSize(known - {x})
  }

  lemma {:induction false} TextsSizeWithout(known: set<string>, x: string)
    requires x in known
    ensures TextsSize(known) == TextSize(x) + TextsSize(known - {x})
    decreases |known|
  {
    hide TextSize;
    var y :| y in known && TextsSize(known) == TextSize(y) + TextsSize(known - {y});
    if y != x {
      TextsSizeWithout(known - {y}, x);
      TextsSizeWithout(known - {x}, y);
      assert known - {y} - {x} == known - {x} - {y};
    }
  }

  lemma {:induction false} SizeOfTexts(ids: seq<string>, items: seq<Item>, known: set<string>)
    requires |items| == |ids| && (forall i :: 0 <= i < |ids| ==> items[i] == Text(ids[i])) && ListsOnce(ids, known)
    ensures SizeOfItems(items) == TextsSize(known) && |ids| == |known|
    decreases |ids|
  {
    hide TextSize;
    if ids == [] {
      assert known == {};
    } else {
      assert ids[0] in known;
      TextsSizeWithout(known, ids[0]);
      assert forall id :: id in ids[1..] <==> id in known - {ids[0]};
      SizeOfTexts(ids[1..], items[1..], known - {ids[0]});
    }
  }

  /** Size of the frame in which `sender` sends `body`. */
  ghost function FrameSize(sender: PublicIdentity, body: Message): nat {
    if body.SyncExchange? then ExchangeSize(sender, body.stream, body.known, body.events)
    else Size(EnvelopeItem(sender, MessageItem(body, [])))
  }

  /** Neither `request` nor `write_frame` refuses the message for its size. */
  ghost predicate FitsFrame(sender: PublicIdentity, body: Message) {
    FrameSize(sender, body) <= MAX_FRAME
  }

  // ---------- Sizes in closed form ----------

  /** How many of the bytes are below 24. */
  function Small(bytes: Bytes): nat {
    if bytes == [] then 0 else (if bytes[0] < 24 then 1 else 0) + Small(bytes[1..])
  }

  lemma {:induction false} SizeOfNumbers(bytes: Bytes, items: seq<Item>)
    requires |items| == |bytes| && forall i :: 0 <= i < |bytes| ==> items[i] == Number(bytes[i])
    ensures SizeOfItems(items) + Small(bytes) == 2 * |bytes| && Small(bytes) <= |bytes|
  {
    if bytes != [] {
      SizeOfNumbers(bytes[1..], items[1..]);
    }
  }

  /** A byte vector takes between its length and twice its length, and a head. */
  lemma ByteListSize(bytes: Bytes)
    ensures Size(ByteList(bytes)) == Head(|bytes|) + 2 * |bytes| - Small(bytes)
    ensures Small(bytes) <= |bytes|
  {
    SizeOfNumbers(bytes, ByteList(bytes).items);
  }

  lemma OneField(a: Field)
    ensures SizeOfFields([a]) == TextSize(a.name) + Size(a.value)
  {
    assert [a][1..] == [];
  }

  lemma TwoFields(a: Field, b: Field)
    ensures SizeOfFields([a, b]) == TextSize(a.name) + Size(a.value) + TextSize(b.name) + Size(b.value)
  {
    assert [a, b][1..] == [b];
    OneField(b);
  }

  lemma ThreeFields(a: Field, b: Field, c: Field)
    ensures SizeOfFields([a, b, c]) ==
      TextSize(a.name) + Size(a.value) + TextSize(b.name) + Size(b.value) + TextSize(c.name) + Size(c.value)
  {
    assert [a, b, c][1..] == [b, c];
    TwoFields(b, c);
  }

  lemma FourFields(a: Field, b: Field, c: Field, d: Field)
    ensures SizeOfFields([a, b, c, d]) == TextSize(a.name) + Size(a.value) + SizeOfFields([b, c, d])
    ensures SizeOfFields([b, c, d]) ==
      TextSize(b.name) + Size(b.value) + TextSize(c.name) + Size(c.value) + TextSize(d.name) + Size(d.value)
  {
    assert [a, b, c, d][1..] == [b, c, d];
    ThreeFields(b, c, d);
  }

  lemma {:induction false} Ascii(s: string)
    requires forall i :: 0 <= i < |s| ==> s[i] as int < 0x80
    ensures TextBytes(s) == |s|
  {
    if s != "" {
      Ascii(s[1..]);
    }
  }

  lemma HeadOne(n: nat)
    requires n < 24
    ensures Head(n) == 1
  {
  }

  /** The name of a field or variant takes one byte more than it has letters. */
  lemma NameSize(s: string)
    requires |s| < 24 && forall i :: 0 <= i < |s| ==> s[i] as int < 0x80
    ensures TextSize(s) == 1 + |s|
  {
    Ascii(s);
  }

  /** What a chunk takes besides its ciphertext. */
  function ChunkOverhead(c: WireChunk): int {
    18 + TextSize(c.hash) + Head(|c.nonce|) + 2 * |c.nonce| - Small(c.nonce) + Head(|c.bytes|)
  }

  lemma ChunkSize(c: WireChunk)
    ensures Size(ChunkItem(c)) == 2 * |c.bytes| - Small(c.bytes) + ChunkOverhead(c)
  {
    hide TextSize, Head, Small, ByteList;
    ThreeFields(Field("hash", Text(c.hash)), Field("nonce", ByteList(c.nonce)), Field("bytes", ByteList(c.bytes)));
    NameSize("hash");
    NameSize("nonce");
    NameSize("bytes");
    ByteListSize(c.nonce);
    ByteListSize(c.bytes);
    HeadOne(3);
  }

  lemma {:induction false} FieldsAppend(a: seq<Field>, b: seq<Field>)
    ensures SizeOfFields(a + b) == SizeOfFields(a) + SizeOfFields(b)
  {
    if a == [] {
      assert a + b == b;
    } else {
      assert (a + b)[0] == a[0] && (a + b)[1..] == a[1..] + b;
      FieldsAppend(a[1..], b);
    }
  }

  /** What the sender's identity takes. */
  function IdentityOverhead(p: PublicIdentity): int {
    63 + TextSize(p.deviceId) + TextSize(p.displayName)
    + Head(|p.signKey|) + 2 * |p.signKey| - Small(p.signKey)
    + Head(|p.exchangeKey|) + 2 * |p.exchangeKey| - Small(p.exchangeKey)
  }

  lemma IdentitySize(p: PublicIdentity)
    ensures Size(IdentityItem(p)) == IdentityOverhead(p)
  {
    hide TextSize, Head, Small, ByteList;
    var a, b := Field("device_id", Text(p.deviceId)), Field("display_name", Text(p.displayName));
    var c, d := Field("signing_public_key", ByteList(p.signKey)), Field("exchange_public_key", ByteList(p.exchangeKey));
    FourFields(a, b, c, d);
    NameSize("device_id");
    NameSize("display_name");
    NameSize("signing_public_key");
    NameSize("exchange_public_key");
    ByteListSize(p.signKey);
    ByteListSize(p.exchangeKey);
    HeadOne(4);
  }

  // ---------- A batch ----------

  function Ciphertext(chunks: seq<WireChunk>): nat {
    if chunks == [] then 0 else |chunks[0].bytes| + Ciphertext(chunks[1..])
  }

  /** How many ciphertext bytes of the batch are below 24. */
  function SmallIn(chunks: seq<WireChunk>): nat {
    if chunks == [] then 0 else Small(chunks[0].bytes) + SmallIn(chunks[1..])
  }

  function ChunkOverheads(chunks: seq<WireChunk>): int {
    if chunks == [] then 0 else ChunkOverhead(chunks[0]) + ChunkOverheads(chunks[1..])
  }

  function Overhead(sender: PublicIdentity, variant: string, id: string, chunks: seq<WireChunk>): int {
    43 + IdentityOverhead(sender) + TextSize(variant) + TextSize(id) + Head(|chunks|) + ChunkOverheads(chunks)
  }

  lemma {:induction false} SizeOfChunks(chunks: seq<WireChunk>, items: seq<Item>)
    requires |items| == |chunks| && forall i :: 0 <= i < |chunks| ==> items[i] == ChunkItem(chunks[i])
    ensures SizeOfItems(items) == 2 * Ciphertext(chunks) - SmallIn(chunks) + ChunkOverheads(chunks)
  {
    hide ChunkItem, ChunkOverhead, Small;
    if chunks != [] {
      ChunkSize(chunks[0]);
      SizeOfChunks(chunks[1..], items[1..]);
    }
  }

  /** A batch takes twice its ciphertext, less one for every small byte, and the overhead. */
  lemma BatchSize(sender: PublicIdentity, variant: string, id: string, chunks: seq<WireChunk>)
    ensures Size(BatchItem(sender, variant, id, chunks))
         == 2 * Ciphertext(chunks) - SmallIn(chunks) + Overhead(sender, variant, id, chunks)
  {
    hide TextSize, Head, Small, ByteList, ChunkItem, IdentityItem, IdentityOverhead, ChunkOverheads;
    SizeOfChunks(chunks, ChunkItems(chunks).items);
    TwoFields(Field("manifest_id", Text(id)), Field("chunks", ChunkItems(chunks)));
    NameSize("manifest_id");
    NameSize("chunks");
    EnvelopeSize(sender, variant, [Field("manifest_id", Text(id)), Field("chunks", ChunkItems(chunks))]);
  }

  lemma StructSize(fields: seq<Field>)
    ensures Size(Struct(fields)) == Head(|fields|) + SizeOfFields(fields)
  {
  }

  lemma SmallNumber(n: nat)
    requires n < 24
    ensures Size(Number(n)) == 1
  {
  }

  /** What surrounds the fields of a message with few of them. */
  lemma EnvelopeSize(sender: PublicIdentity, variant: string, fields: seq<Field>)
    requires |fields| < 24
    ensures Size(EnvelopeItem(sender, Variant(variant, fields)))
         == 24 + IdentityOverhead(sender) + TextSize(variant) + SizeOfFields(fields)
  {
    hide TextSize, Head, IdentityItem, IdentityOverhead, Size, SizeOfFields, SizeOfItems;
    var body := Variant(variant, fields);
    OneField(Field(variant, Struct(fields)));
    StructSize(fields);
    StructSize([Field(variant, Struct(fields))]);
    var all := [Field("version", Number(1)), Field("sender", IdentityItem(sender)), Field("body", body)];
    ThreeFields(all[0], all[1], all[2]);
    StructSize(all);
    SmallNumber(1);
    IdentitySize(sender);
    NameSize("version");
    NameSize("sender");
    NameSize("body");
    HeadOne(1);
    HeadOne(3);
    HeadOne(|fields|);
  }

  /** Every chunk is of the largest size. */
  predicate AllFull(chunks: seq<WireChunk>) {
    forall c :: c in chunks ==> |c.bytes| == FULL
  }

  lemma {:induction false} CiphertextBound(chunks: seq<WireChunk>)
    requires forall c :: c in chunks ==> |c.bytes| <= FULL
    ensures Ciphertext(chunks) <= |chunks| * FULL
    ensures AllFull(chunks) ==> Ciphertext(chunks) == |chunks| * FULL
  {
    if chunks != [] {
      assert chunks[0] in chunks;
      assert forall c :: c in chunks[1..] ==> c in chunks;
      CiphertextBound(chunks[1..]);
    }
  }

  /** Main result: a batch of sixteen full chunks fits a frame exactly when enough of its ciphertext
      bytes are small to make up for the 512 bytes by which twice the ciphertext exceeds the frame,
      and for the overhead. */
  lemma SixteenFullChunksFitExactlyWhen(sender: PublicIdentity, variant: string, id: string, chunks: seq<WireChunk>)
    requires |chunks| == BATCH && AllFull(chunks)
    ensures 2 * Ciphertext(chunks) == MAX_FRAME + 512
    ensures Fits(BatchItem(sender, variant, id, chunks)) <==>
      SmallIn(chunks) >= 512 + Overhead(sender, variant, id, chunks)
  {
    CiphertextBound(chunks);
    BatchSize(sender, variant, id, chunks);
  }

  /** Names as the program makes them: ids and hashes in hexadecimal, keys and nonces of fixed size. */
  ghost predicate Usual(sender: PublicIdentity, id: string, chunks: seq<WireChunk>) {
    && TextBytes(sender.deviceId) == 32 && |sender.signKey| == 32 && |sender.exchangeKey| == 32 && TextBytes(id) == 26
    && forall c :: c in chunks ==> TextBytes(c.hash) == 64 && |c.nonce| == 24 && |c.bytes| <= FULL
  }

  lemma {:induction false} ChunkOverheadsBound(chunks: seq<WireChunk>)
    requires forall c :: c in chunks ==> TextBytes(c.hash) == 64 && |c.nonce| == 24 && |c.bytes| <= FULL
    ensures 111 * |chunks| <= ChunkOverheads(chunks) <= 139 * |chunks|
  {
    if chunks != [] {
      assert chunks[0] in chunks;
      assert forall c :: c in chunks[1..] ==> c in chunks;
      ByteListSize(chunks[0].nonce);
      ChunkOverheadsBound(chunks[1..]);
    }
  }

  lemma VariantSize(variant: string)
    requires variant == "PushChunks" || variant == "ChunkResult"
    ensures 11 <= TextSize(variant) <= 12
  {
    NameSize("PushChunks");
    NameSize("ChunkResult");
  }

  lemma TextSizeBound(s: string)
    ensures TextBytes(s) + 1 <= TextSize(s) <= TextBytes(s) + 9
    ensures 24 <= TextBytes(s) < 256 ==> TextSize(s) == TextBytes(s) + 2
  {
  }

  /** With such names the overhead is a few kilobytes besides the display name. */
  lemma OverheadBound(sender: PublicIdentity, variant: string, id: string, chunks: seq<WireChunk>)
    requires Usual(sender, id, chunks) && |chunks| <= BATCH && (variant == "PushChunks" || variant == "ChunkResult")
    ensures 246 + 111 * |chunks| + TextBytes(sender.displayName) <= Overhead(sender, variant, id, chunks)
    ensures Overhead(sender, variant, id, chunks) <= 324 + 139 * |chunks| + TextBytes(sender.displayName)
  {
    hide TextBytes, Small, ChunkOverheads;
    ChunkOverheadsBound(chunks);
    ByteListSize(sender.signKey);
    ByteListSize(sender.exchangeKey);
    VariantSize(variant);
    hide TextSize;
    TextSizeBound(sender.deviceId);
    TextSizeBound(sender.displayName);
    TextSizeBound(id);
  }

  /** Fifteen chunks of any size and content always fit. */
  lemma FifteenChunksFit(sender: PublicIdentity, variant: string, id: string, chunks: seq<WireChunk>)
    requires Usual(sender, id, chunks) && |chunks| < BATCH && (variant == "PushChunks" || variant == "ChunkResult")
    requires TextBytes(sender.displayName) <= 500000
    ensures Fits(BatchItem(sender, variant, id, chunks))
  {
    CiphertextBound(chunks);
    BatchSize(sender, variant, id, chunks);
    OverheadBound(sender, variant, id, chunks);
    assert |chunks| * FULL <= 15 * FULL;
  }

  lemma {:induction false} NoneSmall(chunks: seq<WireChunk>)
    requires forall c :: c in chunks ==> forall i :: 0 <= i < |c.bytes| ==> c.bytes[i] >= 24
    ensures SmallIn(chunks) == 0
  {
    if chunks != [] {
      assert chunks[0] in chunks;
      assert forall c :: c in chunks[1..] ==> c in chunks;
      NoSmallBytes(chunks[0].bytes);
      NoneSmall(chunks[1..]);
    }
  }

  lemma {:induction false} NoSmallBytes(bytes: Bytes)
    requires forall i :: 0 <= i < |bytes| ==> bytes[i] >= 24
    ensures Small(bytes) == 0
  {
    if bytes != [] {
      NoSmallBytes(bytes[1..]);
    }
  }

  /** Sixteen need not: a batch of full chunks without small ciphertext bytes is refused. */
  lemma SixteenFullChunksMayNotFit(sender: PublicIdentity, variant: string, id: string, chunks: seq<WireChunk>)
    requires Usual(sender, id, chunks) && |chunks| == BATCH && AllFull(chunks)
    requires (variant == "PushChunks" || variant == "ChunkResult")
    requires forall c :: c in chunks ==> forall i :: 0 <= i < |c.bytes| ==> c.bytes[i] >= 24
    ensures !Fits(BatchItem(sender, variant, id, chunks))
  {
    NoneSmall(chunks);
    OverheadBound(sender, variant, id, chunks);
    SixteenFullChunksFitExactlyWhen(sender, variant, id, chunks);
  }

  /** With a display name of at most 255 bytes, 3400 small bytes among the four million are enough. */
  lemma SixteenFullChunksUsuallyFit(sender: PublicIdentity, variant: string, id: string, chunks: seq<WireChunk>)
    requires Usual(sender, id, chunks) && |chunks| == BATCH && AllFull(chunks)
    requires (variant == "PushChunks" || variant == "ChunkResult")
    requires TextBytes(sender.displayName) <= 255 && SmallIn(chunks) >= 3400
    ensures Fits(BatchItem(sender, variant, id, chunks))
  {
    OverheadBound(sender, variant, id, chunks);
    SixteenFullChunksFitExactlyWhen(sender, variant, id, chunks);
  }

  // ---------- Messages that carry events ----------

  /** What an event takes besides its ciphertext. */
  function EventOverhead(e: EventEnvelope): int {
    67 + TextSize(e.id) + TextSize(e.stream) + TextSize(e.author) + Size(Number(e.time)) + TextSize(KindName(e.kind))
    + Head(|e.nonce|) + 2 * |e.nonce| - Small(e.nonce)
    + Head(|e.signature|) + 2 * |e.signature| - Small(e.signature) + Head(|e.ciphertext|)
  }

  /** An event takes twice its ciphertext, less one for every small byte, and the overhead. */
  lemma EventSize(e: EventEnvelope)
    ensures Size(EventItem(e)) == 2 * |e.ciphertext| - Small(e.ciphertext) + EventOverhead(e)
  {
    hide TextSize, Head, Small, ByteList;
    var h, t := EventHead(e), EventTail(e);
    FieldsAppend(h, t);
    FourFields(h[0], h[1], h[2], h[3]);
    FourFields(t[0], t[1], t[2], t[3]);
    EventNames();
    ByteListSize(e.nonce);
    ByteListSize(e.ciphertext);
    ByteListSize(e.signature);
    HeadOne(8);
  }

  lemma EventNames()
    ensures TextSize("id") == 3 && TextSize("stream_id") == 10 && TextSize("author") == 7
    ensures TextSize("created_at_ms") == 14 && TextSize("kind") == 5 && TextSize("nonce") == 6
    ensures TextSize("ciphertext") == 11 && TextSize("signature") == 10
  {
    hide TextSize;
    NameSize("id");
    NameSize("stream_id");
    NameSize("author");
    NameSize("created_at_ms");
    NameSize("kind");
    NameSize("nonce");
    NameSize("ciphertext");
    NameSize("signature");
  }

  function EventSizes(es: seq<EventEnvelope>): nat {
    if es == [] then 0 else Size(EventItem(es[0])) + EventSizes(es[1..])
  }

  lemma {:induction false} SizeOfEvents(es: seq<EventEnvelope>, items: seq<Item>)
    requires |items| == |es| && forall i :: 0 <= i < |es| ==> items[i] == EventItem(es[i])
    ensures SizeOfItems(items) == EventSizes(es)
  {
    if es != [] {
      SizeOfEvents(es[1..], items[1..]);
    }
  }

  lemma {:induction false} OneOfEvents(es: seq<EventEnvelope>, e: EventEnvelope)
    requires e in es
    ensures Size(EventItem(e)) <= EventSizes(es)
  {
    hide EventItem;
    if es[0] != e {
      OneOfEvents(es[1..], e);
    }
  }

  /** What a sync request takes, computed from the ids and events it names. */
  ghost function ExchangeSize(sender: PublicIdentity, stream: string, known: set<string>, es: seq<EventEnvelope>): nat {
    var size := 64 + IdentityOverhead(sender) + TextSize(stream)
                + Head(|known|) + TextsSize(known) + Head(|es|) + EventSizes(es);
    if size >= 0 then size else 0
  }

  /** That is its size in whatever order the known ids are listed. */
  lemma ExchangeSizeIsExact(
    sender: PublicIdentity, stream: string, known: set<string>, es: seq<EventEnvelope>, ids: seq<string>)
    requires ListsOnce(ids, known)
    ensures Size(EnvelopeItem(sender, MessageItem(SyncExchange(stream, known, es), ids)))
         == ExchangeSize(sender, stream, known, es)
  {
    hide TextSize, Head, IdentityOverhead, EventItem, EventSizes, Size, SizeOfFields, SizeOfItems;
    SizeOfTexts(ids, Texts(ids).items, known);
    ListSize(Texts(ids).items);
    ListSize(EventItems(es).items);
    TextItemSize(stream);
    SizeOfEvents(es, EventItems(es).items);
    var fields := [Field("stream_id", Text(stream)), Field("known_ids", Texts(ids)), Field("events", EventItems(es))];
    ThreeFields(fields[0], fields[1], fields[2]);
    EnvelopeSize(sender, "SyncExchange", fields);
    NameSize("stream_id");
    NameSize("known_ids");
    NameSize("events");
    NameSize("SyncExchange");
  }

  lemma {:induction false} MoreTexts(known: set<string>, more: set<string>)
    requires known <= more
    ensures TextsSize(known) <= TextsSize(more) && |known| <= |more|
    decreases |known|
  {
    hide TextSize, TextsSize;
    if known == {} {
      assert TextsSize({}) == 0 by { NoTexts(); }
    } else {
      var x :| x in known;
      TextsSizeWithout(known, x);
      TextsSizeWithout(more, x);
      MoreTexts(known - {x}, more - {x});
    }
  }

  lemma NoTexts()
    ensures TextsSize({}) == 0
  {
  }

  lemma {:induction false} EventSizesWithout(es: seq<EventEnvelope>, i: nat)
    requires i < |es|
    ensures EventSizes(es) == Size(EventItem(es[i])) + EventSizes(es[..i] + es[i + 1..])
  {
    hide EventItem, Size;
    var rest := es[..i] + es[i + 1..];
    if i == 0 {
      assert rest == es[1..];
    } else {
      EventSizesWithout(es[1..], i - 1);
      assert rest[0] == es[0] && rest[1..] == es[1..][..i - 1] + es[1..][i..];
    }
  }

  lemma {:induction false} MoreEvents(es: seq<EventEnvelope>, more: seq<EventEnvelope>)
    requires (forall i, j :: 0 <= i < j < |es| ==> es[i] != es[j]) && forall e :: e in es ==> e in more
    ensures EventSizes(es) <= EventSizes(more) && |es| <= |more|
  {
    hide EventItem, Size;
    if es != [] {
      assert es[0] in more;
      var i :| 0 <= i < |more| && more[i] == es[0];
      EventSizesWithout(more, i);
      var rest := more[..i] + more[i + 1..];
      forall e | e in es[1..]
        ensures e in rest
      {
        assert e in more;
        var j :| 0 <= j < |more| && more[j] == e;
        assert j < i || rest[j - 1] == e;
      }
      MoreEvents(es[1..], rest);
    }
  }

  /** A sync request that names more takes no less. */
  lemma MoreTakesMore(
    sender: PublicIdentity, stream: string, known: set<string>, es: seq<EventEnvelope>, known': set<string>,
    es': seq<EventEnvelope>)
    requires known <= known'
    requires (forall i, j :: 0 <= i < j < |es| ==> es[i] != es[j]) && forall e :: e in es ==> e in es'
    requires FitsFrame(sender, SyncExchange(stream, known', es'))
    ensures FitsFrame(sender, SyncExchange(stream, known, es))
  {
    hide TextSize, TextsSize, IdentityOverhead, EventSizes;
    MoreTexts(known, known');
    MoreEvents(es, es');
  }

  lemma ListSize(items: seq<Item>)
    ensures Size(List(items)) == Head(|items|) + SizeOfItems(items)
  {
  }

  lemma TextItemSize(s: string)
    ensures Size(Text(s)) == TextSize(s)
  {
  }

  lemma ResultItem(sender: PublicIdentity, es: seq<EventEnvelope>)
    ensures FrameSize(sender, SyncResult(es))
         == Size(EnvelopeItem(sender, Variant("SyncResult", [Field("events", EventItems(es))])))
  {
    hide Size, EnvelopeItem, ExchangeSize;
  }

  lemma EventItemsSize(es: seq<EventEnvelope>)
    ensures Size(EventItems(es)) == Head(|es|) + EventSizes(es)
  {
    hide Head, EventItem, EventSizes;
    SizeOfEvents(es, EventItems(es).items);
  }

  lemma ResultSize(sender: PublicIdentity, es: seq<EventEnvelope>)
    ensures FrameSize(sender, SyncResult(es)) == 42 + IdentityOverhead(sender) + Head(|es|) + EventSizes(es)
  {
    hide TextSize, Head, IdentityOverhead, EventItems, EventSizes, Size, FrameSize, EnvelopeItem, Variant, SizeOfFields;
    ResultItem(sender, es);
    EventItemsSize(es);
    OneField(Field("events", EventItems(es)));
    EnvelopeSize(sender, "SyncResult", [Field("events", EventItems(es))]);
    NameSize("events");
    NameSize("SyncResult");
  }

  lemma PushSize(sender: PublicIdentity, e: EventEnvelope)
    ensures FrameSize(sender, PushEvent(e)) == 40 + IdentityOverhead(sender) + Size(EventItem(e))
  {
    hide TextSize, Head, IdentityOverhead, EventItem;
    OneField(Field("event", EventItem(e)));
    EnvelopeSize(sender, "PushEvent", [Field("event", EventItem(e))]);
    NameSize("event");
    NameSize("PushEvent");
  }

  lemma IdentityTakesRoom(p: PublicIdentity)
    ensures IdentityOverhead(p) > 0
  {
    hide TextSize, Head;
    ByteListSize(p.signKey);
    ByteListSize(p.exchangeKey);
  }

  lemma EventTakesRoom(e: EventEnvelope)
    ensures Size(EventItem(e)) > |e.ciphertext|
  {
    hide TextSize, Head;
    EventSize(e);
    ByteListSize(e.nonce);
    ByteListSize(e.signature);
    ByteListSize(e.ciphertext);
  }

  /** An event whose ciphertext is as long as a frame fits no message. */
  lemma LongEventNeverFits(sender: PublicIdentity, body: Message, e: EventEnvelope)
    requires e in EventsIn(body) && |e.ciphertext| >= MAX_FRAME
    ensures !FitsFrame(sender, body)
  {
    hide Size, TextsSize, TextSize, IdentityOverhead;
    EventTakesRoom(e);
    IdentityTakesRoom(sender);
    match body {
      case PushEvent(_) => PushSize(sender, e);
      case SyncExchange(_, _, es) => OneOfEvents(es, e);
      case SyncResult(es) =>
        OneOfEvents(es, e);
        ResultSize(sender, es);
    }
  }

  lemma BatchFrames(sender: PublicIdentity, id: string, chunks: seq<WireChunk>)
    ensures FitsFrame(sender, PushChunks(id, chunks)) <==> Fits(BatchItem(sender, "PushChunks", id, chunks))
    ensures FitsFrame(sender, ChunkResult(id, chunks)) <==> Fits(BatchItem(sender, "ChunkResult", id, chunks))
  {
    hide Size;
  }

  /** The check itself: the message is encoded, the known ids in any order, and its length compared. */
  method CheckFrame(sender: PublicIdentity, body: Message) returns (fits: bool)
    ensures fits <==> FitsFrame(sender, body)
  {
    hide Size;
    var ids: seq<string> := [];
    var rest := KnownIn(body);
    while rest != {}
      invariant rest <= KnownIn(body) && ListsOnce(ids, KnownIn(body) - rest)
      decreases |rest|
    {
      var id :| id in rest;
      ListNextId(ids, KnownIn(body) - rest, id);
      ids, rest := ids + [id], rest - {id};
      assert KnownIn(body) - (rest + {id}) + {id} == KnownIn(body) - rest;
    }
    if body.SyncExchange? {
      ExchangeSizeIsExact(sender, body.stream, body.known, body.events, ids);
    } else {
      assert ids == [] by { NoIds(ids); }
    }
    fits := Fits(EnvelopeItem(sender, MessageItem(body, ids)));
  }

  lemma ListNextId(ids: seq<string>, known: set<string>, id: string)
    requires ListsOnce(ids, known) && id !in known
    ensures ListsOnce(ids + [id], known + {id})
  {
    assert forall x :: x in ids + [id] <==> x in ids || x == id;
  }

  lemma NoIds(ids: seq<string>)
    requires ListsOnce(ids, {})
    ensures ids == []
  {
    SizeOfTexts(ids, Texts(ids).items, {});
  }

  // ---------- Frames ----------

  function BigEndian(n: nat): (r: Bytes)
    requires n < 0x1_0000_0000
    ensures |r| == 4
  {
    var a := n / 0x100;
    var b := a / 0x100;
    [b / 0x100, b % 0x100, a % 0x100, n % 0x100]
  }

  function FromBigEndian(b: Bytes): nat
    requires |b| == 4
  {
    var (p: int, q: int, r: int, s: int) := (b[0], b[1], b[2], b[3]);
    ((p * 0x100 + q) * 0x100 + r) * 0x100 + s
  }

  lemma BigEndianRoundTrip(n: nat)
    requires n < 0x1_0000_0000
    ensures FromBigEndian(BigEndian(n)) == n
  {
  }

  lemma FromBigEndianRoundTrip(b: Bytes)
    requires |b| == 4
    ensures FromBigEndian(b) < 0x1_0000_0000 && BigEndian(FromBigEndian(b)) == b
  {
    var (p: int, q: int, r: int, s: int) := (b[0], b[1], b[2], b[3]);
    var n := FromBigEndian(b);
    assert n / 0x100 == (p * 0x100 + q) * 0x100 + r;
    assert n / 0x100 / 0x100 == p * 0x100 + q;
  }

  /** `write_frame`: what goes onto the stream. */
  function WriteFrame(payload: Bytes): Result<Bytes> {
    if |payload| <= MAX_FRAME then Ok(BigEndian(|payload|) + payload) else Err("outgoing frame too large")
  }

  /** `read_frame`: the payload and what is left on the stream. */
  function ReadFrame(stream: Bytes): Result<(Bytes, Bytes)> {
    if |stream| < 4 then Err("unexpected end of stream")
    else
      var length := FromBigEndian(stream[..4]);
      if length > MAX_FRAME then Err("incoming frame too large")
      else if |stream| < 4 + length then Err("unexpected end of stream")
      else Ok((stream[4..4 + length], stream[4 + length..]))
  }

  /** A frame is the length in four bytes, most significant first, and the payload; above 8 MiB there is none. */
  lemma FrameForm(payload: Bytes)
    ensures WriteFrame(payload).Ok? <==> |payload| <= 8 * 1024 * 1024
    ensures WriteFrame(payload).Ok? ==>
      var f := WriteFrame(payload).value;
      && |f| == 4 + |payload| && f[4..] == payload
      && 0x100_0000 * (f[0] as int) + 0x1_0000 * (f[1] as int) + 0x100 * (f[2] as int) + (f[3] as int) == |payload|
  {
    if WriteFrame(payload).Ok? {
      BigEndianRoundTrip(|payload|);
    }
  }

  /** A reader gets back exactly the frame that was written, and never one that could not have been. */
  lemma FramesAreReadAsWritten(payload: Bytes, rest: Bytes, stream: Bytes)
    ensures ReadFrame(stream) == Ok((payload, rest)) <==>
      WriteFrame(payload).Ok? && stream == WriteFrame(payload).value + rest
  {
    if WriteFrame(payload).Ok? && stream == WriteFrame(payload).value + rest {
      assert stream[..4] == BigEndian(|payload|);
      BigEndianRoundTrip(|payload|);
      assert stream[4..4 + |payload|] == payload && stream[4 + |payload|..] == rest;
    }
    if ReadFrame(stream) == Ok((payload, rest)) {
      FromBigEndianRoundTrip(stream[..4]);
      assert stream == stream[..4] + payload + rest;
    }
  }
}
