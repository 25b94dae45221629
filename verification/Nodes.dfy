/** A device (`node.rs`): its store, its identity and what it does as server and as client.
    Server code is proved against `Protocol.Handle`. Client code talks to another `Node`; whether a
    request arrives and whether its answer comes back is decided by a `Fate` that the caller of the
    client method does not control. */
module Nodes {
  import opened Wrappers
  import Text
  import opened Model
  import opened Crypto
  import opened ChunkRows
  import opened EventLog
  import T = Tables
  import F = Frames
  import opened Storage
  import opened Files
  import opened Protocol
  import opened ChunkTraffic
  import opened HandlerLaws

  datatype Fate = LostRequest | LostReply | Delivered

  /** Every event of `t` is still there, unaltered. */
  ghost predicate EventsKept(t: T.Tables, t': T.Tables) {
    forall id :: id in t.events ==> id in t'.events && t'.events[id] == t.events[id]
  }

  lemma {:induction false} AdmitAllKeeps(
    prim: Primitives, me: Identity, t: T.Tables, peer: PublicIdentity, es: seq<EventEnvelope>)
    ensures EventsKept(t, AdmitAll(prim, me, t, peer, es).0)
    ensures AdmitAll(prim, me, t, peer, es).0.peers == t.peers
    decreases es
  {
    if es != [] {
      if es[0].author != peer.deviceId {
        AdmitAllKeeps(prim, me, t, peer, es[1..]);
      } else if OpenItem(prim, me, peer, es[0]).Ok? {
        var next := Admit(t, peer.deviceId, es[0], OpenItem(prim, me, peer, es[0]).value.payload);
        assert EventsKept(t, next);
        AdmitAllKeeps(prim, me, next, peer, es[1..]);
      }
    }
  }

  lemma PushKeeps(prim: Primitives, me: Identity, t: T.Tables, sender: PublicIdentity, e: EventEnvelope)
    ensures var o := Protocol.HandlePush(prim, me, t, sender, e);
            EventsKept(t, o.t) && (o.body == Ack(e.id) ==> e.id in o.t.events)
  {
  }

  lemma PairKeeps(t: T.Tables, sender: PublicIdentity, now: int)
    ensures var t' := Protocol.HandlePair(t, sender, now).t;
            t'.events == t.events && T.IsPaired(t', sender.deviceId)
  {
  }

  /** The conversation as a list of items; one event that does not open spoils the list. */
  function Items(prim: Primitives, me: Identity, peer: PublicIdentity, es: seq<EventEnvelope>): Result<seq<ChatItem>> {
    if es == [] then Ok([])
    else
      match OpenItem(prim, me, peer, es[0])
      case Err(m) => Err(m)
      case Ok(item) =>
        match Items(prim, me, peer, es[1..])
        case Err(m) => Err(m)
        case Ok(rest) => Ok([item] + rest)
  }

  lemma {:induction false} ItemsExactly(prim: Primitives, me: Identity, peer: PublicIdentity, es: seq<EventEnvelope>)
    ensures
      var r := Items(prim, me, peer, es);
      && (r.Ok? <==> forall e :: e in es ==> OpenItem(prim, me, peer, e).Ok?)
      && (r.Ok? ==>
            && |r.value| == |es|
            && forall k :: 0 <= k < |es| ==> OpenItem(prim, me, peer, es[k]) == Ok(r.value[k]))
  {
    hide OpenItem;
    if es != [] {
      assert es == [es[0]] + es[1..];
      ItemsExactly(prim, me, peer, es[1..]);
    }
  }

  /** The list has one item for every event of the stream, which is what the event opens as, by time and event id. */
  ghost predicate ShowsStream(
    prim: Primitives, me: Identity, peer: PublicIdentity, log: Log, stream: string, items: seq<ChatItem>)
  {
    && (forall i, j :: 0 <= i < j < |items| ==>
          || items[i].time < items[j].time
          || (items[i].time == items[j].time && Text.Less(items[i].eventId, items[j].eventId)))
    && (forall item :: item in items ==>
          && item.eventId in log && log[item.eventId].stream == stream
          && OpenItem(prim, me, peer, log[item.eventId]) == Ok(item))
    && forall id :: id in log && log[id].stream == stream ==> exists item :: item in items && item.eventId == id
  }

  /** The list of a stream is either all of that, or an error because some event of the stream does not open. */
  lemma ShownExactly(
    prim: Primitives, me: Identity, peer: PublicIdentity, log: Log, stream: string, es: seq<EventEnvelope>)
    requires KeyedById(log)
    requires forall i, j :: 0 <= i < j < |es| ==>
      es[i].time < es[j].time || (es[i].time == es[j].time && Text.Less(es[i].id, es[j].id))
    requires forall e :: e in es <==> e.id in log && log[e.id] == e && e.stream == stream
    ensures var r := Items(prim, me, peer, es);
            if r.Ok? then ShowsStream(prim, me, peer, log, stream, r.value)
            else exists id :: id in log && log[id].stream == stream && OpenItem(prim, me, peer, log[id]).Err?
  {
    ItemsExactly(prim, me, peer, es);
    var r := Items(prim, me, peer, es);
    hide Items;
    if r.Ok? {
      forall k | 0 <= k < |es|
        ensures r.value[k].eventId == es[k].id && r.value[k].time == es[k].time
      {
        OpensExactlyWhen(prim, me, peer, es[k]);
      }
      hide OpenItem;
      forall id | id in log && log[id].stream == stream
        ensures exists item :: item in r.value && item.eventId == id
      {
        assert log[id] in es;
        var k :| 0 <= k < |es| && es[k] == log[id];
        assert r.value[k] in r.value;
      }
    } else {
      var e :| e in es && OpenItem(prim, me, peer, e).Err?;
      assert log[e.id] == e;
    }
  }

  /** The device has done what the handler's outcome says. */
  ghost predicate Follows(o: Outcome, told: seq<Notice>, t: T.Tables, reply: Message, notices: seq<Notice>) {
    t == o.t && reply == o.body && notices == told + o.notices
  }

  function Prepend<A>(done: seq<A>, rest: Result<seq<A>>): Result<seq<A>> {
    match rest
    case Err(m) => Err(m)
    case Ok(more) => Ok(done + more)
  }

  lemma PrependNothing<A>(rest: Result<seq<A>>)
    ensures Prepend([], rest) == rest
  {
    if rest.Ok? {
      assert [] + rest.value == rest.value;
    }
  }

  lemma PrependOne<A>(done: seq<A>, x: A, rest: Result<seq<A>>)
    ensures Prepend(done + [x], rest) == Prepend(done, Prepend([x], rest))
  {
    if rest.Ok? {
      assert done + [x] + rest.value == done + ([x] + rest.value);
    }
  }

  /** The peer is known and has an endpoint. */
  predicate Reachable(t: T.Tables, id: DeviceId) {
    var p := T.LookupPeer(t.peers, id);
    p.Some? && p.value.endpoint.Some?
  }

  /** Neither end refuses the other on a connection to the endpoint of `peer`: the device there is the one
      expected, and both identities pass validation. */
  predicate Connects(prim: Primitives, rprim: Primitives, A: PublicIdentity, B: PublicIdentity, peer: Peer) {
    peer.endpoint.Some? && B.deviceId == peer.identity.deviceId && rprim.validIdentity(A) && prim.validIdentity(B)
  }

  /** The request of `A` and the answer of `B` both fit a frame. */
  ghost predicate Carried(A: PublicIdentity, B: PublicIdentity, request: Message, answer: Message) {
    F.FitsFrame(A, request) && F.FitsFrame(B, answer)
  }

  /** Honest devices at the two ends of a conversation, each of which holds the other as paired under
      its true identity, with `A` knowing where to reach `B`. */
  ghost predicate Companions(
    prim: Primitives, rprim: Primitives, A: Identity, B: Identity, peerId: DeviceId, a: T.Tables, b: T.Tables)
  {
    && prim == rprim && Ideal(prim) && WellKeyed(prim, A) && WellKeyed(prim, B)
    && prim.validIdentity(A.public) && prim.validIdentity(B.public) && A.public.deviceId != B.public.deviceId
    && Reachable(a, peerId) && T.IsPaired(a, peerId) && a.peers[peerId].identity == B.public && Trusts(b, A.public)
  }

  function FirstBatch<X>(xs: seq<X>): seq<X> {
    if |xs| <= BATCH then xs else xs[..BATCH]
  }

  /** A round asks for the missing chunks from the first one on, sixteen or as many as there are. */
  lemma FirstBatchExactly<X>(xs: seq<X>)
    ensures FirstBatch(xs) <= xs && |FirstBatch(xs)| == if |xs| < 16 then |xs| else 16
  {
  }

  /** Nothing is missing of the file, or an honest server that holds the whole file is at the other end. */
  ghost predicate CanHelp(
    prim: Primitives, client: Identity, server: Identity, peer: Peer, m: FileManifest, t: T.Tables, rt: T.Tables)
  {
    T.MissingChunks(t, m.id) != [] ==>
      && Ideal(prim) && WellKeyed(prim, client) && WellKeyed(prim, server)
      && Connects(prim, prim, client.public, server.public, peer) && peer.identity == server.public
      && T.Holds(t, m) && Serves(rt, client.public, m)
  }

  lemma HelpLasts(
    prim: Primitives, client: Identity, server: Identity, peer: Peer, m: FileManifest, t: T.Tables, t': T.Tables,
    rt: T.Tables)
    requires T.Fills(t, t') && CanHelp(prim, client, server, peer, m, t, rt)
    ensures CanHelp(prim, client, server, peer, m, t', rt)
  {
    T.FillsRaised(t, t', m.id);
    MissingFalls(T.RowsOf(t, m.id), T.RowsOf(t', m.id));
    if T.MissingChunks(t', m.id) != [] {
      T.FillsHolds(t, t', m);
    }
  }

  /** Such a server answers the next request, and the answer can be stored. */
  lemma BatchServed(
    prim: Primitives, client: Identity, server: Identity, peer: Peer, m: FileManifest,
    t: T.Tables, rt: T.Tables, nonces: nat -> Bytes)
    requires T.Sound(prim, rt)
    ensures CanHelp(prim, client, server, peer, m, t, rt) && T.MissingChunks(t, m.id) != [] ==>
      var requested := FirstBatch(T.MissingChunks(t, m.id));
      var o := Protocol.HandleChunkRequest(prim, server, rt, client.public, m.id, requested, nonces);
      && Connects(prim, prim, client.public, server.public, peer) && peer.identity == server.public
      && o.body.ChunkResult? && o.body.manifestId == m.id && o.body.chunks != []
      && StoreChunks(prim, client, t, server.public, m.id, None, o.body.chunks).1
  {
    if CanHelp(prim, client, server, peer, m, t, rt) && T.MissingChunks(t, m.id) != [] {
      var missing := T.MissingChunks(t, m.id);
      var requested := FirstBatch(missing);
      MissingBelongs(t, m);
      assert HashSet(requested) <= HashSet(missing);
      ChunksArrive(prim, server, client, rt, t, m, requested, nonces, 0, None);
      ChunksForShape(prim, server, rt, client.public, m, requested, nonces, 0);
    }
  }

  lemma AnswerShape(
    prim: Primitives, server: Identity, rt: T.Tables, client: PublicIdentity, id: string,
    requested: seq<string>, nonces: nat -> Bytes, chunks: seq<WireChunk>)
    requires T.Sound(prim, rt) && |requested| <= BATCH
    requires Protocol.HandleChunkRequest(prim, server, rt, client, id, requested, nonces).body
       == ChunkResult(id, chunks)
    ensures WireHashes(chunks) == HashSet(requested)
  {
    ChunksForShape(prim, server, rt, client, rt.manifests[id].manifest, requested, nonces, 0);
  }

  /** A manifest that is complete stays complete. */
  ghost predicate CompleteKept(t: T.Tables, t': T.Tables) {
    forall id :: id in t.manifests && t.manifests[id].complete ==> id in t'.manifests && t'.manifests[id].complete
  }

  ghost predicate CanHelpAll(
    prim: Primitives, client: Identity, server: Identity, peer: Peer, t: T.Tables, rt: T.Tables)
  {
    forall id :: id in T.IncompleteFor(t, peer.identity.deviceId) ==>
      CanHelp(prim, client, server, peer, t.manifests[id].manifest, t, rt)
  }

  lemma AllHelpLasts(
    prim: Primitives, client: Identity, server: Identity, peer: Peer, t: T.Tables, t': T.Tables, rt: T.Tables,
    m: FileManifest)
    requires T.Fills(t, t') && m.id in T.IncompleteFor(t, peer.identity.deviceId) && m == t.manifests[m.id].manifest
    ensures CanHelpAll(prim, client, server, peer, t, rt) ==> CanHelp(prim, client, server, peer, m, t', rt)
  {
    hide CanHelp;
    if CanHelpAll(prim, client, server, peer, t, rt) {
      HelpLasts(prim, client, server, peer, m, t, t', rt);
    }
  }

  lemma CompanionsKnown(
    prim: Primitives, rprim: Primitives, A: Identity, B: Identity, peerId: DeviceId, a: T.Tables, b: T.Tables)
    ensures Companions(prim, rprim, A, B, peerId, a, b) ==> Reachable(a, peerId) && T.IsPaired(a, peerId)
  {
  }

  /** What one companion creates for the other is accepted there and opens at both. */
  lemma PushAccepted(
    prim: Primitives, rprim: Primitives, A: Identity, B: Identity, peerId: DeviceId, a: T.Tables, b: T.Tables,
    kind: EventKind, payload: Payload, id: string, time: int, nonce: Bytes)
    ensures Companions(prim, rprim, A, B, peerId, a, b) ==>
      var peer := T.LookupPeer(a.peers, peerId).value;
      var e := SealEvent(prim, A, peer.identity, DirectStreamId(A.public.deviceId, peerId), kind, payload, id, time,
        nonce);
      && Connects(prim, rprim, A.public, B.public, peer)
      && OpenItem(prim, A, peer.identity, e) == Ok(ChatItem(id, A.public.deviceId, time, payload))
      && Protocol.HandlePush(rprim, B, b, A.public, e).body == Ack(e.id)
      && Protocol.HandlePush(rprim, B, b, A.public, e).t == Admit(b, A.public.deviceId, e, payload)
  {
    if Companions(prim, rprim, A, B, peerId, a, b) {
      EventRoundTrip(prim, A, B, DirectStreamId(A.public.deviceId, peerId), kind, payload, id, time, nonce);
    }
  }

  /** `B` is ready to take the chunks of `m` from `A`, who has them all. */
  ghost predicate CanTake(
    prim: Primitives, rprim: Primitives, A: Identity, B: Identity, peer: Peer, m: FileManifest, t: T.Tables,
    rt: T.Tables)
  {
    && prim == rprim && Ideal(prim) && WellKeyed(prim, A) && WellKeyed(prim, B) && T.Sound(prim, t)
    && Connects(prim, rprim, A.public, B.public, peer) && peer.identity == B.public
    && HashesOf(m.chunks) <= t.blobs.Keys
    && Trusts(rt, A.public) && m.id in rt.manifests && rt.manifests[m.id].manifest == m
  }

  lemma CanTakeLasts(
    prim: Primitives, rprim: Primitives, A: Identity, B: Identity, peer: Peer, m: FileManifest,
    t: T.Tables, rt: T.Tables, rt': T.Tables)
    requires CanTake(prim, rprim, A, B, peer, m, t, rt) && T.Fills(rt, rt')
    ensures CanTake(prim, rprim, A, B, peer, m, t, rt')
  {
  }

  /** A range of its chunks can then be encrypted, and is acknowledged. */
  lemma RangeTaken(
    prim: Primitives, rprim: Primitives, A: Identity, B: Identity, peer: Peer, m: FileManifest, t: T.Tables,
    rt: T.Tables,
    hashes: seq<string>, nonces: nat -> Bytes)
    requires HashSet(hashes) <= HashesOf(m.chunks)
    ensures CanTake(prim, rprim, A, B, peer, m, t, rt) ==>
      var sent := ChunksFor(prim, A, t, peer.identity, m, hashes, nonces, 0);
      && Connects(prim, rprim, A.public, B.public, peer)
      && sent.Ok? && Protocol.HandlePushChunks(rprim, B, rt, A.public, m.id, sent.value).body.Ack?
  {
    if CanTake(prim, rprim, A, B, peer, m, t, rt) {
      ChunksArrive(prim, A, B, t, rt, m, hashes, nonces, 0, Some(HashesOf(m.chunks)));
    }
  }

  /** The frames in which `size` chunks from `start` on are pushed fit. */
  ghost predicate RangeCarried(
    prim: Primitives, A: Identity, B: PublicIdentity, peer: PublicIdentity, m: FileManifest, t: T.Tables, start: nat,
    size: nat, nonces: nat -> Bytes)
    requires start + size <= |m.chunks|
  {
    var sent := ChunksFor(prim, A, t, peer, m, HashList(m, start, size), nonces, 0);
    sent.Ok? ==> Carried(A.public, B, PushChunks(m.id, sent.value), Ack(m.id))
  }

  function SizeFrom(m: FileManifest, start: nat): nat {
    if start >= |m.chunks| then 0
    else if |m.chunks| - start < BATCH then |m.chunks| - start
    else BATCH
  }

  /** So do those of all batches of the file before `done`. */
  ghost predicate PushesCarried(
    prim: Primitives, A: Identity, B: PublicIdentity, peer: PublicIdentity, m: FileManifest, t: T.Tables, done: nat,
    nonces: nat -> Bytes)
  {
    forall start: nat :: start < done && start < |m.chunks| && start % BATCH == 0 ==>
      RangeCarried(prim, A, B, peer, m, t, start, SizeFrom(m, start), nonces)
  }

  /** The announcement of a file and all its batches fit. */
  ghost predicate FileCarried(
    prim: Primitives, A: Identity, B: PublicIdentity, peer: PublicIdentity, e: EventEnvelope, m: FileManifest,
    t: T.Tables, nonces: nat -> Bytes)
  {
    && Carried(A.public, B, PushEvent(e), Ack(e.id))
    && PushesCarried(prim, A, B, peer, m, t, |m.chunks|, nonces)
  }

  lemma FileIsDelivered(m: FileManifest, link: nat -> Fate, later: nat -> Fate)
    requires link(0).Delivered? && forall k: nat :: later(k) == link(k + 1)
    requires forall k: nat :: BATCH * k < |m.chunks| ==> later(k).Delivered?
    ensures FileDelivered(m, link)
  {
    forall k: nat | BATCH * k < |m.chunks|
      ensures link(k + 1).Delivered?
    {
      assert later(k).Delivered?;
    }
  }

  /** No row of the file with the hash of one of its chunks lacks its content. */
  ghost predicate NoneMissing(t: T.Tables, m: FileManifest) {
    forall row, c :: row in T.RowsOf(t, m.id) && c in m.chunks && row.hash == c.hash ==> row.present
  }

  lemma ClearedAll(t: T.Tables, t': T.Tables, m: FileManifest)
    requires Cleared(t, t', m.id, HashesOf(m.chunks))
    ensures NoneMissing(t', m)
  {
    MissingMembers(T.RowsOf(t', m.id));
    WithoutMembers(T.MissingChunks(t, m.id), HashesOf(m.chunks));
    forall row, c | row in T.RowsOf(t', m.id) && c in m.chunks && row.hash == c.hash
      ensures row.present
    {
      assert c.hash in HashesOf(m.chunks);
      assert row.hash !in T.MissingChunks(t', m.id);
    }
  }

  /** The announcement of a file and all its batches have been delivered and answered. */
  ghost predicate FileDelivered(m: FileManifest, link: nat -> Fate) {
    link(0).Delivered? && forall k: nat :: BATCH * k < |m.chunks| ==> link(k + 1).Delivered?
  }

  lemma NextPushCarried(
    prim: Primitives, A: Identity, B: PublicIdentity, peer: PublicIdentity, m: FileManifest, t: T.Tables, done: nat,
    nonces: nat -> Bytes)
    requires done < |m.chunks| && done % BATCH == 0 && PushesCarried(prim, A, B, peer, m, t, done, nonces)
    requires RangeCarried(prim, A, B, peer, m, t, done, SizeFrom(m, done), nonces)
    ensures PushesCarried(prim, A, B, peer, m, t, done + SizeFrom(m, done), nonces)
    ensures done + SizeFrom(m, done) == |m.chunks| || (done + SizeFrom(m, done)) % BATCH == 0
  {
    hide RangeCarried;
  }

  /** A file that `A` keeps and has just announced to `B` can be pushed. */
  lemma AnnouncedCanBeTaken(
    prim: Primitives, rprim: Primitives, A: Identity, B: Identity, peerId: DeviceId, a: T.Tables, a1: T.Tables,
    b: T.Tables,
    m: FileManifest, id: string, time: int, nonce: Bytes)
    requires Reachable(a, peerId)
    requires
      var e := SealEvent(prim, A, T.LookupPeer(a.peers, peerId).value.identity,
        DirectStreamId(A.public.deviceId, peerId),
                         ManifestKind, ManifestPayload(m), id, time, nonce);
      FileKept(a, a1, peerId, m, e) && T.Sound(prim, a1)
    ensures
      var peer := T.LookupPeer(a.peers, peerId).value;
      var e := SealEvent(prim, A, peer.identity, DirectStreamId(A.public.deviceId, peerId),
                         ManifestKind, ManifestPayload(m), id, time, nonce);
      Companions(prim, rprim, A, B, peerId, a, b) && id !in b.events && m.id !in b.manifests ==>
        CanTake(prim, rprim, A, B, peer, m, a1, Protocol.HandlePush(rprim, B, b, A.public, e).t)
  {
    hide T.Sound, T.Fills;
    PushAccepted(prim, rprim, A, B, peerId, a, b, ManifestKind, ManifestPayload(m), id, time, nonce);
  }

  lemma PushedAck(
    prim: Primitives, me: Identity, t: T.Tables, sender: PublicIdentity, id: string, chunks: seq<WireChunk>)
    ensures var body := Protocol.HandlePushChunks(prim, me, t, sender, id, chunks).body; body.Ack? ==> body == Ack(id)
  {
  }

  /** `B` acknowledges the announcement of `m`, and is then ready to take its chunks. */
  ghost predicate PushWorks(
    prim: Primitives, rprim: Primitives, A: Identity, B: Identity, peer: Peer, m: FileManifest, e: EventEnvelope,
    t: T.Tables, rt: T.Tables)
  {
    var o := Protocol.HandlePush(rprim, B, rt, A.public, e);
    && Connects(prim, rprim, A.public, B.public, peer) && o.body == Ack(e.id)
    && CanTake(prim, rprim, A, B, peer, m, t, o.t)
  }

  lemma CompanionsPush(
    prim: Primitives, rprim: Primitives, A: Identity, B: Identity, peerId: DeviceId, a: T.Tables, a1: T.Tables,
    b: T.Tables, m: FileManifest, id: string, time: int, nonce: Bytes)
    requires Reachable(a, peerId)
    requires
      var e := SealEvent(prim, A, T.LookupPeer(a.peers, peerId).value.identity,
        DirectStreamId(A.public.deviceId, peerId), ManifestKind, ManifestPayload(m), id, time, nonce);
      FileKept(a, a1, peerId, m, e) && T.Sound(prim, a1)
    ensures
      var peer := T.LookupPeer(a.peers, peerId).value;
      var e := SealEvent(prim, A, peer.identity, DirectStreamId(A.public.deviceId, peerId),
        ManifestKind, ManifestPayload(m), id, time, nonce);
      id !in b.events && m.id !in b.manifests && Companions(prim, rprim, A, B, peerId, a, b) ==>
        && PushWorks(prim, rprim, A, B, peer, m, e, a1, b)
        && OpenItem(prim, A, peer.identity, e) == Ok(ChatItem(id, A.public.deviceId, time, ManifestPayload(m)))
  {
    hide Companions, CanTake, FileKept, OpenItem, SealEvent, Connects;
    PushAccepted(prim, rprim, A, B, peerId, a, b, ManifestKind, ManifestPayload(m), id, time, nonce);
    AnnouncedCanBeTaken(prim, rprim, A, B, peerId, a, a1, b, m, id, time, nonce);
  }

  function HashList(m: FileManifest, start: nat, size: nat): seq<string>
    requires start + size <= |m.chunks|
  {
    seq(size, i requires 0 <= i < size => m.chunks[start + i].hash)
  }

  lemma HashListWithin(m: FileManifest, start: nat, size: nat)
    requires start + size <= |m.chunks|
    ensures HashSet(HashList(m, start, size)) <= HashesOf(m.chunks)
  {
    forall h | h in HashSet(HashList(m, start, size))
      ensures h in HashesOf(m.chunks)
    {
      var i :| 0 <= i < size && HashList(m, start, size)[i] == h;
      assert m.chunks[start + i] in m.chunks;
    }
  }

  /** The chunks before `done` have been pushed. */
  ghost predicate Pushed(rt: T.Tables, rt': T.Tables, m: FileManifest, done: nat) {
    && T.Fills(rt, rt') && done <= |m.chunks|
    && Cleared(rt, rt', m.id, HashesOf(m.chunks[..done]))
  }

  lemma PushedSoFar(rt: T.Tables, rt': T.Tables, m: FileManifest, done: nat)
    requires Pushed(rt, rt', m, done)
    ensures T.Fills(rt, rt')
  {
  }

  lemma NothingPushed(rt: T.Tables, m: FileManifest)
    ensures Pushed(rt, rt, m, 0)
  {
    T.FillsReflexive(rt);
    WithoutNothing(T.MissingChunks(rt, m.id));
    assert HashesOf(m.chunks[..0]) == {};
  }

  lemma PushedNext(rt: T.Tables, rt': T.Tables, rt'': T.Tables, m: FileManifest, done: nat, size: nat)
    requires Pushed(rt, rt', m, done) && done + size <= |m.chunks| && T.Fills(rt', rt'')
    ensures T.Fills(rt, rt'')
    ensures Cleared(rt', rt'', m.id, HashesOf(m.chunks[done..done + size])) ==> Pushed(rt, rt'', m, done + size)
  {
    T.FillsTransitive(rt, rt', rt'');
    var a, b := m.chunks[..done], m.chunks[done..done + size];
    WithoutTwice(T.MissingChunks(rt, m.id), HashesOf(a), HashesOf(b));
    assert m.chunks[..done + size] == a + b;
    assert HashesOf(a + b) == HashesOf(a) + HashesOf(b);
  }

  lemma AllPushed(rt: T.Tables, rt': T.Tables, m: FileManifest)
    requires Pushed(rt, rt', m, |m.chunks|)
    ensures T.Fills(rt, rt') && Cleared(rt, rt', m.id, HashesOf(m.chunks))
  {
    assert m.chunks[..|m.chunks|] == m.chunks;
  }

  lemma BatchHashes(m: FileManifest, start: nat, size: nat, hashes: seq<string>)
    requires start + size <= |m.chunks| && |hashes| == size
    requires forall i :: 0 <= i < size ==> hashes[i] == m.chunks[start + i].hash
    ensures HashSet(hashes) == HashesOf(m.chunks[start..start + size])
  {
    var part := m.chunks[start..start + size];
    forall h | h in HashSet(hashes)
      ensures h in HashesOf(part)
    {
      var i :| 0 <= i < size && hashes[i] == h;
      assert part[i] in part && part[i].hash == h;
    }
    forall h | h in HashesOf(part)
      ensures h in HashSet(hashes)
    {
      var i :| 0 <= i < size && part[i].hash == h;
      assert hashes[i] == h;
    }
  }

  /** What the sender keeps of a file it has sent: the blobs, the manifest row and the event. */
  ghost predicate FileKept(t: T.Tables, t': T.Tables, peerId: DeviceId, m: FileManifest, e: EventEnvelope) {
    exists ingested :: KeptVia(t, ingested, t', peerId, m, e)
  }

  ghost predicate KeptVia(
    t: T.Tables, ingested: T.Tables, t': T.Tables, peerId: DeviceId, m: FileManifest, e: EventEnvelope) {
    && T.Fills(t, ingested) && HashesOf(m.chunks) <= ingested.blobs.Keys
    && var saved := T.SaveManifest(ingested, peerId, m);
    t' == saved.(events := Insert(saved.events, e))
  }

  lemma FillsKeys(t: T.Tables, t': T.Tables)
    requires T.Fills(t, t')
    ensures t'.events == t.events && t'.manifests.Keys == t.manifests.Keys && t'.chunks.Keys == t.chunks.Keys
  {
  }

  /** A manifest saved for the first time is complete if its chunks are stored. */
  lemma SavedComplete(t: T.Tables, t': T.Tables, peerId: DeviceId, m: FileManifest)
    requires HashesOf(m.chunks) <= t.blobs.Keys && T.Saved(t, t', peerId, m)
    ensures t'.events == t.events && m.id in t'.manifests
    ensures m.id !in t.manifests && m.id !in t.chunks ==> t'.manifests[m.id] == T.ManifestRow(peerId, m, true)
  {
    forall row | row in t'.chunks[m.id] && m.id !in t.chunks
      ensures row.present
    {
      assert row !in T.RowsOf(t, m.id);
      var k: nat :| FromFirst(row, m.chunks, k);
      assert m.chunks[k] in m.chunks;
    }
  }

  /** The receiver has seen nothing, or the event and some of the chunks. */
  ghost predicate FileOffered(
    prim: Primitives, B: Identity, sender: PublicIdentity, e: EventEnvelope, rt: T.Tables, rt': T.Tables)
  {
    rt' == rt || T.Fills(Protocol.HandlePush(prim, B, rt, sender, e).t, rt')
  }

  /** The receiver has acknowledged the event and all chunks. */
  ghost predicate FilePushed(
    prim: Primitives, B: Identity, sender: PublicIdentity, e: EventEnvelope, m: FileManifest, rt: T.Tables,
    rt': T.Tables)
  {
    var o := Protocol.HandlePush(prim, B, rt, sender, e);
    && o.body == Ack(e.id) && T.Fills(o.t, rt')
    && Cleared(o.t, rt', m.id, HashesOf(m.chunks))
  }

  /** `rounds` rounds have been made; each but the last cleared a full batch. */
  ghost predicate Fetching(t: T.Tables, t': T.Tables, id: string, rounds: nat) {
    var total, left := |T.MissingChunks(t, id)|, |T.MissingChunks(t', id)|;
    && T.Fills(t, t') && t'.manifests == t.manifests
    && (left == 0 || BATCH * rounds + left <= total)
    && BATCH * rounds < total + BATCH
  }

  lemma BatchClears(missing: seq<string>)
    ensures |FirstBatch(missing)| <= BATCH
    ensures |Without(missing, HashSet(FirstBatch(missing)))| <= |missing| - |FirstBatch(missing)|
  {
    WithoutPrefix(missing, |FirstBatch(missing)|, HashSet(FirstBatch(missing)));
  }

  /** The request for these chunks and its answer fit a frame. */
  ghost predicate BatchCarried(
    prim: Primitives, client: PublicIdentity, server: Identity, id: string, rt: T.Tables, batch: seq<string>,
    nonces: nat -> Bytes)
  {
    Carried(client, server.public, ChunkRequest(id, batch),
            Protocol.HandleChunkRequest(prim, server, rt, client, id, batch, nonces).body)
  }

  /** So do those of all rounds that are needed when these chunks are missing. */
  ghost predicate RoundsCarried(
    prim: Primitives, client: PublicIdentity, server: Identity, id: string, rt: T.Tables, missing: seq<string>,
    nonces: nat -> Bytes)
    decreases |missing|
  {
    if missing == [] then true
    else
      BatchIsSome(missing);
      BatchClears(missing);
      && BatchCarried(prim, client, server, id, rt, FirstBatch(missing), nonces)
      && RoundsCarried(prim, client, server, id, rt, Without(missing, HashSet(FirstBatch(missing))), nonces)
  }

  /** So do those of any batch that may come to be asked for while chunks arrive. */
  ghost predicate AnyBatchCarried(
    prim: Primitives, client: PublicIdentity, server: Identity, id: string, rt: T.Tables, rows: seq<ChunkRow>,
    nonces: nat -> Bytes)
  {
    forall rows' :: T.Raised(rows, rows') && Missing(rows') != [] ==>
      BatchCarried(prim, client, server, id, rt, FirstBatch(Missing(rows')), nonces)
  }

  lemma {:induction false} AnyBatchRounds(
    prim: Primitives, client: PublicIdentity, server: Identity, id: string, rt: T.Tables, rows: seq<ChunkRow>,
    rows': seq<ChunkRow>, nonces: nat -> Bytes)
    requires AnyBatchCarried(prim, client, server, id, rt, rows, nonces) && T.Raised(rows, rows')
    ensures RoundsCarried(prim, client, server, id, rt, Missing(rows'), nonces)
    decreases |Missing(rows')|
  {
    hide BatchCarried, FirstBatch, Without;
    var missing := Missing(rows');
    if missing != [] {
      BatchIsSome(missing);
      BatchClears(missing);
      var gone := HashSet(FirstBatch(missing));
      MissingAfterMarkAll(rows', gone);
      assert T.Raised(rows', MarkAll(rows', gone));
      T.RaisedTransitive(rows, rows', MarkAll(rows', gone));
      AnyBatchRounds(prim, client, server, id, rt, rows, MarkAll(rows', gone), nonces);
    }
  }

  /** Any batch of any incomplete file of the peer. */
  ghost predicate AllBatchesCarried(
    prim: Primitives, client: PublicIdentity, server: Identity, peerId: DeviceId, t: T.Tables, rt: T.Tables,
    nonces: nat -> Bytes)
  {
    forall id :: id in T.IncompleteFor(t, peerId) ==>
      AnyBatchCarried(prim, client, server, id, rt, T.RowsOf(t, id), nonces)
  }

  lemma RoundsStillCarried(
    prim: Primitives, client: PublicIdentity, server: Identity, peerId: DeviceId, t: T.Tables, t': T.Tables,
    rt: T.Tables, id: string, nonces: nat -> Bytes)
    requires T.Fills(t, t') && id in T.IncompleteFor(t, peerId)
    ensures AllBatchesCarried(prim, client, server, peerId, t, rt, nonces) ==>
      RoundsCarried(prim, client, server, id, rt, T.MissingChunks(t', id), nonces)
  {
    hide AnyBatchCarried, RoundsCarried;
    if AllBatchesCarried(prim, client, server, peerId, t, rt, nonces) {
      T.FillsRaised(t, t', id);
      AnyBatchRounds(prim, client, server, id, rt, T.RowsOf(t, id), T.RowsOf(t', id), nonces);
    }
  }

  lemma BatchIsSome(missing: seq<string>)
    requires missing != []
    ensures |FirstBatch(missing)| > 0
  {
  }

  lemma NothingFetched(t: T.Tables, id: string)
    ensures Fetching(t, t, id, 0)
  {
    T.FillsReflexive(t);
  }

  lemma FetchedSoFar(t: T.Tables, t': T.Tables, id: string, rounds: nat)
    requires Fetching(t, t', id, rounds)
    ensures T.Fills(t, t') && t'.manifests == t.manifests && BATCH * rounds < |T.MissingChunks(t, id)| + BATCH
  {
  }

  lemma FetchingNext(t: T.Tables, t': T.Tables, t'': T.Tables, id: string, rounds: nat)
    requires Fetching(t, t', id, rounds) && T.MissingChunks(t', id) != []
    requires T.Fills(t', t'') && t''.manifests == t'.manifests
    ensures T.Fills(t, t'') && BATCH * (rounds + 1) < |T.MissingChunks(t, id)| + BATCH
    ensures |T.MissingChunks(t'', id)| <= |T.MissingChunks(t', id)| - |FirstBatch(T.MissingChunks(t', id))|
        ==> Fetching(t, t'', id, rounds + 1)
  {
    T.FillsTransitive(t, t', t'');
  }

  /** The first `k` of the manifests have been completed. */
  ghost predicate Resumed(t: T.Tables, t': T.Tables, ms: seq<FileManifest>, k: nat) {
    && T.Fills(t, t') && CompleteKept(t, t')
    && forall i :: 0 <= i < k <= |ms| ==> ms[i].id in t'.manifests && t'.manifests[ms[i].id].complete
  }

  lemma NothingResumed(t: T.Tables, ms: seq<FileManifest>)
    ensures Resumed(t, t, ms, 0)
  {
    T.FillsReflexive(t);
  }

  lemma ResumedSoFar(t: T.Tables, t': T.Tables, ms: seq<FileManifest>, k: nat)
    requires Resumed(t, t', ms, k)
    ensures T.Fills(t, t') && CompleteKept(t, t')
  {
  }

  lemma ResumedNext(t: T.Tables, t': T.Tables, t'': T.Tables, ms: seq<FileManifest>, k: nat)
    requires Resumed(t, t', ms, k) && k < |ms|
    requires T.Fills(t', t'') && CompleteKept(t', t'')
    ensures T.Fills(t, t'') && CompleteKept(t, t'')
    ensures (ms[k].id in t''.manifests ==> t''.manifests[ms[k].id].complete) && ms[k].id in t.manifests
        ==> Resumed(t, t'', ms, k + 1)
  {
    T.FillsTransitive(t, t', t'');
  }

  lemma NoneLeft(prim: Primitives, t: T.Tables, t': T.Tables, peer: DeviceId, ms: seq<FileManifest>)
    requires T.Sound(prim, t) && Resumed(t, t', ms, |ms|)
    requires forall m :: m in ms <==> m.id in T.IncompleteFor(t, peer) && m == t.manifests[m.id].manifest
    ensures T.IncompleteFor(t', peer) == {}
  {
    forall id | id in t'.manifests && t'.manifests[id].peer == peer
      ensures t'.manifests[id].complete
    {
      if !t.manifests[id].complete {
        assert t.manifests[id].manifest in ms;
      }
    }
  }

  /** What a successful sync of device `A` with device `B` amounts to: `B` has admitted the events
      `A` wrote, `A` has admitted the events `B` answered with, and no file from `B` is incomplete. */
  ghost predicate Synced(
    prim: Primitives, rprim: Primitives, A: Identity, B: Identity, peerId: DeviceId,
    a: T.Tables, b: T.Tables, a': T.Tables, b': T.Tables)
  {
    && T.Sound(prim, a) && T.Sound(rprim, b) && peerId in a.peers
    && var stream := DirectStreamId(A.public.deviceId, peerId);
    var o := Protocol.HandleSync(
      rprim, B, b, A.public, stream, StreamIds(a, stream), OwnEvents(A.public.deviceId, a, stream));
    && o.body.SyncResult? && b' == o.t
    && var (a1, ok) := AdmitAll(prim, A, a, a.peers[peerId].identity, o.body.events);
    ok && T.Fills(a1, a') && T.IncompleteFor(a', a.peers[peerId].identity.deviceId) == {}
  }

  /** How far a sync can have got when it fails: nothing has happened; or `B` has handled the request;
      or `A` has then admitted the answer, up to an event it refuses, and perhaps fetched some chunks. */
  ghost predicate Partway(
    prim: Primitives, rprim: Primitives, A: Identity, B: Identity, peerId: DeviceId,
    a: T.Tables, b: T.Tables, a': T.Tables, b': T.Tables)
  {
    && T.Sound(prim, a) && T.Sound(rprim, b) && peerId in a.peers
    && var stream := DirectStreamId(A.public.deviceId, peerId);
    var o := Protocol.HandleSync(
      rprim, B, b, A.public, stream, StreamIds(a, stream), OwnEvents(A.public.deviceId, a, stream));
    || (a' == a && (b' == b || b' == o.t))
    || (o.body.SyncResult? && b' == o.t && T.Fills(AdmitAll(prim, A, a, a.peers[peerId].identity, o.body.events).0, a'))
  }

  /** All that a sync of `A` with `B` depends on besides the link and the frames: the device reached is the
      expected one, it admits the events sent, its answer is admitted, and it can help with the files then missing. */
  ghost predicate CanSync(
    prim: Primitives, rprim: Primitives, A: Identity, B: Identity, peerId: DeviceId, a: T.Tables, b: T.Tables)
  {
    && prim == rprim && T.Sound(prim, a) && T.Sound(prim, b)
    && Reachable(a, peerId) && T.IsPaired(a, peerId)
    && var peer := T.LookupPeer(a.peers, peerId).value;
    && Connects(prim, prim, A.public, B.public, peer)
    && var stream := DirectStreamId(A.public.deviceId, peerId);
    var o := Protocol.HandleSync(
      prim, B, b, A.public, stream, StreamIds(a, stream), OwnEvents(A.public.deviceId, a, stream));
    && o.body.SyncResult?
    && var (a1, ok) := AdmitAll(prim, A, a, peer.identity, o.body.events);
    ok && CanHelpAll(prim, A, B, peer, a1, o.t)
  }

  /** The peers of `A` after it has recorded `B` as paired, and the tables of `B` after it has handled the request. */
  function PairedTables(a: T.Tables, B: PublicIdentity, endpoint: Option<Endpoint>, now: int): T.Tables {
    a.(peers := T.UpsertPeer(a.peers, Peer(B, endpoint, true, now)))
  }

  /** The two frames of the exchange of events fit. */
  ghost predicate EventsCarried(
    rprim: Primitives, A: Identity, B: Identity, peerId: DeviceId, a: T.Tables, b: T.Tables)
    requires KeyedById(a.events) && T.Sound(rprim, b)
  {
    var stream := DirectStreamId(A.public.deviceId, peerId);
    var known, own := StreamIds(a, stream), OwnEvents(A.public.deviceId, a, stream);
    Carried(A.public, B.public, SyncExchange(stream, known, own),
            Protocol.HandleSync(rprim, B, b, A.public, stream, known, own).body)
  }

  /** All frames of a sync fit. */
  ghost predicate SyncCarried(
    prim: Primitives, A: Identity, B: Identity, peerId: DeviceId, a: T.Tables, b: T.Tables, nonces: nat -> Bytes)
  {
    && T.Sound(prim, a) && T.Sound(prim, b) && peerId in a.peers && EventsCarried(prim, A, B, peerId, a, b)
    && var stream := DirectStreamId(A.public.deviceId, peerId);
    var peer := a.peers[peerId].identity;
    var o := Protocol.HandleSync(
      prim, B, b, A.public, stream, StreamIds(a, stream), OwnEvents(A.public.deviceId, a, stream));
    && o.body.SyncResult?
    && AllBatchesCarried(
         prim, A.public, B, peer.deviceId, AdmitAll(prim, A, a, peer, o.body.events).0, o.t, nonces)
  }

  /** All frames of a pairing fit. */
  ghost predicate PairCarried(
    prim: Primitives, A: Identity, B: Identity, peerId: DeviceId, pairingNonce: string, a: T.Tables, b: T.Tables,
    now: int, nonces: nat -> Bytes)
  {
    && Carried(A.public, B.public, PairRequest(pairingNonce), PairResponse(true)) && Reachable(a, peerId)
    && SyncCarried(prim, A, B, peerId, PairedTables(a, B.public, T.LookupPeer(a.peers, peerId).value.endpoint, now),
                   Protocol.HandlePair(b, A.public, now).t, nonces)
  }

  /** All that pairing depends on besides the link and the frames: the device reached is the one expected, and the sync
      that follows can succeed. */
  ghost predicate CanPair(
    prim: Primitives, rprim: Primitives, A: Identity, B: Identity, peerId: DeviceId, a: T.Tables, b: T.Tables, now: int)
  {
    && Reachable(a, peerId) && peerId == B.public.deviceId
    && var peer := T.LookupPeer(a.peers, peerId).value;
    && Connects(prim, rprim, A.public, B.public, peer)
    && CanSync(prim, rprim, A, B, peerId, PairedTables(a, B.public, peer.endpoint, now),
       Protocol.HandlePair(b, A.public, now).t)
  }

  /** The request to pair gets through to the device expected, and its answer back. */
  ghost predicate PairAccepted(
    prim: Primitives, rprim: Primitives, A: Identity, B: Identity, peerId: DeviceId, pairingNonce: string, fate: Fate,
    a: T.Tables)
  {
    && Reachable(a, peerId) && fate.Delivered?
    && Connects(prim, rprim, A.public, B.public, T.LookupPeer(a.peers, peerId).value)
    && Carried(A.public, B.public, PairRequest(pairingNonce), PairResponse(true))
  }

  /** What `CanSync` and `SyncCarried` say of the steps of a sync. */
  lemma CanSyncMeans(
    prim: Primitives, rprim: Primitives, A: Identity, B: Identity, peerId: DeviceId, a: T.Tables, b: T.Tables,
    nonces: nat -> Bytes)
    requires T.Sound(prim, a) && T.Sound(rprim, b)
    ensures CanSync(prim, rprim, A, B, peerId, a, b) ==>
      Reachable(a, peerId) && T.IsPaired(a, peerId) &&
      var peer := T.LookupPeer(a.peers, peerId).value;
      var stream := DirectStreamId(A.public.deviceId, peerId);
      var o := Protocol.HandleSync(
        rprim, B, b, A.public, stream, StreamIds(a, stream), OwnEvents(A.public.deviceId, a, stream));
      && prim == rprim && Connects(prim, rprim, A.public, B.public, peer) && o.body.SyncResult?
      && var (a1, ok) := AdmitAll(prim, A, a, peer.identity, o.body.events);
      && ok && CanHelpAll(prim, A, B, peer, a1, o.t)
      && (SyncCarried(prim, A, B, peerId, a, b, nonces) ==>
            && EventsCarried(rprim, A, B, peerId, a, b)
            && AllBatchesCarried(prim, A.public, B, peer.identity.deviceId, a1, o.t, nonces))
  {
    hide T.Sound, AdmitAll, Protocol.HandleSync, CanHelpAll, EventsCarried, AllBatchesCarried, Connects;
  }

  lemma PartwayAtFirst(
    prim: Primitives, rprim: Primitives, A: Identity, B: Identity, peerId: DeviceId, a: T.Tables, b: T.Tables,
    b': T.Tables)
    requires T.Sound(prim, a) && T.Sound(rprim, b) && peerId in a.peers
    requires
      var stream := DirectStreamId(A.public.deviceId, peerId);
      b' == b || b' == Protocol.HandleSync(
        rprim, B, b, A.public, stream, StreamIds(a, stream), OwnEvents(A.public.deviceId, a, stream)).t
    ensures Partway(prim, rprim, A, B, peerId, a, b, a, b')
  {
    hide T.Sound, AdmitAll, Protocol.HandleSync;
  }

  /** `A` has been answered `es`. */
  ghost predicate AnsweredWith(
    prim: Primitives, rprim: Primitives, A: Identity, B: Identity, peerId: DeviceId, a: T.Tables, b: T.Tables,
    b': T.Tables, es: seq<EventEnvelope>)
  {
    && T.Sound(prim, a) && T.Sound(rprim, b) && peerId in a.peers
    && var stream := DirectStreamId(A.public.deviceId, peerId);
    var o := Protocol.HandleSync(
      rprim, B, b, A.public, stream, StreamIds(a, stream), OwnEvents(A.public.deviceId, a, stream));
    o.body == SyncResult(es) && b' == o.t
  }

  lemma PartwayLater(
    prim: Primitives, rprim: Primitives, A: Identity, B: Identity, peerId: DeviceId, a: T.Tables, b: T.Tables,
    a': T.Tables, b': T.Tables, es: seq<EventEnvelope>)
    requires AnsweredWith(prim, rprim, A, B, peerId, a, b, b', es)
    requires T.Fills(AdmitAll(prim, A, a, a.peers[peerId].identity, es).0, a')
    ensures Partway(prim, rprim, A, B, peerId, a, b, a', b')
  {
    hide T.Sound, AdmitAll, Protocol.HandleSync, T.Fills;
  }

  lemma SyncSucceeds(
    prim: Primitives, rprim: Primitives, A: Identity, B: Identity, peerId: DeviceId, a: T.Tables, b: T.Tables,
    a': T.Tables, b': T.Tables, es: seq<EventEnvelope>)
    requires AnsweredWith(prim, rprim, A, B, peerId, a, b, b', es)
    requires var (a1, ok) := AdmitAll(prim, A, a, a.peers[peerId].identity, es); ok && T.Fills(a1, a')
    requires T.IncompleteFor(a', a.peers[peerId].identity.deviceId) == {}
    requires Reachable(a, peerId)
    requires Connects(prim, rprim, A.public, B.public, T.LookupPeer(a.peers, peerId).value)
    ensures Synced(prim, rprim, A, B, peerId, a, b, a', b')
    ensures CaughtUp(A.public.deviceId, B.public.deviceId, DirectStreamId(A.public.deviceId, peerId), a, a', b')
  {
    hide T.Sound, AdmitAll, Protocol.HandleSync, T.Fills, T.IncompleteFor, CaughtUp;
    SyncedCatchesUp(prim, rprim, A, B, peerId, a, b, a', b');
  }

  lemma KeptTwice(a: T.Tables, a1: T.Tables, a': T.Tables)
    requires EventsKept(a, a1) && EventsKept(a1, a')
    ensures EventsKept(a, a')
  {
  }

  lemma SameCaughtUp(
    A: DeviceId, B: DeviceId, stream: string, a: T.Tables, a1: T.Tables, a': T.Tables, b': T.Tables)
    requires a1.events == a.events && CaughtUp(A, B, stream, a1, a', b')
    ensures CaughtUp(A, B, stream, a, a', b')
  {
  }

  lemma BothPaired(A: Identity, B: Identity, a: T.Tables, b: T.Tables, a': T.Tables, b': T.Tables)
    requires T.IsPaired(a, B.public.deviceId) && T.IsPaired(b, A.public.deviceId)
    requires a'.peers == a.peers && b'.peers == b.peers
    ensures PairedBothWays(A, B, a', b')
  {
  }

  lemma RecordedKeeps(a: T.Tables, B: PublicIdentity, endpoint: Option<Endpoint>, now: int, peerId: DeviceId)
    ensures PairedTables(a, B, endpoint, now).events == a.events
    ensures EventsKept(a, PairedTables(a, B, endpoint, now))
    ensures T.IsPaired(PairedTables(a, B, endpoint, now), B.deviceId)
    ensures peerId == B.deviceId ==> peerId in PairedTables(a, B, endpoint, now).peers
  {
  }

  lemma CanPairMeans(
    prim: Primitives, rprim: Primitives, A: Identity, B: Identity, peerId: DeviceId, pairingNonce: string, a: T.Tables,
    b: T.Tables, now: int, nonces: nat -> Bytes)
    ensures CanPair(prim, rprim, A, B, peerId, a, b, now) ==>
      Reachable(a, peerId) && peerId == B.public.deviceId &&
      var peer := T.LookupPeer(a.peers, peerId).value;
      var paired, b1 := PairedTables(a, B.public, peer.endpoint, now), Protocol.HandlePair(b, A.public, now).t;
      && Connects(prim, rprim, A.public, B.public, peer) && CanSync(prim, rprim, A, B, peerId, paired, b1)
      && (PairCarried(prim, A, B, peerId, pairingNonce, a, b, now, nonces) ==>
            && Carried(A.public, B.public, PairRequest(pairingNonce), PairResponse(true))
            && SyncCarried(prim, A, B, peerId, paired, b1, nonces))
  {
    hide CanSync, SyncCarried, Carried, Protocol.HandlePair, PairedTables, Connects;
  }

  lemma KeepsOwn(t: T.Tables)
    ensures EventsKept(t, t)
  {
  }

  lemma FillsKeepEvents(a: T.Tables, a1: T.Tables, a': T.Tables)
    requires EventsKept(a, a1) && T.Fills(a1, a')
    ensures EventsKept(a, a') && |a'.events| == |a1.events|
  {
  }

  lemma KnownIds(t: T.Tables, stream: string)
    requires KeyedById(t.events)
    ensures (set e | e in Events(t.events, stream) :: e.id) == StreamIds(t, stream)
  {
    forall id | id in StreamIds(t, stream)
      ensures exists e :: e in Events(t.events, stream) && e.id == id
    {
      assert t.events[id] in Elements(Events(t.events, stream));
    }
    forall e | e in Events(t.events, stream)
      ensures e.id in StreamIds(t, stream)
    {
      assert e in Elements(Events(t.events, stream));
    }
  }

  lemma SyncKeepsEvents(
    prim: Primitives, me: Identity, t: T.Tables, sender: PublicIdentity, stream: string, known: set<string>,
    events: seq<EventEnvelope>)
    requires T.Sound(prim, t)
    ensures EventsKept(t, Protocol.HandleSync(prim, me, t, sender, stream, known, events).t)
  {
    AdmitAllKeeps(prim, me, t, sender, events);
  }

  lemma SyncKeepsPeers(
    prim: Primitives, rprim: Primitives, A: Identity, B: Identity, peerId: DeviceId,
    a: T.Tables, b: T.Tables, a': T.Tables, b': T.Tables)
    requires Synced(prim, rprim, A, B, peerId, a, b, a', b')
    ensures a'.peers == a.peers && b'.peers == b.peers
  {
    var stream := DirectStreamId(A.public.deviceId, peerId);
    var sent := OwnEvents(A.public.deviceId, a, stream);
    var o := Protocol.HandleSync(rprim, B, b, A.public, stream, StreamIds(a, stream), sent);
    AdmitAllKeeps(rprim, B, b, A.public, sent);
    AdmitAllKeeps(prim, A, a, a.peers[peerId].identity, o.body.events);
  }

  /** `A` and `B` have caught up with each other in a stream: `B` stores all that `A` wrote there by `a`, `A` all that
      `B` has written, and no file from `B` is incomplete. */
  ghost predicate CaughtUp(A: DeviceId, B: DeviceId, stream: string, a: T.Tables, a': T.Tables, b': T.Tables) {
    && (forall id :: id in a.events && a.events[id].stream == stream && a.events[id].author == A ==> id in b'.events)
    && (forall id :: id in b'.events && b'.events[id].stream == stream && b'.events[id].author == B ==> id in a'.events)
    && (forall id :: id in a'.manifests && a'.manifests[id].peer == B ==> a'.manifests[id].complete)
  }

  /** A successful sync does that. */
  lemma SyncedCatchesUp(
    prim: Primitives, rprim: Primitives, A: Identity, B: Identity, peerId: DeviceId,
    a: T.Tables, b: T.Tables, a': T.Tables, b': T.Tables)
    requires Synced(prim, rprim, A, B, peerId, a, b, a', b')
    requires a.peers[peerId].identity.deviceId == B.public.deviceId
    ensures
      CaughtUp(A.public.deviceId, B.public.deviceId, DirectStreamId(A.public.deviceId, peerId), a, a', b')
  {
    hide Protocol.HandleSync, T.Sound, AdmitAll, OwnEvents, T.IncompleteFor, CaughtUp, Answers;
    var S := DirectStreamId(A.public.deviceId, peerId);
    T.SoundIsKeyed(prim, a);
    var own := OwnEvents(A.public.deviceId, a, S);
    var o := Protocol.HandleSync(rprim, B, b, A.public, S, StreamIds(a, S), own);
    RequestServed(rprim, B, b, A.public, S, a);
    var peer := a.peers[peerId].identity;
    AnswerStored(prim, A, B.public.deviceId, peer, S, a, b', o.body.events);
    NoneIncomplete(a', peer.deviceId);
    InBoth(A.public.deviceId, B.public.deviceId, S, a, a', b', AdmitAll(prim, A, a, peer, o.body.events).0);
  }

  lemma InBoth(A: DeviceId, B: DeviceId, stream: string, a: T.Tables, a': T.Tables, b': T.Tables, a1: T.Tables)
    requires forall id ::
      id in a.events && a.events[id].stream == stream && a.events[id].author == A ==> id in b'.events
    requires forall id ::
      id in b'.events && b'.events[id].stream == stream && b'.events[id].author == B ==> id in a1.events
    requires T.Fills(a1, a')
    requires forall id :: id in a'.manifests && a'.manifests[id].peer == B ==> a'.manifests[id].complete
    ensures CaughtUp(A, B, stream, a, a', b')
  {
    hide T.Raised;
  }

  lemma ServedIsSound(
    prim: Primitives, me: Identity, t: T.Tables, sender: PublicIdentity, stream: string, known: set<string>,
    events: seq<EventEnvelope>)
    requires T.Sound(prim, t)
    ensures T.Sound(prim, Protocol.HandleSync(prim, me, t, sender, stream, known, events).t)
  {
    AdmitAllSound(prim, me, t, sender, events);
  }

  lemma RequestServed(
    rprim: Primitives, B: Identity, b: T.Tables, A: PublicIdentity, stream: string, a: T.Tables)
    requires T.Sound(rprim, b) && KeyedById(a.events)
    ensures
      var o := Protocol.HandleSync(rprim, B, b, A, stream, StreamIds(a, stream), OwnEvents(A.deviceId, a, stream));
      o.body.SyncResult? ==>
        && KeyedById(o.t.events) && Answers(B.public.deviceId, o.t.events, stream, StreamIds(a, stream), o.body.events)
        && forall id :: id in a.events && a.events[id].stream == stream && a.events[id].author == A.deviceId ==>
             id in o.t.events
  {
    var own := OwnEvents(A.deviceId, a, stream);
    var o := Protocol.HandleSync(rprim, B, b, A, stream, StreamIds(a, stream), own);
    ServedIsSound(rprim, B, b, A, stream, StreamIds(a, stream), own);
    hide OpenItem, T.Sound, ManifestsFrom, OwnEvents, Answers, Protocol.HandleSync;
    SyncIsServedExactlyWhen(rprim, B, b, A, stream, StreamIds(a, stream), own, 0, (k: nat) => []);
    if o.body.SyncResult? {
      T.SoundIsKeyed(rprim, o.t);
      OwnStored(A.deviceId, a, o.t, stream);
    }
  }

  lemma OwnStored(A: DeviceId, a: T.Tables, b': T.Tables, stream: string)
    requires KeyedById(a.events) && forall e :: e in OwnEvents(A, a, stream) && e.author == A ==> e.id in b'.events
    ensures forall id :: id in a.events && a.events[id].stream == stream && a.events[id].author == A ==> id in b'.events
  {
    OwnMembers(A, a, stream);
    hide OwnEvents;
    forall id | id in a.events && a.events[id].stream == stream && a.events[id].author == A
      ensures id in b'.events
    {
      assert a.events[id] in OwnEvents(A, a, stream);
    }
  }

  lemma AnswerStored(
    prim: Primitives, A: Identity, B: DeviceId, peer: PublicIdentity, stream: string, a: T.Tables, b': T.Tables,
    es: seq<EventEnvelope>)
    requires KeyedById(b'.events) && Answers(B, b'.events, stream, StreamIds(a, stream), es) && peer.deviceId == B
    requires AdmitAll(prim, A, a, peer, es).1
    ensures forall id :: id in b'.events && b'.events[id].stream == stream && b'.events[id].author == B ==>
      id in AdmitAll(prim, A, a, peer, es).0.events
  {
    AdmitAllExactly(prim, A, a, peer, es);
    hide AdmitAll, OpenItem;
    forall id | id in b'.events && b'.events[id].stream == stream && b'.events[id].author == B && id !in a.events
      ensures id in AdmitAll(prim, A, a, peer, es).0.events
    {
      assert b'.events[id] in es;
    }
  }

  lemma NoneIncomplete(t: T.Tables, peer: DeviceId)
    requires T.IncompleteFor(t, peer) == {}
    ensures forall id :: id in t.manifests && t.manifests[id].peer == peer ==> t.manifests[id].complete
  {
    assert forall id :: id in t.manifests && t.manifests[id].peer == peer && !t.manifests[id].complete ==>
      id in T.IncompleteFor(t, peer);
  }

  ghost predicate PairedBothWays(A: Identity, B: Identity, a: T.Tables, b: T.Tables) {
    T.IsPaired(a, B.public.deviceId) && T.IsPaired(b, A.public.deviceId)
  }

  /** `count` rounds for the file have been reported since `told`. */
  ghost predicate Reported(told: seq<Notice>, notices: seq<Notice>, m: FileManifest, count: int) {
    && |notices| == |told| + count && told <= notices
    && forall k :: |told| <= k < |notices| ==>
         notices[k].FileProgress? && notices[k].manifestId == m.id && notices[k].total == |m.chunks|
  }

  /** Only progress and completion of files have been reported since `told`. */
  ghost predicate FilesReported(told: seq<Notice>, notices: seq<Notice>) {
    && told <= notices
    && forall k :: |told| <= k < |notices| ==> notices[k].FileProgress? || notices[k].FileComplete?
  }

  /** After that, a sync that has received `count` events is reported as complete. */
  ghost predicate SyncReported(told: seq<Notice>, notices: seq<Notice>, peerId: DeviceId, count: int) {
    && notices != [] && FilesReported(told, notices[..|notices| - 1])
    && var last := notices[|notices| - 1];
    last.SyncComplete? && last.peerId == peerId && last.receivedEvents == count
  }

  /** The new peer is reported, then the sync that follows. */
  ghost predicate PairReported(told: seq<Notice>, notices: seq<Notice>, t: T.Tables, peerId: DeviceId, count: int) {
    var p := T.LookupPeer(t.peers, peerId);
    p.Some? && SyncReported(told + [Paired(p.value)], notices, peerId, count)
  }

  lemma EndReported(told: seq<Notice>, notices: seq<Notice>, peerId: DeviceId, count: nat)
    requires FilesReported(told, notices)
    ensures SyncReported(told, notices + [SyncComplete(peerId, count)], peerId, count)
  {
    assert (notices + [SyncComplete(peerId, count)])[..|notices|] == notices;
  }

  lemma NothingReported(told: seq<Notice>)
    ensures FilesReported(told, told)
  {
  }

  lemma ReportedMore(told: seq<Notice>, before: seq<Notice>, after: seq<Notice>, m: FileManifest, count: int)
    requires FilesReported(told, before)
    ensures Reported(before, after, m, count) ==> FilesReported(told, after)
    ensures after != [] && after[|after| - 1].FileComplete? && Reported(before, after[..|after| - 1], m, count) ==>
      FilesReported(told, after)
  {
    if after != [] && after[|after| - 1].FileComplete? && Reported(before, after[..|after| - 1], m, count) {
      var most := after[..|after| - 1];
      assert most <= after;
      forall k | |told| <= k < |after|
        ensures after[k].FileProgress? || after[k].FileComplete?
      {
        assert k < |most| ==> after[k] == most[k];
        assert k < |before| ==> after[k] == before[k];
      }
    }
  }

  class Node {
    const me: Identity
    const store: Store
    var notices: seq<Notice>

    constructor (me: Identity, store: Store)
      ensures this.me == me && this.store == store && notices == []
    {
      this.me, this.store, notices := me, store, [];
    }

    ghost predicate Valid()
      reads this, store
    {
      store.Valid()
    }

    ghost function View(): T.Tables
      reads this, store
    {
      store.View()
    }

    // ---------- Server side ----------

    method OpenEvent(peer: PublicIdentity, e: EventEnvelope) returns (r: Result<ChatItem>)
      ensures r == OpenItem(store.prim, me, peer, e)
    {
      r := OpenItem(store.prim, me, peer, e);
    }

    method ProcessManifest(peer: PublicIdentity, e: EventEnvelope)
      requires Valid() && OpenItem(store.prim, me, peer, e).Ok?
      modifies store
      ensures Valid()
      ensures View() == match ManifestIn(e, OpenItem(store.prim, me, peer, e).value.payload)
                        case None => old(View())
                        case Some(m) => T.SaveManifest(old(View()), peer.deviceId, m)
    {
      if e.kind != ManifestKind {
        return;
      }
      var item := OpenEvent(peer, e);
      match item.value.payload {
        case ManifestPayload(m) => store.SaveManifest(peer.deviceId, m);
        case _ =>
      }
    }

    /** The loop over received events, shared by server and client. */
    method Receive(peer: PublicIdentity, es: seq<EventEnvelope>) returns (ok: bool, received: nat)
      requires Valid()
      modifies store
      ensures Valid()
      ensures (View(), ok) == AdmitAll(store.prim, me, old(View()), peer, es)
      ensures received == |store.events| - |old(store.events)|
    {
      received := 0;
      var k := 0;
      while k < |es|
        invariant 0 <= k <= |es| && Valid()
        invariant AdmitAll(store.prim, me, View(), peer, es[k..]) == AdmitAll(store.prim, me, old(View()), peer, es)
        invariant received == |store.events| - |old(store.events)|
      {
        var e := es[k];
        assert es[k..][0] == e && es[k..][1..] == es[k + 1..];
        k := k + 1;
        if e.author != peer.deviceId {
          continue;
        }
        var item := OpenEvent(peer, e);
        if item.Err? {
          return false, received;
        }
        var added := store.InsertEvent(e);
        if added {
          received := received + 1;
          ProcessManifest(peer, e);
        }
      }
      return true, received;
    }

    method HandlePair(sender: PublicIdentity, now: int) returns (reply: Message)
      requires Valid()
      modifies this, store
      ensures Valid()
      ensures Follows(Protocol.HandlePair(old(View()), sender, now), old(notices), View(), reply, notices)
    {
      var known := store.GetPeer(sender.deviceId);
      var endpoint := if known.Some? then known.value.endpoint else None;
      store.SetPeerPaired(sender, endpoint, now);
      var stored := store.GetPeer(sender.deviceId);
      assert stored.Some?;
      notices := notices + [Paired(stored.value)];
      reply := PairResponse(true);
    }

    method RequireSenderPaired(sender: PublicIdentity) returns (r: Result<Peer>)
      ensures r.Ok? <==> Trusts(View(), sender)
      ensures r.Ok? <==> PairedAs(store.peers, sender)
      ensures r.Err? ==> r.message == Distrust(View(), sender)
    {
      var peer := store.GetPeer(sender.deviceId);
      match peer {
        case None => return Err("unknown sender");
        case Some(p) =>
          if !p.paired {
            return Err("sender is not paired");
          }
          if p.identity != sender {
            return Err("paired identity changed");
          }
          return Ok(p);
      }
    }

    method HandlePush(sender: PublicIdentity, e: EventEnvelope) returns (reply: Message)
      requires Valid()
      modifies this, store
      ensures Valid()
      ensures Follows(Protocol.HandlePush(store.prim, me, old(View()), sender, e), old(notices), View(), reply, notices)
    {
      var trusted := RequireSenderPaired(sender);
      if trusted.Err? {
        return Error(trusted.message);
      }
      if e.author != sender.deviceId {
        return Error("forwarded events are not accepted");
      }
      var item := OpenEvent(sender, e);
      if item.Err? {
        return Error(item.message);
      }
      var added := store.InsertEvent(e);
      if added {
        ProcessManifest(sender, e);
        notices := notices + [NewMessage(item.value)];
      }
      return Ack(e.id);
    }

    method HandleSync(
      sender: PublicIdentity, stream: string, known: set<string>, events: seq<EventEnvelope>) returns (reply: Message)
      requires Valid()
      modifies this, store
      ensures Valid()
      ensures Follows(Protocol.HandleSync(store.prim, me, old(View()), sender, stream, known, events), old(notices),
        View(), reply, notices)
    {
      var trusted := RequireSenderPaired(sender);
      if trusted.Err? {
        return Error(trusted.message);
      }
      if stream != DirectStreamId(me.public.deviceId, sender.deviceId) {
        return Error("invalid stream id");
      }
      var ok, _ := Receive(sender, events);
      if !ok {
        return Error("event refused");
      }
      var all := store.EventsOf(stream);
      return SyncResult(Unknown(known, By(me.public.deviceId, all)));
    }

    method HandleChunkRequest(
      sender: PublicIdentity, id: string, hashes: seq<string>, nonces: nat -> Bytes) returns (reply: Message)
      requires Valid()
      ensures (View(), reply)
           == var o := Protocol.HandleChunkRequest(store.prim, me, View(), sender, id, hashes, nonces); (o.t, o.body)
    {
      var trusted := RequireSenderPaired(sender);
      if trusted.Err? {
        return Error(trusted.message);
      }
      var manifest := store.GetManifest(id);
      if manifest == None {
        return Error("unknown manifest");
      }
      var asked := if |hashes| <= BATCH then hashes else hashes[..BATCH];
      var chunks := EncryptBatch(sender, manifest.value, asked, nonces);
      match chunks {
        case Err(m) => return Error(m);
        case Ok(batch) => return ChunkResult(id, batch);
      }
    }

    /** Encrypts the blobs of the given hashes for `peer`. */
    method EncryptBatch(
      peer: PublicIdentity, m: FileManifest, hashes: seq<string>, nonces: nat -> Bytes)
      returns (r: Result<seq<WireChunk>>)
      ensures r == ChunksFor(store.prim, me, View(), peer, m, hashes, nonces, 0)
    {
      var stream := DirectStreamId(me.public.deviceId, peer.deviceId);
      var allowed := HashesOf(m.chunks);
      var chunks: seq<WireChunk> := [];
      var k := 0;
      ghost var whole := ChunksFor(store.prim, me, View(), peer, m, hashes, nonces, 0);
      assert hashes[0..] == hashes;
      assert whole.Ok? ==> [] + whole.value == whole.value;
      while k < |hashes|
        invariant 0 <= k <= |hashes|
        invariant ChunksFor(store.prim, me, View(), peer, m, hashes, nonces, 0)
               == Prepend(chunks, ChunksFor(store.prim, me, View(), peer, m, hashes[k..], nonces, k))
      {
        assert hashes[k..][0] == hashes[k] && hashes[k..][1..] == hashes[k + 1..];
        if hashes[k] !in allowed {
          return Err("chunk is not part of manifest");
        }
        var blob := store.GetBlob(hashes[k]);
        if blob.Err? {
          return Err(blob.message);
        }
        var bytes := EncryptChunk(store.prim, me, peer, stream, m.id, hashes[k], blob.value, nonces(k));
        ghost var rest := ChunksFor(store.prim, me, View(), peer, m, hashes[k + 1..], nonces, k + 1);
        var chunk := WireChunk(hashes[k], nonces(k), bytes);
        if rest.Ok? {
          assert chunks + ([chunk] + rest.value) == (chunks + [chunk]) + rest.value;
        }
        chunks := chunks + [chunk];
        k := k + 1;
      }
      assert chunks + [] == chunks;
      return Ok(chunks);
    }

    /** Decrypts and stores chunks, shared by server and client. */
    method StoreBatch(
      peer: PublicIdentity, id: string, allowed: Option<set<string>>, chunks: seq<WireChunk>) returns (ok: bool)
      requires Valid()
      modifies store
      ensures Valid()
      ensures (View(), ok) == StoreChunks(store.prim, me, old(View()), peer, id, allowed, chunks)
    {
      var stream := DirectStreamId(me.public.deviceId, peer.deviceId);
      var k := 0;
      while k < |chunks|
        invariant 0 <= k <= |chunks| && Valid()
        invariant StoreChunks(store.prim, me, View(), peer, id, allowed, chunks[k..])
               == StoreChunks(store.prim, me, old(View()), peer, id, allowed, chunks)
      {
        var c := chunks[k];
        assert chunks[k..][0] == c && chunks[k..][1..] == chunks[k + 1..];
        if allowed.Some? && c.hash !in allowed.value {
          return false;
        }
        var clear := DecryptChunk(store.prim, me, peer, stream, id, c.hash, c.nonce, c.bytes);
        if clear.Err? {
          return false;
        }
        var put := store.PutBlob(c.hash, clear.value);
        if put.Err? {
          return false;
        }
        k := k + 1;
      }
      return true;
    }

    method HandlePushChunks(sender: PublicIdentity, id: string, chunks: seq<WireChunk>) returns (reply: Message)
      requires Valid()
      modifies this, store
      ensures Valid()
      ensures Follows(Protocol.HandlePushChunks(store.prim, me, old(View()), sender, id, chunks), old(notices), View(),
        reply, notices)
    {
      hide T.Sound;
      var trusted := RequireSenderPaired(sender);
      if trusted.Err? {
        return Error(trusted.message);
      }
      var manifest := store.GetManifest(id);
      if manifest == None {
        return Error("unknown manifest");
      }
      var m := manifest.value;
      ghost var told := notices;
      var ok := StoreBatch(sender, id, Some(HashesOf(m.chunks)), chunks);
      if !ok {
        return Error("chunk refused");
      }
      ghost var filled := View();
      EmitProgress(m, id);
      RefreshAndReport(m, id);
      ghost var complete := if T.MissingChunks(filled, id) == [] then [FileComplete(id, m.name)] else [];
      assert notices == told + ([Progress(filled, m, id)] + complete);
      return Ack(id);
    }

    method EmitProgress(m: FileManifest, id: string)
      requires Valid()
      modifies this
      ensures Valid() && View() == old(View())
      ensures notices == old(notices) + [Progress(View(), m, id)]
    {
      var remaining := store.MissingChunks(id);
      notices := notices + [FileProgress(id, |m.chunks| - |remaining|, |m.chunks|)];
    }

    method RefreshAndReport(m: FileManifest, id: string)
      requires Valid()
      modifies this, store
      ensures Valid() && View() == T.Refresh(old(View()), id)
      ensures notices == old(notices)
                         + if T.MissingChunks(old(View()), id) == [] then [FileComplete(id, m.name)] else []
    {
      var complete := store.RefreshManifestComplete(id);
      assert T.MissingChunks(View(), id) == T.MissingChunks(old(View()), id);
      if complete {
        notices := notices + [FileComplete(id, m.name)];
      }
    }

    method HandleMessage(sender: PublicIdentity, body: Message, now: int, nonces: nat -> Bytes) returns (reply: Message)
      requires Valid()
      modifies this, store
      ensures Valid()
      ensures Follows(Handle(store.prim, me, old(View()), sender, body, now, nonces), old(notices), View(), reply,
        notices)
    {
      match body {
        case Hello => reply := Hello;
        case PairRequest(_) => reply := HandlePair(sender, now);
        case PushEvent(e) => reply := HandlePush(sender, e);
        case SyncExchange(stream, known, events) => reply := HandleSync(sender, stream, known, events);
        case ChunkRequest(id, hashes) => reply := HandleChunkRequest(sender, id, hashes, nonces);
        case PushChunks(id, chunks) => reply := HandlePushChunks(sender, id, chunks);
        case _ => reply := Error("response message used as a request");
      }
    }

    /** A request from the network: a sender whose identity is not valid gets no answer, and neither does
        one whose answer does not fit a frame, although the request has been handled by then. */
    method HandleConnection(sender: PublicIdentity, body: Message, now: int, nonces: nat -> Bytes)
      returns (answered: bool, reply: Message)
      requires Valid()
      modifies this, store
      ensures Valid()
      ensures store.prim.validIdentity(sender) ==>
        && Follows(Handle(store.prim, me, old(View()), sender, body, now, nonces), old(notices), View(), reply, notices)
        && (answered <==> F.FitsFrame(me.public, reply))
      ensures !store.prim.validIdentity(sender) ==> !answered && View() == old(View()) && notices == old(notices)
    {
      if !store.prim.validIdentity(sender) {
        return false, Hello;
      }
      reply := HandleMessage(sender, body, now, nonces);
      answered := F.CheckFrame(me.public, reply);
    }

    // ---------- Client side ----------

    /** A request of `sender` to the endpoint of `peer`, where this device listens, is handled. */
    ghost predicate Hears(sender: PublicIdentity, peer: Peer, fate: Fate, body: Message) {
      peer.endpoint.Some? && !fate.LostRequest? && F.FitsFrame(sender, body) && store.prim.validIdentity(sender)
    }

    /** A device that is known and has an endpoint. */
    method RequireReachablePeer(id: DeviceId) returns (r: Result<Peer>)
      ensures r.Ok? <==> Reachable(View(), id)
      ensures r.Ok? <==> id in store.peers && store.peers[id].host.Some? && store.peers[id].port.Some?
      ensures r.Ok? ==> Some(r.value) == T.LookupPeer(store.peers, id)
    {
      var peer := store.GetPeer(id);
      match peer {
        case None => return Err("unknown peer");
        case Some(p) =>
          if p.endpoint == None {
            return Err("peer is offline");
          }
          return Ok(p);
      }
    }

    method RequirePairedPeer(id: DeviceId) returns (r: Result<Peer>)
      ensures r.Ok? <==> Reachable(View(), id) && T.IsPaired(View(), id)
      ensures r.Ok? <==>
        id in store.peers && store.peers[id].paired && store.peers[id].host.Some? && store.peers[id].port.Some?
      ensures r.Ok? ==> Some(r.value) == T.LookupPeer(store.peers, id)
    {
      r := RequireReachablePeer(id);
      if r.Ok? && !r.value.paired {
        r := Err("peer is not paired");
      }
    }

    /** One request over a fresh connection to the device that listens at the peer's endpoint. */
    method Request(
      remote: Node, peer: Peer, body: Message, fate: Fate, now: int, nonces: nat -> Bytes) returns (r: Result<Message>)
      requires remote.Valid() && remote != this && remote.store != store
      modifies remote, remote.store
      ensures remote.Valid()
      ensures var o := Handle(remote.store.prim, remote.me, old(remote.View()), me.public, body, now, nonces);
              && remote.View() == (if remote.Hears(me.public, peer, fate, body) then o.t else old(remote.View()))
              && remote.notices == old(remote.notices)
                   + (if remote.Hears(me.public, peer, fate, body) then o.notices else [])
              && (r.Ok? <==> fate.Delivered? && !o.body.Error?
                             && Connects(store.prim, remote.store.prim, me.public, remote.me.public, peer)
                             && Carried(me.public, remote.me.public, body, o.body))
              && (r.Ok? ==> r.value == o.body && remote.View() == o.t)
    {
      hide Handle, F.FitsFrame;
      if peer.endpoint == None {
        return Err("peer is offline");
      }
      if fate.LostRequest? {
        return Err("connection failed");
      }
      var fits := F.CheckFrame(me.public, body);
      if !fits {
        return Err("wire frame too large");
      }
      var answered, reply := remote.HandleConnection(me.public, body, now, nonces);
      if !answered || fate.LostReply? {
        return Err("connection closed");
      }
      if !store.prim.validIdentity(remote.me.public) {
        return Err("invalid identity");
      }
      if remote.me.public.deviceId != peer.identity.deviceId {
        return Err("response identity mismatch");
      }
      if reply.Error? {
        return Err(reply.message);
      }
      return Ok(reply);
    }

    /** Requests chunks by hash and checks the shape of the answer. */
    method AskChunks(
      peer: Peer, m: FileManifest, remote: Node, requested: seq<string>, fate: Fate, now: int, nonces: nat -> Bytes)
      returns (r: Result<seq<WireChunk>>)
      requires remote.Valid() && remote != this && remote.store != store && |requested| <= BATCH
      modifies remote, remote.store
      ensures remote.Valid() && remote.View() == old(remote.View())
      ensures var o := Protocol.HandleChunkRequest(
                remote.store.prim, remote.me, remote.View(), me.public, m.id, requested, nonces);
              && (r.Ok? ==> fate.Delivered?)
              && (r.Ok? ==> o.body == ChunkResult(m.id, r.value) && WireHashes(r.value) == HashSet(requested))
              && (r.Ok? ==> Carried(me.public, remote.me.public, ChunkRequest(m.id, requested), o.body))
              && (fate.Delivered? && Connects(store.prim, remote.store.prim, me.public, remote.me.public, peer) ==>
                  (o.body.ChunkResult? && o.body.chunks != [] ==>
                    (Carried(me.public, remote.me.public, ChunkRequest(m.id, requested), o.body) ==> r.Ok?)))
    {
      ghost var rt := remote.View();
      var response := Request(remote, peer, ChunkRequest(m.id, requested), fate, now, nonces);
      if response.Err? {
        return Err(response.message);
      }
      if !response.value.ChunkResult? {
        return Err("unexpected chunk response");
      }
      if response.value.manifestId != m.id {
        return Err("manifest response mismatch");
      }
      if response.value.chunks == [] {
        return Err("peer returned no chunks");
      }
      AnswerShape(remote.store.prim, remote.me, rt, me.public, m.id, requested, nonces, response.value.chunks);
      return Ok(response.value.chunks);
    }

    /** Stores the chunks of one answer and reports the progress made. */
    method StoreRound(
      peer: PublicIdentity, m: FileManifest, requested: seq<string>, chunks: seq<WireChunk>) returns (ok: bool)
      requires Valid() && WireHashes(chunks) == HashSet(requested)
      modifies this, store
      ensures Valid() && T.Fills(old(View()), View()) && View().manifests == old(View()).manifests
      ensures ok == StoreChunks(store.prim, me, old(View()), peer, m.id, None, chunks).1
      ensures ok ==> T.MissingChunks(View(), m.id) == Without(T.MissingChunks(old(View()), m.id), HashSet(requested))
      ensures notices == old(notices) + if ok then [Progress(View(), m, m.id)] else []
    {
      hide T.Fills, StoreChunks, T.MissingChunks, Without, WireHashes, HashSet;
      ghost var t := View();
      StoreChunksKeeps(store.prim, me, t, peer, m.id, None, chunks);
      ok := StoreBatch(peer, m.id, None, chunks);
      if ok {
        StoreChunksClears(store.prim, me, t, peer, m.id, None, chunks, m.id);
        EmitProgress(m, m.id);
      }
    }

    /** One round of the resume loop. */
    method FetchRound(
      peer: Peer, m: FileManifest, remote: Node, missing: seq<string>, fate: Fate, now: int, nonces: nat -> Bytes)
      returns (r: Result<()>)
      requires Valid() && remote.Valid() && remote != this && remote.store != store
      requires missing == T.MissingChunks(View(), m.id) && missing != []
      modifies this, store, remote, remote.store
      ensures Valid() && remote.Valid() && remote.View() == old(remote.View())
      ensures T.Fills(old(View()), View()) && View().manifests == old(View()).manifests
      ensures r.Ok? ==>
        && T.MissingChunks(View(), m.id) == Without(missing, HashSet(FirstBatch(missing)))
        && |T.MissingChunks(View(), m.id)| <= |missing| - |FirstBatch(missing)|
      ensures r.Ok? ==> fate.Delivered?
      ensures notices == old(notices) + if r.Ok? then [Progress(View(), m, m.id)] else []
      ensures r.Ok? ==>
        BatchCarried(remote.store.prim, me.public, remote.me, m.id, remote.View(), FirstBatch(missing), nonces)
      ensures fate.Delivered? && remote.store.prim == store.prim ==>
        (CanHelp(store.prim, me, remote.me, peer, m, old(View()), old(remote.View())) ==>
          (BatchCarried(store.prim, me.public, remote.me, m.id, remote.View(), FirstBatch(missing), nonces) ==> r.Ok?))
    {
      hide T.Fills, StoreChunks, T.MissingChunks, Without, HashSet, CanHelp, FirstBatch, BatchCarried, T.Sound;
      hide Progress;
      T.FillsReflexive(View());
      BatchClears(missing);
      var answer := AskRound(peer, m, remote, missing, fate, now, nonces);
      if answer.Err? {
        return Err(answer.message);
      }
      var ok := StoreRound(peer.identity, m, FirstBatch(missing), answer.value);
      r := if ok then Ok(()) else Err("chunk refused");
    }

    /** The request of a round and its answer. */
    method AskRound(
      peer: Peer, m: FileManifest, remote: Node, missing: seq<string>, fate: Fate, now: int, nonces: nat -> Bytes)
      returns (r: Result<seq<WireChunk>>)
      requires Valid() && remote.Valid() && remote != this && remote.store != store
      requires missing == T.MissingChunks(View(), m.id) && missing != []
      modifies remote, remote.store
      ensures remote.Valid() && remote.View() == old(remote.View())
      ensures r.Ok? ==>
        && fate.Delivered? && WireHashes(r.value) == HashSet(FirstBatch(missing))
        && BatchCarried(remote.store.prim, me.public, remote.me, m.id, remote.View(), FirstBatch(missing), nonces)
      ensures fate.Delivered? && remote.store.prim == store.prim ==>
        (CanHelp(store.prim, me, remote.me, peer, m, View(), remote.View()) ==>
          (BatchCarried(store.prim, me.public, remote.me, m.id, remote.View(), FirstBatch(missing), nonces) ==>
            r.Ok? && StoreChunks(store.prim, me, View(), peer.identity, m.id, None, r.value).1))
    {
      hide Carried, T.MissingChunks, StoreChunks, Protocol.HandleChunkRequest, HashSet, CanHelp, FirstBatch, Connects;
      hide T.Sound, WireHashes;
      BatchClears(missing);
      if remote.store.prim == store.prim {
        BatchServed(store.prim, me, remote.me, peer, m, View(), remote.View(), nonces);
      }
      r := AskChunks(peer, m, remote, FirstBatch(missing), fate, now, nonces);
    }

    /** Asks for the missing chunks of one manifest, sixteen rows at a time, until none is missing.
        `link` decides the fate of each request. The number of rounds is at most the number of
        missing rows divided by sixteen, rounded up, even when chunks repeat. */
    method FetchMissing(peer: Peer, m: FileManifest, remote: Node, link: nat -> Fate, now: int, nonces: nat -> Bytes)
      returns (r: Result<()>, rounds: nat)
      requires Valid() && remote.Valid() && remote != this && remote.store != store
      modifies this, store, remote, remote.store
      ensures Valid() && remote.Valid() && remote.View() == old(remote.View())
      ensures T.Fills(old(View()), View()) && View().manifests == old(View()).manifests
      ensures r.Ok? ==> T.MissingChunks(View(), m.id) == []
      ensures r.Ok? ==> forall k :: 0 <= k < rounds ==> link(k).Delivered?
      ensures Reported(old(notices), notices, m, if r.Ok? then rounds else rounds - 1)
      ensures BATCH * rounds < |T.MissingChunks(old(View()), m.id)| + BATCH
      ensures
        var missing := T.MissingChunks(old(View()), m.id);
        var carried := RoundsCarried(remote.store.prim, me.public, remote.me, m.id, remote.View(), missing, nonces);
        && (r.Ok? ==> carried)
        && ((forall k :: link(k) == Delivered) && remote.store.prim == store.prim ==>
            (CanHelp(store.prim, me, remote.me, peer, m, old(View()), old(remote.View())) ==> (carried ==> r.Ok?)))
    {
      hide T.Sound, T.Fills, Fetching, T.MissingChunks, FirstBatch, BatchCarried, CanHelp, Without;
      ghost var t, rt, rprim := View(), remote.View(), remote.store.prim;
      ghost var all := T.MissingChunks(t, m.id);
      NothingFetched(t, m.id);
      rounds := 0;
      while true
        invariant Valid() && remote.Valid() && remote.View() == rt
        invariant Fetching(t, View(), m.id, rounds)
        invariant forall k :: 0 <= k < rounds ==> link(k).Delivered?
        invariant Reported(old(notices), notices, m, rounds)
        invariant RoundsCarried(rprim, me.public, remote.me, m.id, rt, all, nonces) <==>
          RoundsCarried(rprim, me.public, remote.me, m.id, rt, T.MissingChunks(View(), m.id), nonces)
        decreases |T.MissingChunks(View(), m.id)|
      {
        ghost var before := View();
        FetchedSoFar(t, before, m.id, rounds);
        var missing := store.MissingChunks(m.id);
        if missing == [] {
          return Ok(()), rounds;
        }
        BatchIsSome(missing);
        var ok := FetchRound(peer, m, remote, missing, link(rounds), now, nonces);
        FetchingNext(t, before, View(), m.id, rounds);
        rounds := rounds + 1;
        if ok.Err? {
          if CanHelp(store.prim, me, remote.me, peer, m, t, rt) {
            HelpLasts(store.prim, me, remote.me, peer, m, t, before, rt);
          }
          return ok, rounds;
        }
      }
    }

    /** One manifest of the resume loop: fetch what is missing, then refresh. */
    method ResumeFile(peer: Peer, m: FileManifest, remote: Node, link: nat -> Fate, now: int, nonces: nat -> Bytes)
      returns (r: Result<()>, rounds: nat)
      requires Valid() && remote.Valid() && remote != this && remote.store != store
      modifies this, store, remote, remote.store
      ensures Valid() && remote.Valid() && remote.View() == old(remote.View())
      ensures T.Fills(old(View()), View()) && CompleteKept(old(View()), View())
      ensures r.Ok? && m.id in store.manifests ==> store.manifests[m.id].complete
      ensures r.Ok? ==> forall k :: 0 <= k < rounds ==> link(k).Delivered?
      ensures r.Ok? ==>
        && notices != [] && notices[|notices| - 1] == FileComplete(m.id, m.name)
        && Reported(old(notices), notices[..|notices| - 1], m, rounds)
      ensures r.Err? ==> Reported(old(notices), notices, m, rounds - 1)
      ensures BATCH * rounds < |T.MissingChunks(old(View()), m.id)| + BATCH
      ensures
        var missing := T.MissingChunks(old(View()), m.id);
        var carried := RoundsCarried(remote.store.prim, me.public, remote.me, m.id, remote.View(), missing, nonces);
        && (r.Ok? ==> carried)
        && ((forall k :: link(k) == Delivered) && remote.store.prim == store.prim ==>
            (CanHelp(store.prim, me, remote.me, peer, m, old(View()), old(remote.View())) ==> (carried ==> r.Ok?)))
    {
      hide T.Fills, T.Sound, RoundsCarried, CanHelp, Reported;
      r, rounds := FetchMissing(peer, m, remote, link, now, nonces);
      if r.Ok? {
        ghost var filled := View();
        RefreshAndReport(m, m.id);
        T.RefreshFills(filled, m.id);
        T.FillsTransitive(old(View()), filled, View());
      }
    }

    /** Resumes every incomplete manifest of the peer. */
    method ResumeFiles(
      peer: Peer, remote: Node, link: nat -> Fate, now: int, nonces: nat -> Bytes) returns (r: Result<()>)
      requires Valid() && remote.Valid() && remote != this && remote.store != store
      modifies this, store, remote, remote.store
      ensures Valid() && remote.Valid() && remote.View() == old(remote.View())
      ensures T.Fills(old(View()), View()) && CompleteKept(old(View()), View())
      ensures r.Ok? ==> T.IncompleteFor(View(), peer.identity.deviceId) == {}
      ensures FilesReported(old(notices), notices)
      ensures
        var id := peer.identity.deviceId;
        var carried := AllBatchesCarried(store.prim, me.public, remote.me, id, old(View()), remote.View(), nonces);
        (forall k :: link(k) == Delivered) && remote.store.prim == store.prim ==>
          (CanHelpAll(store.prim, me, remote.me, peer, old(View()), old(remote.View())) ==> (carried ==> r.Ok?))
    {
      hide RoundsCarried, AllBatchesCarried, CanHelp, Reported, FilesReported, Resumed, T.Fills, CompleteKept, T.Sound;
      assert FilesReported(notices, notices) by { NothingReported(notices); }
      ghost var t, rt := View(), remote.View();
      var ms := store.IncompleteManifestsForPeer(peer.identity.deviceId);
      var k: nat, used: nat := 0, 0;
      NothingResumed(t, ms);
      while k < |ms|
        invariant Valid() && remote.Valid() && remote.View() == rt
        invariant k <= |ms| && Resumed(t, View(), ms, k)
        invariant FilesReported(old(notices), notices)
      {
        ghost var told := notices;
        var m, start: nat := ms[k], used;
        assert m in ms;
        ghost var before := View();
        ResumedSoFar(t, before, ms, k);
        AllHelpLasts(store.prim, me, remote.me, peer, t, before, rt, m);
        RoundsStillCarried(store.prim, me.public, remote.me, peer.identity.deviceId, t, before, rt, m.id, nonces);
        var resumed, rounds := ResumeFile(peer, m, remote, (n: nat) => link(start + n), now, nonces);
        ResumedNext(t, before, View(), ms, k);
        ghost var count: int := if resumed.Ok? then rounds as int else rounds as int - 1;
        ReportedMore(old(notices), told, notices, m, count);
        if resumed.Err? {
          return resumed;
        }
        k, used := k + 1, used + rounds;
      }
      ResumedSoFar(t, View(), ms, k);
      NoneLeft(store.prim, t, View(), peer.identity.deviceId, ms);
      return Ok(());
    }

    /** Sends the ids known and the events written here, and returns the events answered. */
    method AskEvents(peerId: DeviceId, peer: Peer, remote: Node, fate: Fate, now: int, nonces: nat -> Bytes)
      returns (r: Result<seq<EventEnvelope>>)
      requires Valid() && remote.Valid() && remote != this && remote.store != store
      modifies remote, remote.store
      ensures remote.Valid() && EventsKept(old(remote.View()), remote.View())
      ensures
        var stream := DirectStreamId(me.public.deviceId, peerId);
        var o := Protocol.HandleSync(remote.store.prim, remote.me, old(remote.View()), me.public, stream,
                                     StreamIds(View(), stream), OwnEvents(me.public.deviceId, View(), stream));
        && (remote.View() == old(remote.View()) || remote.View() == o.t)
        && (r.Ok? ==> o.body == SyncResult(r.value) && remote.View() == o.t)
        && (r.Ok? ==> fate.Delivered? && Connects(store.prim, remote.store.prim, me.public, remote.me.public, peer))
        && (r.Ok? ==> EventsCarried(remote.store.prim, me, remote.me, peerId, View(), old(remote.View())))
        && (fate.Delivered? && Connects(store.prim, remote.store.prim, me.public, remote.me.public, peer) ==>
            (EventsCarried(remote.store.prim, me, remote.me, peerId, View(), old(remote.View())) ==>
              (o.body.SyncResult? ==> r.Ok?)))
    {
      hide Carried, Connects;
      var stream := DirectStreamId(me.public.deviceId, peerId);
      var known := store.EventIds(stream);
      var all := store.EventsOf(stream);
      var events := By(me.public.deviceId, all);
      KnownIds(View(), stream);
      SyncKeepsEvents(remote.store.prim, remote.me, remote.View(), me.public, stream, known, events);
      var response := Request(remote, peer, SyncExchange(stream, known, events), fate, now, nonces);
      if response.Err? {
        return Err(response.message);
      }
      if !response.value.SyncResult? {
        return Err("unexpected sync response");
      }
      return Ok(response.value.events);
    }

    /** Exchanges events with a paired device, then resumes its files. */
    method Sync(
      peerId: DeviceId, remote: Node, link: nat -> Fate, now: int, nonces: nat -> Bytes) returns (r: Result<()>)
      requires Valid() && remote.Valid() && remote != this && remote.store != store
      modifies this, store, remote, remote.store
      ensures Valid() && remote.Valid()
      ensures EventsKept(old(View()), View()) && EventsKept(old(remote.View()), remote.View())
      ensures !Reachable(old(View()), peerId) || !T.IsPaired(old(View()), peerId) ==>
        r.Err? && View() == old(View()) && remote.View() == old(remote.View())
      ensures r.Ok? ==>
        Synced(store.prim, remote.store.prim, me, remote.me, peerId, old(View()), old(remote.View()), View(),
          remote.View())
      ensures Reachable(old(View()), peerId) && T.IsPaired(old(View()), peerId) ==>
        Partway(store.prim, remote.store.prim, me, remote.me, peerId, old(View()), old(remote.View()), View(),
          remote.View())
      ensures r.Ok? ==> EventsCarried(remote.store.prim, me, remote.me, peerId, old(View()), old(remote.View()))
      ensures r.Ok? ==>
        && link(0).Delivered?
        && CaughtUp(me.public.deviceId, remote.me.public.deviceId, DirectStreamId(me.public.deviceId, peerId),
                    old(View()), View(), remote.View())
      ensures r.Ok? ==>
        SyncReported(old(notices), notices, peerId, |View().events| - |old(View()).events|)
      ensures r.Err? ==> FilesReported(old(notices), notices)
      ensures (forall k :: link(k) == Delivered) ==>
        (CanSync(store.prim, remote.store.prim, me, remote.me, peerId, old(View()), old(remote.View())) ==>
          (SyncCarried(store.prim, me, remote.me, peerId, old(View()), old(remote.View()), nonces) ==> r.Ok?))
    {
      hide EventsCarried, AllBatchesCarried, CanHelpAll, CaughtUp, FilesReported, SyncReported, T.IncompleteFor;
      hide T.Sound, Connects, AdmitAll, Synced, Partway, CanSync, SyncCarried, Protocol.HandleSync, OwnEvents, T.Fills;
      hide Reachable, T.IsPaired, EventsKept;
      NothingReported(notices);
      ghost var a, b := View(), remote.View();
      CanSyncMeans(store.prim, remote.store.prim, me, remote.me, peerId, a, b, nonces);
      KeepsOwn(a);
      KeepsOwn(b);
      var peer := RequirePairedPeer(peerId);
      if peer.Err? {
        return Err(peer.message);
      }
      var answered := AskEvents(peerId, peer.value, remote, link(0), now, nonces);
      if answered.Err? {
        PartwayAtFirst(store.prim, remote.store.prim, me, remote.me, peerId, a, b, remote.View());
        return Err(answered.message);
      }
      AdmitAllKeeps(store.prim, me, a, peer.value.identity, answered.value);
      var ok, received := Receive(peer.value.identity, answered.value);
      ghost var a1 := View();
      T.FillsReflexive(a1);
      PartwayLater(store.prim, remote.store.prim, me, remote.me, peerId, a, b, a1, remote.View(), answered.value);
      if !ok {
        return Err("event refused");
      }
      var resumed := ResumeFiles(peer.value, remote, (n: nat) => link(n + 1), now, nonces);
      PartwayLater(store.prim, remote.store.prim, me, remote.me, peerId, a, b, View(), remote.View(), answered.value);
      FillsKeepEvents(a, a1, View());
      if resumed.Err? {
        return resumed;
      }
      SyncSucceeds(store.prim, remote.store.prim, me, remote.me, peerId, a, b, View(), remote.View(), answered.value);
      EndReported(old(notices), notices, peerId, received);
      notices := notices + [SyncComplete(peerId, received)];
      return Ok(());
    }

    /** Asks another device to pair, records it, and syncs. */
    method Pair(peerId: DeviceId, remote: Node, pairingNonce: string, link: nat -> Fate, now: int, nonces: nat -> Bytes)
      returns (r: Result<()>)
      requires Valid() && remote.Valid() && remote != this && remote.store != store
      modifies this, store, remote, remote.store
      ensures Valid() && remote.Valid()
      ensures EventsKept(old(View()), View()) && EventsKept(old(remote.View()), remote.View())
      ensures r.Ok? ==> PairedBothWays(me, remote.me, View(), remote.View())
      ensures
        !PairAccepted(store.prim, remote.store.prim, me, remote.me, peerId, pairingNonce, link(0), old(View())) ==>
          r.Err? && View() == old(View())
      ensures link(0) != Delivered || link(1) != Delivered ==> r.Err?
      ensures r.Ok? ==>
        var paired := PairedTables(
          old(View()), remote.me.public, T.LookupPeer(old(View()).peers, peerId).value.endpoint, now);
        && Synced(store.prim, remote.store.prim, me, remote.me, peerId, paired,
                  Protocol.HandlePair(old(remote.View()), me.public, now).t, View(), remote.View())
        && CaughtUp(me.public.deviceId, remote.me.public.deviceId, DirectStreamId(me.public.deviceId, peerId),
                    old(View()), View(), remote.View())
        && PairReported(old(notices), notices, paired, peerId, |View().events| - |old(View()).events|)
      ensures (forall k :: link(k) == Delivered) ==>
        (CanPair(store.prim, remote.store.prim, me, remote.me, peerId, old(View()), old(remote.View()), now) ==>
          (PairCarried(
              store.prim, me, remote.me, peerId, pairingNonce, old(View()), old(remote.View()), now, nonces) ==>
            r.Ok?))
    {
      hide SyncCarried, EventsCarried, Carried, AllBatchesCarried, CanPair, PairCarried, PairedTables, PairedBothWays;
      hide T.Sound, CanSync, Protocol.HandlePair, Partway, Synced, CaughtUp, SyncReported, FilesReported, Connects;
      hide Reachable, T.IsPaired, EventsKept, PairReported, Protocol.Handle, T.UpsertPeer, OpenItem, T.Fills;
      ghost var a, b := View(), remote.View();
      CanPairMeans(store.prim, remote.store.prim, me, remote.me, peerId, pairingNonce, a, b, now, nonces);
      KeepsOwn(a);
      var peer := RequireReachablePeer(peerId);
      if peer.Err? {
        KeepsOwn(b);
        return Err(peer.message);
      }
      var accepted := AskPair(peer.value, remote, pairingNonce, link(0), now, nonces);
      if accepted.Err? {
        return Err(accepted.message);
      }
      ghost var b1 := remote.View();
      r := RecordAndSync(peerId, peer.value.endpoint, remote, (n: nat) => link(n + 1), now, nonces);
      KeptTwice(b, b1, remote.View());
    }

    /** What follows once the request has been accepted. */
    method RecordAndSync(
      peerId: DeviceId, endpoint: Option<Endpoint>, remote: Node, link: nat -> Fate, now: int, nonces: nat -> Bytes)
      returns (r: Result<()>)
      requires Valid() && remote.Valid() && remote != this && remote.store != store
      requires T.IsPaired(remote.View(), me.public.deviceId)
      modifies this, store, remote, remote.store
      ensures Valid() && remote.Valid()
      ensures EventsKept(old(View()), View()) && EventsKept(old(remote.View()), remote.View())
      ensures r.Ok? ==> link(0).Delivered? && PairedBothWays(me, remote.me, View(), remote.View())
      ensures
        var paired := PairedTables(old(View()), remote.me.public, endpoint, now);
        && (r.Ok? ==>
            && Synced(store.prim, remote.store.prim, me, remote.me, peerId, paired, old(remote.View()), View(),
                      remote.View())
            && CaughtUp(me.public.deviceId, remote.me.public.deviceId, DirectStreamId(me.public.deviceId, peerId),
                        old(View()), View(), remote.View())
            && PairReported(old(notices), notices, paired, peerId, |View().events| - |old(View()).events|))
        && ((forall k :: link(k) == Delivered) && peerId == remote.me.public.deviceId ==>
            (CanSync(store.prim, remote.store.prim, me, remote.me, peerId, paired, old(remote.View())) ==>
              (SyncCarried(store.prim, me, remote.me, peerId, paired, old(remote.View()), nonces) ==> r.Ok?)))
    {
      hide SyncCarried, EventsCarried, PairedTables, PairedBothWays, T.Sound, CanSync, Partway, Synced, CaughtUp;
      hide SyncReported, FilesReported, Reachable, T.IsPaired, EventsKept, Connects;
      ghost var a, b, told := View(), remote.View(), notices;
      RecordedKeeps(a, remote.me.public, endpoint, now, peerId);
      KeepsOwn(b);
      var recorded := RecordPaired(peerId, remote.me.public, endpoint, now);
      if recorded.Err? {
        return recorded;
      }
      ghost var a1 := View();
      r := Sync(peerId, remote, link, now, nonces);
      KeptTwice(a, a1, View());
      if r.Ok? {
        SameCaughtUp(me.public.deviceId, remote.me.public.deviceId, DirectStreamId(me.public.deviceId, peerId), a, a1,
          View(), remote.View());
        SyncKeepsPeers(store.prim, remote.store.prim, me, remote.me, peerId, a1, b, View(), remote.View());
        BothPaired(me, remote.me, a1, b, View(), remote.View());
      }
    }

    /** Stores the peer as paired and reports it. */
    method RecordPaired(
      peerId: DeviceId, identity: PublicIdentity, endpoint: Option<Endpoint>, now: int) returns (r: Result<()>)
      requires Valid()
      modifies this, store
      ensures Valid() && View() == PairedTables(old(View()), identity, endpoint, now)
      ensures T.IsPaired(View(), identity.deviceId)
      ensures r.Ok? <==> peerId in store.peers
      ensures notices == old(notices)
                       + if r.Ok? then [Paired(T.LookupPeer(store.peers, peerId).value)] else []
    {
      hide T.Sound;
      store.SetPeerPaired(identity, endpoint, now);
      var stored := store.GetPeer(peerId);
      if stored == None {
        return Err("paired peer missing");
      }
      notices := notices + [Paired(stored.value)];
      return Ok(());
    }

    /** The request of `pair` and its answer. */
    method AskPair(peer: Peer, remote: Node, pairingNonce: string, fate: Fate, now: int, nonces: nat -> Bytes)
      returns (r: Result<()>)
      requires remote.Valid() && remote != this && remote.store != store
      modifies remote, remote.store
      ensures remote.Valid() && EventsKept(old(remote.View()), remote.View())
      ensures remote.View() ==
        if remote.Hears(me.public, peer, fate, PairRequest(pairingNonce)) then
          Protocol.HandlePair(old(remote.View()), me.public, now).t
        else old(remote.View())
      ensures r.Ok? <==>
        && fate.Delivered? && Connects(store.prim, remote.store.prim, me.public, remote.me.public, peer)
        && Carried(me.public, remote.me.public, PairRequest(pairingNonce), PairResponse(true))
      ensures r.Ok? ==> remote.View() == Protocol.HandlePair(old(remote.View()), me.public, now).t
      ensures r.Ok? ==> T.IsPaired(remote.View(), me.public.deviceId)
    {
      PairKeeps(remote.View(), me.public, now);
      var response := Request(remote, peer, PairRequest(pairingNonce), fate, now, nonces);
      if response.Err? {
        return Err(response.message);
      }
      match response.value {
        case PairResponse(true) => return Ok(());
        case PairResponse(false) => return Err("pair request rejected");
        case _ => return Err("unexpected pair response");
      }
    }

    /** Creates a text event, keeps it, and pushes it to the peer. The event stays in the log
        whatever becomes of the push. */
    method SendText(
      peerId: DeviceId, text: string, remote: Node, fate: Fate, id: string, time: int, nonce: Bytes, now: int,
      nonces: nat -> Bytes)
      returns (r: Result<ChatItem>)
      requires Valid() && remote.Valid() && remote != this && remote.store != store
      modifies this, store, remote, remote.store
      ensures Valid() && remote.Valid()
      ensures EventsKept(old(remote.View()), remote.View())
      ensures
        if !Reachable(old(View()), peerId) || !T.IsPaired(old(View()), peerId) then
          r.Err? && View() == old(View()) && remote.View() == old(remote.View())
        else
          var stream := DirectStreamId(me.public.deviceId, peerId);
          var e := SealEvent(store.prim, me, old(View()).peers[peerId].identity, stream,
                             TextKind, TextPayload(text), id, time, nonce);
          && View() == old(View()).(events := Insert(old(View()).events, e))
          && (r.Ok? ==> e.id in remote.View().events)
          && var o := Protocol.HandlePush(remote.store.prim, remote.me, old(remote.View()), me.public, e);
          && (remote.View() == old(remote.View()) || remote.View() == o.t)
          && (r.Ok? ==> o.body == Ack(id) && remote.View() == o.t)
          && (r.Ok? ==> fate.Delivered? && r == OpenItem(store.prim, me, old(View()).peers[peerId].identity, e))
          && (r.Ok? ==> Carried(me.public, remote.me.public, PushEvent(e), Ack(e.id)))
          && (fate.Delivered? && Carried(me.public, remote.me.public, PushEvent(e), Ack(e.id)) ==>
              (Companions(store.prim, remote.store.prim, me, remote.me, peerId, old(View()), old(remote.View())) ==>
                r == Ok(ChatItem(id, me.public.deviceId, time, TextPayload(text)))))
      ensures notices == old(notices) + if r.Ok? then [NewMessage(r.value)] else []
    {
      hide T.Sound, Carried, Companions, SealEvent;
      var peer := RequirePairedPeer(peerId);
      if peer.Err? {
        return Err(peer.message);
      }
      PushAccepted(store.prim, remote.store.prim, me, remote.me, peerId, View(), remote.View(),
                   TextKind, TextPayload(text), id, time, nonce);
      var e := CreateEvent(store.prim, me, peer.value.identity, DirectStreamId(me.public.deviceId, peerId),
                           TextKind, TextPayload(text), id, time, nonce);
      var _ := store.InsertEvent(e);
      r := PushAndShow(peer.value, e, remote, fate, now, nonces);
    }

    /** Pushes an event and, once it is acknowledged, shows it. */
    method PushAndShow(peer: Peer, e: EventEnvelope, remote: Node, fate: Fate, now: int, nonces: nat -> Bytes)
      returns (r: Result<ChatItem>)
      requires remote.Valid() && remote != this && remote.store != store
      modifies this, remote, remote.store
      ensures remote.Valid() && EventsKept(old(remote.View()), remote.View()) && View() == old(View())
      ensures r.Ok? ==> e.id in remote.View().events && Carried(me.public, remote.me.public, PushEvent(e), Ack(e.id))
      ensures
        var o := Protocol.HandlePush(remote.store.prim, remote.me, old(remote.View()), me.public, e);
        && remote.View() == (if remote.Hears(me.public, peer, fate, PushEvent(e)) then o.t else old(remote.View()))
        && (r.Ok? ==> o.body == Ack(e.id) && remote.View() == o.t)
      ensures r.Ok? ==> fate.Delivered? && r == OpenItem(store.prim, me, peer.identity, e)
      ensures notices == old(notices) + if r.Ok? then [NewMessage(r.value)] else []
      ensures
        var o := Protocol.HandlePush(remote.store.prim, remote.me, old(remote.View()), me.public, e);
        fate.Delivered? && Carried(me.public, remote.me.public, PushEvent(e), Ack(e.id)) ==>
          (o.body == Ack(e.id) && Connects(store.prim, remote.store.prim, me.public, remote.me.public, peer) ==>
            (r.Ok? <==> OpenItem(store.prim, me, peer.identity, e).Ok?))
    {
      hide T.Sound, Carried, Connects, OpenItem, Protocol.HandlePush;
      var pushed := PushOut(peer, e, remote, fate, now, nonces);
      if pushed.Err? {
        return Err(pushed.message);
      }
      r := OpenEvent(peer.identity, e);
      if r.Ok? {
        notices := notices + [NewMessage(r.value)];
      }
    }

    /** Pushes an event and waits for its acknowledgement. */
    method PushOut(
      peer: Peer, e: EventEnvelope, remote: Node, fate: Fate, now: int, nonces: nat -> Bytes) returns (r: Result<()>)
      requires remote.Valid() && remote != this && remote.store != store
      modifies remote, remote.store
      ensures remote.Valid() && EventsKept(old(remote.View()), remote.View())
      ensures var o := Protocol.HandlePush(remote.store.prim, remote.me, old(remote.View()), me.public, e);
              && remote.View() == (
                   if remote.Hears(me.public, peer, fate, PushEvent(e)) then o.t else old(remote.View()))
              && (r.Ok? <==> fate.Delivered? && o.body == Ack(e.id)
                             && Connects(store.prim, remote.store.prim, me.public, remote.me.public, peer)
                             && Carried(me.public, remote.me.public, PushEvent(e), Ack(e.id)))
              && (r.Ok? ==> remote.View() == o.t && e.id in o.t.events)
    {
      PushKeeps(remote.store.prim, remote.me, remote.View(), me.public, e);
      var response := Request(remote, peer, PushEvent(e), fate, now, nonces);
      if response.Err? {
        return Err(response.message);
      }
      if response.value != Ack(e.id) {
        return Err("event was not acknowledged");
      }
      return Ok(());
    }

    /** Pushes all chunks of a file, sixteen at a time. */
    method PushBatches(peer: Peer, m: FileManifest, remote: Node, link: nat -> Fate, now: int, nonces: nat -> Bytes)
      returns (r: Result<()>)
      requires remote.Valid() && remote != this && remote.store != store
      modifies remote, remote.store
      ensures remote.Valid() && T.Fills(old(remote.View()), remote.View())
      ensures r.Ok? ==> Cleared(old(remote.View()), remote.View(), m.id, HashesOf(m.chunks))
      ensures r.Ok? ==> NoneMissing(remote.View(), m)
      ensures r.Ok? ==> forall k: nat :: BATCH * k < |m.chunks| ==> link(k).Delivered?
      ensures
        var all := |m.chunks|;
        var carried := PushesCarried(store.prim, me, remote.me.public, peer.identity, m, View(), all, nonces);
        && (r.Ok? ==> carried)
        && ((forall k :: link(k) == Delivered) ==>
            (CanTake(store.prim, remote.store.prim, me, remote.me, peer, m, View(), old(remote.View())) ==>
              (carried ==> r.Ok?)))
    {
      hide T.Sound, T.Fills, Cleared, Pushed, CanTake, RangeCarried, NoneMissing;
      ghost var rt := remote.View();
      NothingPushed(rt, m);
      var done, batches := 0, 0;
      while done < |m.chunks|
        invariant remote.Valid() && 0 <= done <= |m.chunks| && (done == |m.chunks| || done % BATCH == 0)
        invariant Pushed(rt, remote.View(), m, done)
        invariant done <= BATCH * batches && forall k: nat :: k < batches ==> link(k).Delivered?
        invariant PushesCarried(store.prim, me, remote.me.public, peer.identity, m, View(), done, nonces)
      {
        var size := SizeFrom(m, done);
        ghost var before := remote.View();
        PushedSoFar(rt, before, m, done);
        if CanTake(store.prim, remote.store.prim, me, remote.me, peer, m, View(), rt) {
          CanTakeLasts(store.prim, remote.store.prim, me, remote.me, peer, m, View(), rt, before);
        }
        r := PushBatch(peer, m, done, size, remote, link(batches), now, nonces);
        PushedNext(rt, before, remote.View(), m, done, size);
        if r.Err? {
          return;
        }
        NextPushCarried(store.prim, me, remote.me.public, peer.identity, m, View(), done, nonces);
        done, batches := done + size, batches + 1;
      }
      AllPushed(rt, remote.View(), m);
      ClearedAll(rt, remote.View(), m);
      r := Ok(());
    }

    method PushBatch(
      peer: Peer, m: FileManifest, start: nat, size: nat, remote: Node, fate: Fate, now: int, nonces: nat -> Bytes)
      returns (r: Result<()>)
      requires remote.Valid() && remote != this && remote.store != store && start + size <= |m.chunks|
      modifies remote, remote.store
      ensures remote.Valid() && T.Fills(old(remote.View()), remote.View())
      ensures r.Ok? ==> Cleared(old(remote.View()), remote.View(), m.id, HashesOf(m.chunks[start..start + size]))
      ensures
        var carried := RangeCarried(store.prim, me, remote.me.public, peer.identity, m, View(), start, size, nonces);
        && (r.Ok? ==> carried && fate.Delivered?)
        && (fate.Delivered? ==>
            (CanTake(store.prim, remote.store.prim, me, remote.me, peer, m, View(), old(remote.View())) ==>
              (carried ==> r.Ok?)))
    {
      hide CanTake, ChunksFor, Protocol.HandlePushChunks, WireHashes, HashesOf, T.Fills, Cleared;
      ghost var rt := remote.View();
      T.FillsReflexive(rt);
      HashListWithin(m, start, size);
      RangeTaken(store.prim, remote.store.prim, me, remote.me, peer, m, View(), rt, HashList(m, start, size), nonces);
      var batch := EncryptRange(peer.identity, m, start, size, nonces);
      if batch.Err? {
        return Err(batch.message);
      }
      PushChunksKeeps(remote.store.prim, remote.me, rt, me.public, m.id, batch.value);
      PushedAck(remote.store.prim, remote.me, rt, me.public, m.id, batch.value);
      var response := Request(remote, peer, PushChunks(m.id, batch.value), fate, now, nonces);
      if response.Err? {
        return Err(response.message);
      }
      if !response.value.Ack? {
        return Err("file chunks were not acknowledged");
      }
      return Ok(());
    }

    method EncryptRange(peer: PublicIdentity, m: FileManifest, start: nat, size: nat, nonces: nat -> Bytes)
      returns (r: Result<seq<WireChunk>>)
      requires start + size <= |m.chunks|
      ensures r == ChunksFor(store.prim, me, View(), peer, m, HashList(m, start, size), nonces, 0)
      ensures r.Ok? ==> WireHashes(r.value) == HashesOf(m.chunks[start..start + size])
    {
      hide T.Sound;
      var hashes := HashList(m, start, size);
      r := EncryptBatch(peer, m, hashes, nonces);
      if r.Ok? {
        ChunksForShape(store.prim, me, View(), peer, m, hashes, nonces, 0);
        BatchHashes(m, start, size, hashes);
      }
    }

    /** The part of sending a file that concerns the sender alone: the chunks are stored, then the
        manifest, then the event that announces it. */
    method KeepFile(
      peerId: DeviceId, peer: Peer, file: Reader, name: string, mediaType: string, manifestId: string, id: string,
      time: int, nonce: Bytes)
      returns (m: FileManifest, e: EventEnvelope)
      requires Valid() && file.pos == 0
      modifies store, file
      ensures Valid()
      ensures m.id == manifestId && Numbered(m.chunks) && |m.chunks| <= |file.content|
      ensures m.name == name && m.mediaType == mediaType && m.fileHash == store.prim.hash(file.content)
      ensures manifestId !in old(store.manifests) ==>
        manifestId in store.manifests && store.manifests[manifestId] == T.ManifestRow(peerId, m, true)
      ensures store.events == if id in old(store.events) then old(store.events) else old(store.events)[id := e]
      ensures HashInjective(store.prim) ==> Rebuilds(store.prim, m, file.content)
      ensures e == SealEvent(store.prim, me, peer.identity, DirectStreamId(me.public.deviceId, peerId),
                             ManifestKind, ManifestPayload(m), id, time, nonce)
      ensures FileKept(old(View()), View(), peerId, m, e)
    {
      hide T.Fills, T.Sound, T.Saved, T.SaveManifest, Numbered, Rebuilds, Joins, Gather, SealEvent;
      ghost var t := View();
      m := IngestFile(store, file, manifestId, name, mediaType);
      ghost var ingested := View();
      T.SoundRows(store.prim, t, m.id);
      store.SaveManifest(peerId, m);
      SavedComplete(ingested, View(), peerId, m);
      FillsKeys(t, ingested);
      e := CreateEvent(store.prim, me, peer.identity, DirectStreamId(me.public.deviceId, peerId),
                       ManifestKind, ManifestPayload(m), id, time, nonce);
      var _ := store.InsertEvent(e);
      assert KeptVia(t, ingested, View(), peerId, m, e);
    }

    /** Ingests a file, announces it to the peer and pushes its chunks. The manifest, the blobs
        and the event stay at the sender wherever the pushing stops. */
    method SendFile(
      peerId: DeviceId, file: Reader, name: string, mediaType: string, manifestId: string, remote: Node,
      link: nat -> Fate,
      id: string, time: int, nonce: Bytes, now: int, nonces: nat -> Bytes)
      returns (r: Result<ChatItem>, ghost sent: Option<FileManifest>)
      requires Valid() && remote.Valid() && remote != this && remote.store != store && file.pos == 0
      modifies this, store, remote, remote.store, file
      ensures Valid() && remote.Valid() && notices == old(notices)
      ensures !Reachable(old(View()), peerId) || !T.IsPaired(old(View()), peerId) ==>
        r.Err? && sent == None && View() == old(View()) && remote.View() == old(remote.View())
      ensures Reachable(old(View()), peerId) && T.IsPaired(old(View()), peerId) ==>
        && sent.Some? && sent.value.id == manifestId && sent.value.name == name && sent.value.mediaType == mediaType
        && sent.value.fileHash == store.prim.hash(file.content)
        && Numbered(sent.value.chunks) && |sent.value.chunks| <= |file.content|
        && (HashInjective(store.prim) ==> Rebuilds(store.prim, sent.value, file.content))
        && var e := SealEvent(store.prim, me, old(View()).peers[peerId].identity,
           DirectStreamId(me.public.deviceId, peerId),
                              ManifestKind, ManifestPayload(sent.value), id, time, nonce);
        && FileKept(old(View()), View(), peerId, sent.value, e)
        && FileOffered(remote.store.prim, remote.me, me.public, e, old(remote.View()), remote.View())
        && (r.Ok? ==> FilePushed(remote.store.prim, remote.me, me.public, e, sent.value, old(remote.View()),
           remote.View()))
      ensures Reachable(old(View()), peerId) && T.IsPaired(old(View()), peerId) ==>
        var identity := old(View()).peers[peerId].identity;
        var e := SealEvent(store.prim, me, identity, DirectStreamId(me.public.deviceId, peerId),
                           ManifestKind, ManifestPayload(sent.value), id, time, nonce);
        var carried := FileCarried(store.prim, me, remote.me.public, identity, e, sent.value, View(), nonces);
        && (r.Ok? ==> carried && FileDelivered(sent.value, link) && NoneMissing(remote.View(), sent.value))
        && (r.Ok? ==> r == OpenItem(store.prim, me, identity, e))
        && ((forall k :: link(k) == Delivered) && carried ==>
            (id !in old(remote.View()).events && manifestId !in old(remote.View()).manifests ==>
              (Companions(store.prim, remote.store.prim, me, remote.me, peerId, old(View()), old(remote.View())) ==>
                r == Ok(ChatItem(id, me.public.deviceId, time, ManifestPayload(sent.value))))))
    {
      hide T.Fills, Numbered, Rebuilds, FileKept, FileOffered, FilePushed, FileCarried, Companions, SealEvent, T.Sound;
      hide PushWorks, NoneMissing, FileDelivered;
      CompanionsKnown(store.prim, remote.store.prim, me, remote.me, peerId, View(), remote.View());
      sent := None;
      var required := RequirePairedPeer(peerId);
      if required.Err? {
        return Err(required.message), None;
      }
      var peer := required.value;
      var m, e := KeepFile(peerId, peer, file, name, mediaType, manifestId, id, time, nonce);
      sent := Some(m);
      CompanionsPush(store.prim, remote.store.prim, me, remote.me, peerId, old(View()), View(), old(remote.View()),
                     m, id, time, nonce);
      r := PushFile(peer, m, e, remote, link, now, nonces);
    }

    /** The part of sending a file that needs the peer: the announcement, then the chunks. */
    method PushFile(
      peer: Peer, m: FileManifest, e: EventEnvelope, remote: Node, link: nat -> Fate, now: int, nonces: nat -> Bytes)
      returns (r: Result<ChatItem>)
      requires remote.Valid() && remote != this && remote.store != store
      modifies remote, remote.store
      ensures remote.Valid()
      ensures FileOffered(remote.store.prim, remote.me, me.public, e, old(remote.View()), remote.View())
      ensures r.Ok? ==>
        && FilePushed(remote.store.prim, remote.me, me.public, e, m, old(remote.View()), remote.View())
        && r == OpenItem(store.prim, me, peer.identity, e) && FileDelivered(m, link) && NoneMissing(remote.View(), m)
        && FileCarried(store.prim, me, remote.me.public, peer.identity, e, m, View(), nonces)
      ensures (forall k :: link(k) == Delivered) ==>
        (FileCarried(store.prim, me, remote.me.public, peer.identity, e, m, View(), nonces) ==>
          (PushWorks(store.prim, remote.store.prim, me, remote.me, peer, m, e, View(), old(remote.View())) ==>
            r == OpenItem(store.prim, me, peer.identity, e)))
    {
      hide T.Fills, T.Sound, CanTake, Carried, PushesCarried, OpenItem, Protocol.HandlePush, NoneMissing;
      hide FileDelivered;
      var pushed := PushOut(peer, e, remote, link(0), now, nonces);
      T.FillsReflexive(remote.View());
      if pushed.Err? {
        return Err(pushed.message);
      }
      var later := (n: nat) => link(n + 1);
      var batches := PushBatches(peer, m, remote, later, now, nonces);
      if batches.Err? {
        return Err(batches.message);
      }
      FileIsDelivered(m, link, later);
      r := OpenEvent(peer.identity, e);
    }

    method OpenAll(peer: PublicIdentity, es: seq<EventEnvelope>) returns (r: Result<seq<ChatItem>>)
      ensures r == Items(store.prim, me, peer, es)
    {
      var items, k := [], 0;
      assert es[0..] == es;
      PrependNothing(Items(store.prim, me, peer, es));
      while k < |es|
        invariant 0 <= k <= |es|
        invariant Items(store.prim, me, peer, es) == Prepend(items, Items(store.prim, me, peer, es[k..]))
      {
        assert es[k..][0] == es[k] && es[k..][1..] == es[k + 1..];
        var item := OpenEvent(peer, es[k]);
        if item.Err? {
          return Err(item.message);
        }
        PrependOne(items, item.value, Items(store.prim, me, peer, es[k + 1..]));
        items, k := items + [item.value], k + 1;
      }
      assert items + [] == items;
      r := Ok(items);
    }

    method Chat(peerId: DeviceId) returns (r: Result<seq<ChatItem>>)
      requires Valid()
      ensures !Reachable(View(), peerId) || !T.IsPaired(View(), peerId) ==> r.Err?
      ensures Reachable(View(), peerId) && T.IsPaired(View(), peerId) ==>
        r == Items(store.prim, me, View().peers[peerId].identity,
                   Events(View().events, DirectStreamId(me.public.deviceId, peerId)))
      ensures r.Ok? ==>
        && peerId in store.peers && store.peers[peerId].paired
        && store.peers[peerId].host.Some? && store.peers[peerId].port.Some?
        && ShowsStream(store.prim, me, store.peers[peerId].identity, store.events,
                       DirectStreamId(me.public.deviceId, peerId), r.value)
      ensures r.Ok? ==> forall i, j :: 0 <= i < j < |r.value| ==> r.value[i].time <= r.value[j].time
      ensures r.Err? && Reachable(View(), peerId) && T.IsPaired(View(), peerId) ==>
        exists id :: id in store.events && store.events[id].stream == DirectStreamId(me.public.deviceId, peerId)
                     && OpenItem(store.prim, me, store.peers[peerId].identity, store.events[id]).Err?
    {
      var peer := RequirePairedPeer(peerId);
      if peer.Err? {
        return Err(peer.message);
      }
      var es := store.EventsOf(DirectStreamId(me.public.deviceId, peerId));
      r := OpenAll(peer.value.identity, es);
      ShownExactly(store.prim, me, peer.value.identity, store.events, DirectStreamId(me.public.deviceId, peerId), es);
    }

    /** Records an announced device, if its identity is valid; what is known about pairing is read first
        and written back. */
    method RememberPeer(identity: PublicIdentity, endpoint: Endpoint, now: int) returns (r: Result<()>)
      requires Valid()
      modifies store
      ensures Valid() && T.PeersGrow(old(store.peers), store.peers)
      ensures r.Ok? <==> store.prim.validIdentity(identity)
      ensures r.Err? ==> View() == old(View())
      ensures r.Ok? ==>
        var paired := T.IsPaired(old(View()), identity.deviceId);
        && View() == old(View()).(peers := T.UpsertPeer(old(View()).peers, Peer(identity, Some(endpoint), paired, now)))
        && T.LookupPeer(store.peers, identity.deviceId) == Some(Peer(identity, Some(endpoint), paired, now))
    {
      if !store.prim.validIdentity(identity) {
        return Err("invalid identity");
      }
      var was := store.GetPeer(identity.deviceId);
      var paired := was.Some? && was.value.paired;
      T.SoundEndpoints(store.prim, View());
      T.UpsertThenLookup(store.peers, Peer(identity, Some(endpoint), paired, now));
      store.UpsertPeer(Peer(identity, Some(endpoint), paired, now));
      return Ok(());
    }
  }
}
