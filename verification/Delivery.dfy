/** When a sync of a receiver `B` with the sender `A` of its files succeeds, link and frames permitting:
    the sender can serve every file it has announced. */
module Delivery {
  import opened Wrappers
  import opened Model
  import opened Crypto
  import opened ChunkRows
  import opened EventLog
  import opened Tables
  import opened Protocol
  import opened ChunkTraffic
  import opened Nodes
  import opened SyncLaws

  /** The manifest that `B` reads in an event of `A`, if there is one. */
  function Offered(prim: Primitives, A: Identity, B: Identity, e: EventEnvelope): Option<FileManifest> {
    match OpenItem(prim, B, A.public, e)
    case Ok(item) => ManifestIn(e, item.payload)
    case Err(_) => None
  }

  /** A manifest of the catalog that a device can serve. */
  ghost predicate InStock(a: Tables, client: PublicIdentity, catalog: map<string, FileManifest>, m: FileManifest) {
    m.id in catalog && catalog[m.id] == m && Increasing(m.chunks) && Serves(a, client, m)
  }

  /** `A` can serve every file that it has announced to `B`. */
  ghost predicate Stocked(prim: Primitives, A: Identity, B: Identity, a: Tables, catalog: map<string, FileManifest>) {
    forall e | e in Stream(a.events, Between(A, B)) && e.author == A.public.deviceId ::
      Offered(prim, A, B, e).Some? ==>
      InStock(a, B.public, catalog, Offered(prim, A, B, e).value)
  }

  /** `B` holds manifests of the catalog, with their own rows, and `A` can serve what is missing of its files. */
  ghost predicate ManifestsListed(
    A: DeviceId, B: PublicIdentity, b: Tables, a: Tables, catalog: map<string, FileManifest>) {
    forall id :: id in b.manifests ==>
      && id in catalog && catalog[id].id == id && b.manifests[id].manifest == catalog[id] && Holds(b, catalog[id])
      && (b.manifests[id].peer == A && MissingChunks(b, id) != [] ==> Serves(a, B, catalog[id]))
  }

  /** Admitting events of a peer brings in no event by anyone else. */
  lemma {:induction false} AdmitAllAddsPeerEvents(
    prim: Primitives, me: Identity, t: Tables, peer: PublicIdentity, es: seq<EventEnvelope>)
    ensures var t' := AdmitAll(prim, me, t, peer, es).0;
            forall id :: id in t'.events ==>
              (id in t.events && t'.events[id] == t.events[id]) || t'.events[id].author == peer.deviceId
    decreases es
  {
    if es != [] {
      if es[0].author != peer.deviceId {
        AdmitAllAddsPeerEvents(prim, me, t, peer, es[1..]);
      } else if OpenItem(prim, me, peer, es[0]).Ok? {
        var next := Admit(t, peer.deviceId, es[0], OpenItem(prim, me, peer, es[0]).value.payload);
        AdmitAllAddsPeerEvents(prim, me, next, peer, es[1..]);
      }
    }
  }

  // ---------- What an exchange leaves as it is ----------

  /** What a device can serve depends on nothing that a loop over events changes. */
  ghost predicate ServesAsMuch(a: Tables, a': Tables) {
    && a'.peers == a.peers && a.blobs.Keys <= a'.blobs.Keys
    && forall id :: id in a.manifests ==> id in a'.manifests && a'.manifests[id].manifest == a.manifests[id].manifest
  }

  lemma ServesLasts(a: Tables, a': Tables, client: PublicIdentity, m: FileManifest)
    requires ServesAsMuch(a, a') && Serves(a, client, m)
    ensures Serves(a', client, m)
  {
  }

  lemma {:induction false} AdmitAllServes(
    prim: Primitives, me: Identity, t: Tables, peer: PublicIdentity, es: seq<EventEnvelope>)
    ensures ServesAsMuch(t, AdmitAll(prim, me, t, peer, es).0)
    decreases es
  {
    hide OpenItem;
    if es != [] {
      if es[0].author != peer.deviceId {
        AdmitAllServes(prim, me, t, peer, es[1..]);
      } else if OpenItem(prim, me, peer, es[0]).Ok? {
        var payload := OpenItem(prim, me, peer, es[0]).value.payload;
        AdmitServes(t, peer.deviceId, es[0], payload);
        hide Admit;
        AdmitAllServes(prim, me, Admit(t, peer.deviceId, es[0], payload), peer, es[1..]);
      }
    }
  }

  lemma AdmitServes(t: Tables, peer: DeviceId, e: EventEnvelope, payload: Payload)
    ensures ServesAsMuch(t, Admit(t, peer, e, payload))
  {
    hide InsertRows, Missing;
  }

  // ---------- The receiver's manifests ----------

  lemma SaveListed(
    prim: Primitives, A: DeviceId, B: PublicIdentity, b: Tables, a: Tables, catalog: map<string, FileManifest>,
    m: FileManifest)
    requires Sound(prim, b) && ManifestsListed(A, B, b, a, catalog) && InStock(a, B, catalog, m)
    ensures ManifestsListed(A, B, SaveManifest(b, A, m), a, catalog)
  {
    SoundHasRows(prim, b);
    assert Unambiguous(b, m);
    assert forall id :: id in b.manifests ==> b.manifests[id].manifest.id == id;
    hide Sound, Unambiguous, Holds, Serves;
    SaveManifestHolds(prim, b, A, m);
    SaveManifestRows(b, A, m);
    SavedManifests(b, A, m);
    hide SaveManifest, RowsOf;
    var b' := SaveManifest(b, A, m);
    forall id | id in b'.manifests
      ensures id in catalog && catalog[id].id == id && b'.manifests[id].manifest == catalog[id]
      ensures Holds(b', catalog[id])
      ensures b'.manifests[id].peer == A && MissingChunks(b', id) != [] ==> Serves(a, B, catalog[id])
    {
      if id == m.id {
        HeldManifest(b', m);
      } else {
        assert Holds(b, catalog[id]);
        SaveManifestKeepsOthers(b, A, m, catalog[id]);
      }
    }
  }

  lemma SavedManifests(t: Tables, peer: DeviceId, m: FileManifest)
    ensures SaveManifest(t, peer, m).manifests.Keys == t.manifests.Keys + {m.id}
    ensures forall id :: id in t.manifests && id != m.id ==> SaveManifest(t, peer, m).manifests[id] == t.manifests[id]
  {
  }

  lemma AdmitListed(
    prim: Primitives, A: DeviceId, B: PublicIdentity, b: Tables, a: Tables, catalog: map<string, FileManifest>,
    e: EventEnvelope, payload: Payload)
    requires Sound(prim, b) && ManifestsListed(A, B, b, a, catalog)
    requires ManifestIn(e, payload).Some? ==> InStock(a, B, catalog, payload.manifest)
    ensures ManifestsListed(A, B, Admit(b, A, e, payload), a, catalog)
  {
    hide Serves, SaveManifest;
    var b1 := b.(events := Insert(b.events, e));
    InsertEventSound(prim, b, e);
    assert forall id :: RowsOf(b1, id) == RowsOf(b, id);
    assert ManifestsListed(A, B, b1, a, catalog);
    if e.id !in b.events && ManifestIn(e, payload).Some? {
      SaveListed(prim, A, B, b1, a, catalog, payload.manifest);
    }
  }

  lemma {:induction false} AdmitAllListed(
    prim: Primitives, A: Identity, B: Identity, b: Tables, a: Tables, catalog: map<string, FileManifest>,
    es: seq<EventEnvelope>)
    requires Sound(prim, b) && ManifestsListed(A.public.deviceId, B.public, b, a, catalog)
    requires forall e :: e in es && Offered(prim, A, B, e).Some? ==>
      InStock(a, B.public, catalog, Offered(prim, A, B, e).value)
    ensures ManifestsListed(A.public.deviceId, B.public, AdmitAll(prim, B, b, A.public, es).0, a, catalog)
    decreases es
  {
    hide OpenItem, Admit, ManifestsListed, InStock, Sound;
    if es != [] {
      assert es[0] in es;
      assert forall e :: e in es[1..] ==> e in es;
      if es[0].author != A.public.deviceId {
        AdmitAllListed(prim, A, B, b, a, catalog, es[1..]);
      } else if OpenItem(prim, B, A.public, es[0]).Ok? {
        var payload := OpenItem(prim, B, A.public, es[0]).value.payload;
        AdmitListed(prim, A.public.deviceId, B.public, b, a, catalog, es[0], payload);
        AdmitSound(prim, b, A.public.deviceId, es[0], payload);
        AdmitAllListed(prim, A, B, Admit(b, A.public.deviceId, es[0], payload), a, catalog, es[1..]);
      }
    }
  }

  // ---------- The sync succeeds ----------

  /** Everything that a sync of `B` with `A` needs besides the link and the frames. */
  ghost predicate InOrder(
    prim: Primitives, A: Identity, B: Identity, a: Tables, b: Tables, catalog: map<string, FileManifest>) {
    && prim.validIdentity(A.public) && prim.validIdentity(B.public)
    && Coherent(prim, B, A, b, a)
    && var id := A.public.deviceId;
    && Reachable(b, id) && IsPaired(b, id) && b.peers[id].identity == A.public
    && Stocked(prim, A, B, a, catalog) && ManifestsListed(id, B.public, b, a, catalog)
  }

  /** What the receiver lacks once the events have arrived, the sender can serve. */
  lemma ExchangeListed(
    prim: Primitives, A: Identity, B: Identity, a: Tables, b: Tables, catalog: map<string, FileManifest>)
    requires InOrder(prim, A, B, a, b, catalog)
    ensures Sound(prim, a) && Sound(prim, b)
    ensures var (b', a', ok) := Exchange(prim, B, A, b, a);
            ok && ManifestsListed(A.public.deviceId, B.public, b', a', catalog)
  {
    SoundBoth(prim, B, A, b, a);
    ExchangeUnites(prim, B, A, b, a);
    hide Coherent, Sound, Stream, InStock;
    var sent := Sent(B, A, b);
    var a' := AdmitAll(prim, A, a, B.public, sent).0;
    AdmitAllSound(prim, A, a, B.public, sent);
    SoundIsKeyed(prim, a');
    var answer := Answered(B, A, b, a');
    AnswerInStock(prim, A, B, a, a', b, catalog, sent);
    AdmitAllServes(prim, A, a, B.public, sent);
    ListedLasts(A.public.deviceId, B.public, b, a, a', catalog);
    hide AdmitAll, ManifestsListed, Sent, Answered;
    AdmitAllListed(prim, A, B, b, a', catalog, answer);
  }

  lemma ListedLasts(
    A: DeviceId, B: PublicIdentity, b: Tables, a: Tables, a': Tables, catalog: map<string, FileManifest>)
    requires ManifestsListed(A, B, b, a, catalog) && ServesAsMuch(a, a')
    ensures ManifestsListed(A, B, b, a', catalog)
  {
    hide Serves, ServesAsMuch;
    forall m | Serves(a, B, m)
      ensures Serves(a', B, m)
    {
      ServesLasts(a, a', B, m);
    }
  }

  lemma AnswerInStock(
    prim: Primitives, A: Identity, B: Identity, a: Tables, a': Tables, b: Tables, catalog: map<string, FileManifest>,
    sent: seq<EventEnvelope>)
    requires Stocked(prim, A, B, a, catalog) && KeyedById(a.events) && KeyedById(a'.events)
    requires A.public.deviceId != B.public.deviceId
    requires a' == AdmitAll(prim, A, a, B.public, sent).0
    ensures forall e :: e in Answered(B, A, b, a') && Offered(prim, A, B, e).Some? ==>
      InStock(a', B.public, catalog, Offered(prim, A, B, e).value)
  {
    hide Serves, Offered, OwnEvents;
    StreamIdSymmetric(A.public.deviceId, B.public.deviceId);
    AnsweredMembers(B, A, b, a');
    AdmitAllAddsPeerEvents(prim, A, a, B.public, sent);
    AdmitAllServes(prim, A, a, B.public, sent);
    hide AdmitAll, ServesAsMuch;
    forall e | e in Answered(B, A, b, a') && Offered(prim, A, B, e).Some?
      ensures InStock(a', B.public, catalog, Offered(prim, A, B, e).value)
    {
      assert a'.events[e.id] == e && e.author == A.public.deviceId;
      assert a.events[e.id] == e;
      assert e in Stream(a.events, Between(A, B));
      ServesLasts(a, a', B.public, Offered(prim, A, B, e).value);
    }
  }

  lemma InOrderCanSync(
    prim: Primitives, A: Identity, B: Identity, a: Tables, b: Tables, catalog: map<string, FileManifest>)
    requires InOrder(prim, A, B, a, b, catalog)
    ensures CanSync(prim, prim, B, A, A.public.deviceId, b, a)
  {
    ExchangeListed(prim, A, B, a, b, catalog);
    HonestBoth(prim, A, B, a, b);
    hide Exchange, Coherent, Sound, Stocked, CanSync, WellKeyed, Ideal;
    var (b', a', ok) := Exchange(prim, B, A, b, a);
    var peer := LookupPeer(b.peers, A.public.deviceId).value;
    hide ManifestsListed, CanHelp;
    forall id | id in IncompleteFor(b', A.public.deviceId)
      ensures CanHelp(prim, B, A, peer, b'.manifests[id].manifest, b', a')
    {
      ListedIsHelped(prim, A, B, b', a', catalog, peer, id);
    }
    CoherentCanSync(prim, B, A, b, a);
  }

  lemma ListedIsHelped(
    prim: Primitives, A: Identity, B: Identity, b: Tables, a: Tables, catalog: map<string, FileManifest>, peer: Peer,
    id: string)
    requires ManifestsListed(A.public.deviceId, B.public, b, a, catalog) && id in IncompleteFor(b, A.public.deviceId)
    requires Ideal(prim) && WellKeyed(prim, A) && WellKeyed(prim, B)
    requires Connects(prim, prim, B.public, A.public, peer) && peer.identity == A.public
    ensures CanHelp(prim, B, A, peer, b.manifests[id].manifest, b, a)
  {
    hide Serves, Ideal, WellKeyed, Holds;
  }

  lemma HonestBoth(prim: Primitives, A: Identity, B: Identity, a: Tables, b: Tables)
    requires Coherent(prim, B, A, b, a)
    ensures Ideal(prim) && WellKeyed(prim, A) && WellKeyed(prim, B) && A.public.deviceId != B.public.deviceId
  {
  }

  // ---------- Sending a file keeps everything in order ----------

  /** A new event of the conversation, stored at its author and perhaps at the other end. */
  lemma InsertCoherent(
    prim: Primitives, A: Identity, B: Identity, a: Tables, b: Tables, a1: Tables, b1: Tables, e: EventEnvelope,
    p: Payload)
    requires Coherent(prim, B, A, b, a) && Sound(prim, a1) && Sound(prim, b1) && a1.peers == a.peers
    requires e.id !in a.events && e.id !in b.events && a1.events == Insert(a.events, e)
    requires b1.events == b.events || b1.events == Insert(b.events, e)
    requires e.author == A.public.deviceId && e.stream == Between(B, A) && Genuine(prim, B, A, e, p)
    ensures Coherent(prim, B, A, b1, a1)
  {
    hide Sound, Ideal, WellKeyed, Genuine;
    var S := Between(B, A);
    InsertStream(a, a1, e, S);
    if b1.events != b.events { InsertStream(b, b1, e, S); }
    hide Stream;
  }

  lemma InsertStream(t: Tables, t1: Tables, e: EventEnvelope, stream: string)
    requires e.id !in t.events && t1.events == Insert(t.events, e) && e.stream == stream
    ensures Stream(t1.events, stream) == Stream(t.events, stream) + {e}
  {
    assert t1.events[e.id] == e;
    forall x | x in Stream(t.events, stream)
      ensures x in Stream(t1.events, stream)
    {
      var id :| id in t.events && t.events[id] == x;
      assert t1.events[id] == x;
    }
  }

  lemma KeepsServing(a: Tables, a1: Tables, peerId: DeviceId, m: FileManifest, e: EventEnvelope)
    requires FileKept(a, a1, peerId, m, e) && m.id !in a.manifests
    ensures ServesAsMuch(a, a1) && a1.events == Insert(a.events, e)
    ensures m.id in a1.manifests && a1.manifests[m.id].manifest == m && HashesOf(m.chunks) <= a1.blobs.Keys
  {
    var ingested :| KeptVia(a, ingested, a1, peerId, m, e);
    SavedManifests(ingested, peerId, m);
    assert SaveManifest(ingested, peerId, m).manifests[m.id].manifest == m;
    hide SaveManifest;
  }

  lemma KeepsStocked(
    prim: Primitives, A: Identity, B: Identity, a: Tables, a1: Tables, catalog: map<string, FileManifest>,
    m: FileManifest, e: EventEnvelope)
    requires Stocked(prim, A, B, a, catalog) && m.id !in catalog && ServesAsMuch(a, a1)
    requires Stream(a1.events, Between(A, B)) == Stream(a.events, Between(A, B)) + {e}
    requires Offered(prim, A, B, e) == Some(m) && InStock(a1, B.public, catalog[m.id := m], m)
    ensures Stocked(prim, A, B, a1, catalog[m.id := m])
  {
    hide Offered, Serves, ServesAsMuch, Stream;
    var after := catalog[m.id := m];
    forall x | x in Stream(a1.events, Between(A, B)) && x.author == A.public.deviceId && Offered(prim, A, B, x).Some?
      ensures InStock(a1, B.public, after, Offered(prim, A, B, x).value)
    {
      if x != e {
        ServesLasts(a, a1, B.public, Offered(prim, A, B, x).value);
      }
    }
  }

  lemma ListedMore(
    A: DeviceId, B: PublicIdentity, b: Tables, a: Tables, catalog: map<string, FileManifest>, m: FileManifest)
    requires ManifestsListed(A, B, b, a, catalog) && m.id !in catalog
    ensures ManifestsListed(A, B, b, a, catalog[m.id := m])
  {
    hide Holds, Serves;
  }

  lemma FillsListed(
    A: DeviceId, B: PublicIdentity, b: Tables, b': Tables, a: Tables, catalog: map<string, FileManifest>)
    requires ManifestsListed(A, B, b, a, catalog) && Fills(b, b')
    ensures ManifestsListed(A, B, b', a, catalog)
  {
    hide Serves, Holds;
    forall id | id in b'.manifests
      ensures Holds(b', catalog[id])
      ensures MissingChunks(b', id) != [] ==> MissingChunks(b, id) != []
    {
      FillsHolds(b, b', catalog[id]);
      FillsRaised(b, b', id);
      MissingFalls(RowsOf(b, id), RowsOf(b', id));
    }
  }

  lemma OfferListed(
    prim: Primitives, A: Identity, B: Identity, b: Tables, b1: Tables, a: Tables, catalog: map<string, FileManifest>,
    m: FileManifest, e: EventEnvelope)
    requires ManifestsListed(A.public.deviceId, B.public, b, a, catalog) && Sound(prim, b)
    requires FileOffered(prim, B, A.public, e, b, b1) && Trusts(b, A.public) && e.author == A.public.deviceId
    requires Offered(prim, A, B, e) == Some(m) && InStock(a, B.public, catalog, m)
    ensures ManifestsListed(A.public.deviceId, B.public, b1, a, catalog) && b1.peers == b.peers
    ensures b1.events == b.events || b1.events == Insert(b.events, e)
  {
    hide Sound, ManifestsListed, InStock, OpenItem, Admit;
    var payload := OpenItem(prim, B, A.public, e).value.payload;
    AdmitListed(prim, A.public.deviceId, B.public, b, a, catalog, e, payload);
    var t := Admit(b, A.public.deviceId, e, payload);
    if b1 != b {
      FillsListed(A.public.deviceId, B.public, t, b1, a, catalog);
    }
  }

  /** Sending a file leaves both stores in order, wherever the sending stopped. */
  lemma SendKeepsOrder(
    prim: Primitives, A: Identity, B: Identity, a: Tables, b: Tables, a1: Tables, b1: Tables,
    catalog: map<string, FileManifest>,
    m: FileManifest, e: EventEnvelope)
    requires InOrder(prim, A, B, a, b, catalog) && m.id !in catalog && m.id !in a.manifests && Increasing(m.chunks)
    requires e == SealEvent(prim, A, B.public, Between(A, B), ManifestKind, ManifestPayload(m), e.id, e.time, e.nonce)
    requires e.id !in a.events && e.id !in b.events && Sound(prim, a1) && Sound(prim, b1)
    requires FileKept(a, a1, B.public.deviceId, m, e) && FileOffered(prim, B, A.public, e, b, b1)
    ensures InOrder(prim, A, B, a1, b1, catalog[m.id := m])
  {
    hide Sound, Stocked, ManifestsListed, FileKept, FileOffered, Holds;
    HonestBoth(prim, A, B, a, b);
    StreamIdSymmetric(A.public.deviceId, B.public.deviceId);
    SealedIsOffered(prim, A, B, m, e);
    KeepsServing(a, a1, B.public.deviceId, m, e);
    var after := catalog[m.id := m];
    assert InStock(a1, B.public, after, m);
    InsertStream(a, a1, e, Between(A, B));
    KeepsStocked(prim, A, B, a, a1, catalog, m, e);
    ListedLasts(A.public.deviceId, B.public, b, a, a1, catalog);
    ListedMore(A.public.deviceId, B.public, b, a1, catalog, m);
    SoundBoth(prim, B, A, b, a);
    OfferListed(prim, A, B, b, b1, a1, after, m, e);
    assert Genuine(prim, B, A, e, ManifestPayload(m));
    hide Genuine, Coherent, InStock;
    InsertCoherent(prim, A, B, a, b, a1, b1, e, ManifestPayload(m));
  }

  lemma SealedIsOffered(prim: Primitives, A: Identity, B: Identity, m: FileManifest, e: EventEnvelope)
    requires Ideal(prim) && WellKeyed(prim, A) && WellKeyed(prim, B) && A.public.deviceId != B.public.deviceId
    requires e == SealEvent(prim, A, B.public, Between(A, B), ManifestKind, ManifestPayload(m), e.id, e.time, e.nonce)
    ensures Offered(prim, A, B, e) == Some(m) && e.author == A.public.deviceId && e.stream == Between(A, B)
  {
    EventRoundTrip(prim, A, B, Between(A, B), ManifestKind, ManifestPayload(m), e.id, e.time, e.nonce);
  }
}
