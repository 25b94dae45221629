/** A file from end to end: sent over a link that may break anywhere, then fetched by a later
    successful sync of the receiver, then written out. */
module Transfer {
  import opened Wrappers
  import opened Model
  import opened Crypto
  import opened ChunkRows
  import opened EventLog
  import opened Tables
  import opened Files
  import opened Protocol
  import opened Nodes
  import opened SyncLaws
  import opened Delivery

  /** If the event can be read as a manifest at all, it is one with another id. */
  ghost predicate NamesOther(
    prim: Primitives, me: Identity, peer: PublicIdentity, e: EventEnvelope, manifestId: string) {
    OpenItem(prim, me, peer, e).Ok? ==>
      var m := ManifestIn(e, OpenItem(prim, me, peer, e).value.payload);
      m.None? || m.value.id != manifestId
  }

  /** How far the receiver is: it either has the event together with the manifest and its chunk
      rows, or knows neither. */
  ghost predicate Ready(t: Tables, e: EventEnvelope, m: FileManifest, sender: DeviceId) {
    if e.id in t.events then
      t.events[e.id] == e && Holds(t, m) && t.manifests[m.id].peer == sender
    else
      m.id !in t.manifests && m.id !in t.chunks
  }

  /** The event that announces file `m`, sent by `A` to `B`. */
  ghost predicate Announces(prim: Primitives, A: Identity, B: Identity, e: EventEnvelope, m: FileManifest) {
    && e == SealEvent(prim, A, B.public, Between(A, B), ManifestKind, ManifestPayload(m), e.id, e.time, e.nonce)
    && Increasing(m.chunks)
  }

  ghost predicate Honest(prim: Primitives, A: Identity, B: Identity) {
    && Ideal(prim) && HashInjective(prim)
    && WellKeyed(prim, A) && WellKeyed(prim, B) && A.public.deviceId != B.public.deviceId
  }

  lemma FillsReady(t: Tables, t': Tables, e: EventEnvelope, m: FileManifest, sender: DeviceId)
    requires Ready(t, e, m, sender) && Fills(t, t')
    ensures Ready(t', e, m, sender)
  {
    if e.id in t.events {
      FillsHolds(t, t', m);
    }
  }

  lemma AdmitReady(
    prim: Primitives, A: Identity, B: Identity, t: Tables, e: EventEnvelope, m: FileManifest, x: EventEnvelope,
    payload: Payload)
    requires Sound(prim, t) && Ready(t, e, m, A.public.deviceId) && Announces(prim, A, B, e, m)
    requires x == e ==> payload == ManifestPayload(m)
    requires x != e ==> x.id != e.id && (ManifestIn(x, payload).None? || payload.manifest.id != m.id)
    ensures Ready(Admit(t, A.public.deviceId, x, payload), e, m, A.public.deviceId)
  {
    var t1 := t.(events := Insert(t.events, x));
    if x.id !in t.events {
      InsertEventSound(prim, t, x);
      if x == e {
        SaveManifestHolds(prim, t1, A.public.deviceId, m);
      } else if ManifestIn(x, payload).Some? {
        SaveManifestRows(t1, A.public.deviceId, payload.manifest);
      }
    }
  }

  /** Events other than the announcement concern other ids and other manifests. */
  ghost predicate Unrelated(
    prim: Primitives, me: Identity, peer: PublicIdentity, x: EventEnvelope, e: EventEnvelope, m: FileManifest) {
    x != e ==> x.id != e.id && NamesOther(prim, me, peer, x, m.id)
  }

  lemma {:induction false} AdmitAllReady(
    prim: Primitives, A: Identity, B: Identity, t: Tables, e: EventEnvelope, m: FileManifest, es: seq<EventEnvelope>)
    requires Honest(prim, A, B) && Sound(prim, t) && Ready(t, e, m, A.public.deviceId) && Announces(prim, A, B, e, m)
    requires forall x :: x in es ==> Unrelated(prim, B, A.public, x, e, m)
    ensures var (t', ok) := AdmitAll(prim, B, t, A.public, es);
            && Ready(t', e, m, A.public.deviceId)
            && (ok && e in es ==> e.id in t'.events)
    decreases es
  {
    if es != [] {
      assert es[0] in es;
      assert forall x :: x in es[1..] ==> x in es;
      EventRoundTrip(prim, A, B, Between(A, B), ManifestKind, ManifestPayload(m), e.id, e.time, e.nonce);
      var item := OpenItem(prim, B, A.public, es[0]);
      if es[0].author != A.public.deviceId {
        AdmitAllReady(prim, A, B, t, e, m, es[1..]);
      } else if item.Ok? {
        var next := Admit(t, A.public.deviceId, es[0], item.value.payload);
        AdmitReady(prim, A, B, t, e, m, es[0], item.value.payload);
        AdmitSound(prim, t, A.public.deviceId, es[0], item.value.payload);
        AdmitAllReady(prim, A, B, next, e, m, es[1..]);
        AdmitAllKeeps(prim, B, next, A.public, es[1..]);
      }
    }
  }

  /** The stores before the transfer: both devices hold each other as paired under their true
      identities, and the ids drawn for the file are new. */
  ghost predicate BeforeSend(
    prim: Primitives, A: Identity, B: Identity, a: Tables, b: Tables, id: string, manifestId: string) {
    && Sound(prim, a) && Sound(prim, b)
    && Reachable(a, B.public.deviceId) && IsPaired(a, B.public.deviceId)
    && a.peers[B.public.deviceId].identity == B.public
    && A.public.deviceId in b.peers && b.peers[A.public.deviceId].identity == A.public
    && id !in a.events && id !in b.events && manifestId !in a.manifests && manifestId !in b.manifests
    && (forall x :: x in a.events ==> NamesOther(prim, B, A.public, a.events[x], manifestId))
  }

  /** Whatever the fate of the push and of its chunk batches, the receiver is `Ready` afterwards. */
  lemma OfferedReady(
    prim: Primitives, A: Identity, B: Identity, e: EventEnvelope, m: FileManifest, b: Tables, b1: Tables)
    requires Honest(prim, A, B) && Sound(prim, b) && Announces(prim, A, B, e, m)
    requires Ready(b, e, m, A.public.deviceId) && e.id !in b.events
    requires FileOffered(prim, B, A.public, e, b, b1)
    ensures Ready(b1, e, m, A.public.deviceId) && b1.peers == b.peers
  {
    if b1 != b {
      var o := HandlePush(prim, B, b, A.public, e);
      EventRoundTrip(prim, A, B, Between(A, B), ManifestKind, ManifestPayload(m), e.id, e.time, e.nonce);
      AdmitReady(prim, A, B, b, e, m, e, ManifestPayload(m));
      FillsReady(o.t, b1, e, m, A.public.deviceId);
    }
  }

  /** A successful sync by the receiver completes the file. */
  lemma SyncCompletes(
    prim: Primitives, A: Identity, B: Identity, e: EventEnvelope, m: FileManifest, a1: Tables, b1: Tables, a2: Tables,
    b2: Tables)
    requires Honest(prim, A, B) && Announces(prim, A, B, e, m) && Ready(b1, e, m, A.public.deviceId)
    requires Synced(prim, prim, B, A, A.public.deviceId, b1, a1, b2, a2) && Sound(prim, b2)
    requires b1.peers[A.public.deviceId].identity == A.public
    requires e.id in a1.events && a1.events[e.id] == e
    requires forall x :: x in a1.events && a1.events[x].author == A.public.deviceId ==>
      Unrelated(prim, B, A.public, a1.events[x], e, m)
    ensures Holds(b2, m) && MissingChunks(b2, m.id) == []
  {
    StreamIdSymmetric(A.public.deviceId, B.public.deviceId);
    var S := Between(B, A);
    var sent := OwnEvents(B.public.deviceId, b1, S);
    var o := HandleSync(prim, A, a1, B.public, S, StreamIds(b1, S), sent);
    AdmitAllSound(prim, A, a1, B.public, sent);
    AdmitAllKeeps(prim, A, a1, B.public, sent);
    AdmitAllAddsPeerEvents(prim, A, a1, B.public, sent);
    AnsweredMembers(B, A, b1, o.t);
    var answer := Answered(B, A, b1, o.t);
    assert o.body.events == answer;
    forall x | x in answer
      ensures Unrelated(prim, B, A.public, x, e, m)
    {
      assert a1.events[x.id] == x;
    }
    AdmitAllReady(prim, A, B, b1, e, m, answer);
    AdmitAllKeeps(prim, B, b1, A.public, answer);
    var filled := AdmitAll(prim, B, b1, A.public, answer).0;
    assert e in Stream(o.t.events, S) by {
      assert o.t.events[e.id] == e;
    }
    FillsReady(filled, b2, e, m, A.public.deviceId);
    assert m.id !in IncompleteFor(b2, A.public.deviceId);
  }

  /** Main result. For every file, every way its reads are split, and every fate of the announcement and
      of each chunk batch: if a later sync of the receiver succeeds, the receiver then writes exactly the
      original bytes; and between devices whose stores are in order that sync does succeed over a link that
      delivers, if its frames fit, which the stores `a1` and `b1` that sending left decide. All this up to the number
      of chunks that 32-bit numbers can tell apart. */
  method SendBreakSyncMaterialize(
    a: Node, b: Node, file: Reader, name: string, mediaType: string, manifestId: string,
    id: string, time: int, nonce: Bytes, sendLink: nat -> Fate, syncLink: nat -> Fate,
    now: int, nonces: nat -> Bytes, fs: FileSystem, to: Path, ghost catalog: map<string, FileManifest>)
    returns (
      sent: Result<ChatItem>, synced: Result<()>, written: Result<()>,
      ghost m: FileManifest, ghost a1: Tables, ghost b1: Tables)
    requires a.Valid() && b.Valid() && a != b && a.store != b.store && file.pos == 0
    requires a.store.prim == b.store.prim && Honest(a.store.prim, a.me, b.me)
    requires BeforeSend(a.store.prim, a.me, b.me, a.View(), b.View(), id, manifestId)
    modifies a, a.store, b, b.store, file, fs
    ensures m.id == manifestId && |m.chunks| <= |file.content|
    ensures synced.Ok? && |m.chunks| <= TWO_32 ==> written.Ok? && to in fs.files && fs.files[to] == file.content
    ensures
      var e := SealEvent(a.store.prim, a.me, b.me.public, Between(a.me, b.me),
                         ManifestKind, ManifestPayload(m), id, time, nonce);
      && FileKept(old(a.View()), a1, b.me.public.deviceId, m, e)
      && FileOffered(a.store.prim, b.me, a.me.public, e, old(b.View()), b1)
    ensures (forall k :: syncLink(k) == Delivered) && |m.chunks| <= TWO_32 && manifestId !in catalog ==>
      (InOrder(a.store.prim, a.me, b.me, old(a.View()), old(b.View()), catalog) ==>
        (SyncCarried(a.store.prim, b.me, a.me, a.me.public.deviceId, b1, a1, nonces) ==>
          synced.Ok? && written.Ok? && to in fs.files && fs.files[to] == file.content))
  {
    hide Sound, Fills, Rebuilds, FileOffered, FilePushed, FileKept, Announces, Ready, Numbered;
    hide Synced, SealEvent, Holds, NamesOther;
    hide InOrder, CanSync, Companions, Partway, SyncCarried, EventsCarried, FileCarried;
    ghost var prim := a.store.prim;
    ghost var ta, tb := a.View(), b.View();
    ghost var kept;
    sent, kept := a.SendFile(
      b.me.public.deviceId, file, name, mediaType, manifestId, b, sendLink, id, time, nonce, now, nonces);
    m := kept.value;
    a1, b1 := a.View(), b.View();
    ghost var e := SealEvent(prim, a.me, b.me.public, Between(a.me, b.me), ManifestKind, ManifestPayload(m), id, time,
      nonce);
    Prepared(prim, a.me, b.me, e, m, ta, tb, a1, b1, id, time, nonce);
    StillInOrder(prim, a.me, b.me, e, m, ta, tb, a1, b1, id, time, nonce, catalog);
    synced := b.Sync(a.me.public.deviceId, a, syncLink, now, nonces);
    written := Err("not synced");
    if synced.Ok? {
      if |m.chunks| <= TWO_32 {
        SyncCompletes(prim, a.me, b.me, e, m, a1, b1, a.View(), b.View());
        HeldManifest(b.View(), m);
        MaterializeRestores(prim, b.View(), m, file.content, fs.files, to);
      }
      var stored := b.store.GetManifest(manifestId);
      if stored.Some? {
        written := MaterializeFile(b.store, stored.value, fs, to);
      }
    }
  }

  lemma StillInOrder(
    prim: Primitives, A: Identity, B: Identity, e: EventEnvelope, m: FileManifest,
    a: Tables, b: Tables, a1: Tables, b1: Tables, id: string, time: int, nonce: Bytes,
    catalog: map<string, FileManifest>)
    requires BeforeSend(prim, A, B, a, b, id, m.id) && Numbered(m.chunks) && Sound(prim, a1) && Sound(prim, b1)
    requires e == SealEvent(prim, A, B.public, Between(A, B), ManifestKind, ManifestPayload(m), id, time, nonce)
    requires FileKept(a, a1, B.public.deviceId, m, e) && FileOffered(prim, B, A.public, e, b, b1)
    ensures |m.chunks| <= TWO_32 && m.id !in catalog && InOrder(prim, A, B, a, b, catalog) ==>
      CanSync(prim, prim, B, A, A.public.deviceId, b1, a1)
  {
    hide Sound, InOrder, CanSync, FileKept, FileOffered, NamesOther;
    NumbersExactUpTo32Bits(m.chunks);
    if |m.chunks| <= TWO_32 && m.id !in catalog && InOrder(prim, A, B, a, b, catalog) {
      SendKeepsOrder(prim, A, B, a, b, a1, b1, catalog, m, e);
      InOrderCanSync(prim, A, B, a1, b1, catalog[m.id := m]);
    }
  }

  /** What sending leaves on both sides, whatever was lost. */
  lemma Prepared(
    prim: Primitives, A: Identity, B: Identity, e: EventEnvelope, m: FileManifest,
    a: Tables, b: Tables, a1: Tables, b1: Tables, id: string, time: int, nonce: Bytes)
    requires Honest(prim, A, B) && BeforeSend(prim, A, B, a, b, id, m.id) && Numbered(m.chunks)
    requires e == SealEvent(prim, A, B.public, Between(A, B), ManifestKind, ManifestPayload(m), id, time, nonce)
    requires FileKept(a, a1, B.public.deviceId, m, e) && FileOffered(prim, B, A.public, e, b, b1)
    ensures A.public.deviceId in b1.peers && b1.peers[A.public.deviceId].identity == A.public
    ensures e.id == id && e.id in a1.events && a1.events[e.id] == e
    ensures forall x :: x in a1.events ==> Unrelated(prim, B, A.public, a1.events[x], e, m)
    ensures |m.chunks| <= TWO_32 ==> Announces(prim, A, B, e, m) && Ready(b1, e, m, A.public.deviceId)
  {
    hide Sound, Fills, FileKept, FileOffered;
    NumbersExactUpTo32Bits(m.chunks);
    SenderKeeps(prim, A, B, e, m, a, a1);
    OfferedPeers(prim, A, B, e, b, b1);
    if |m.chunks| <= TWO_32 {
      assert m.id !in b.chunks by { SoundHasRows(prim, b); }
      OfferedReady(prim, A, B, e, m, b, b1);
    }
  }

  lemma OfferedPeers(prim: Primitives, A: Identity, B: Identity, e: EventEnvelope, b: Tables, b1: Tables)
    requires FileOffered(prim, B, A.public, e, b, b1)
    ensures b1.peers == b.peers
  {
    PushKeeps(prim, B, b, A.public, e);
  }

  lemma SenderKeeps(
    prim: Primitives, A: Identity, B: Identity, e: EventEnvelope, m: FileManifest, a: Tables, a1: Tables)
    requires FileKept(a, a1, B.public.deviceId, m, e) && e.id !in a.events && Sound(prim, a)
    requires forall x :: x in a.events ==> NamesOther(prim, B, A.public, a.events[x], m.id)
    ensures e.id in a1.events && a1.events[e.id] == e
    ensures forall x :: x in a1.events ==> Unrelated(prim, B, A.public, a1.events[x], e, m)
  {
  }
}
