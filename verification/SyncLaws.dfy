/** What the two-way event exchange of `sync` achieves, on the stores of two devices `A` (client)
    and `B` (server): it unites the two logs, both sides then show the same conversation, and a
    repetition after a failure at any point ends where a single successful exchange would have. */
module SyncLaws {
  import opened Wrappers
  import opened Model
  import opened Crypto
  import opened EventLog
  import opened Tables
  import opened Protocol
  import opened Nodes

  function Between(A: Identity, B: Identity): string {
    DirectStreamId(A.public.deviceId, B.public.deviceId)
  }

  /** `e` is the envelope of payload `p`, created by one of the two devices for the other. */
  ghost predicate Genuine(prim: Primitives, A: Identity, B: Identity, e: EventEnvelope, p: Payload) {
    || e == SealEvent(prim, A, B.public, Between(A, B), e.kind, p, e.id, e.time, e.nonce)
    || e == SealEvent(prim, B, A.public, Between(A, B), e.kind, p, e.id, e.time, e.nonce)
  }

  ghost predicate StreamGenuine(prim: Primitives, A: Identity, B: Identity, t: Tables) {
    forall e :: e in Stream(t.events, Between(A, B)) ==> exists p :: Genuine(prim, A, B, e, p)
  }

  /** Every event that `author` wrote and `t` holds in this stream is also in the author's store. */
  ghost predicate KeptByAuthor(author: DeviceId, stream: string, t: Tables, own: Tables) {
    forall e :: e in Stream(t.events, stream) && e.author == author ==> e in Stream(own.events, stream)
  }

  ghost predicate IdsAgree(a: Tables, b: Tables) {
    forall id :: id in a.events && id in b.events ==> a.events[id] == b.events[id]
  }

  /** What holds of the stores of any two honest paired devices (`RunLaws.PairIsCoherent`). */
  ghost predicate Coherent(prim: Primitives, A: Identity, B: Identity, a: Tables, b: Tables) {
    Compatible(prim, A, B, a, b) && Trusts(b, A.public)
  }

  /** The same, before they are paired. */
  ghost predicate Compatible(prim: Primitives, A: Identity, B: Identity, a: Tables, b: Tables) {
    && Ideal(prim) && WellKeyed(prim, A) && WellKeyed(prim, B) && A.public.deviceId != B.public.deviceId
    && Sound(prim, a) && Sound(prim, b) && IdsAgree(a, b)
    && StreamGenuine(prim, A, B, a) && StreamGenuine(prim, A, B, b)
    && KeptByAuthor(B.public.deviceId, Between(A, B), a, b)
    && KeptByAuthor(A.public.deviceId, Between(A, B), b, a)
  }

  // ---------- Admitting lists of events ----------

  /** All events of the list are by the peer and can be read. */
  ghost predicate Acceptable(prim: Primitives, me: Identity, peer: PublicIdentity, es: seq<EventEnvelope>) {
    forall e :: e in es ==> e.author == peer.deviceId && OpenItem(prim, me, peer, e).Ok?
  }

  lemma {:induction false} AdmitAllAppend(
    prim: Primitives, me: Identity, t: Tables, peer: PublicIdentity, xs: seq<EventEnvelope>, ys: seq<EventEnvelope>)
    requires Acceptable(prim, me, peer, xs)
    ensures AdmitAll(prim, me, t, peer, xs).1
    ensures AdmitAll(prim, me, t, peer, xs + ys) == AdmitAll(prim, me, AdmitAll(prim, me, t, peer, xs).0, peer, ys)
    ensures AdmitAll(prim, me, t, peer, xs).0.events == InsertAll(t.events, xs)
    decreases xs
  {
    if xs == [] {
      assert xs + ys == ys;
    } else {
      assert (xs + ys)[0] == xs[0] && (xs + ys)[1..] == xs[1..] + ys;
      assert xs[0] in xs;
      var next := Admit(t, peer.deviceId, xs[0], OpenItem(prim, me, peer, xs[0]).value.payload);
      AdmitAllAppend(prim, me, next, peer, xs[1..], ys);
    }
  }

  /** Events whose ids are known change nothing. */
  lemma {:induction false} AdmitAllKnown(
    prim: Primitives, me: Identity, t: Tables, peer: PublicIdentity, es: seq<EventEnvelope>)
    requires Acceptable(prim, me, peer, es) && forall e :: e in es ==> e.id in t.events
    ensures AdmitAll(prim, me, t, peer, es) == (t, true)
    decreases es
  {
    if es != [] {
      assert es[0] in es;
      AdmitAllKnown(prim, me, t, peer, es[1..]);
    }
  }

  lemma {:induction false} InsertAllKnows(log: Log, es: seq<EventEnvelope>)
    ensures forall id :: id in log ==> id in InsertAll(log, es)
    ensures forall e :: e in es ==> e.id in InsertAll(log, es)
    decreases es
  {
    if es != [] {
      InsertAllKnows(Insert(log, es[0]), es[1..]);
      assert es == [es[0]] + es[1..];
    }
  }

  /** Admitting a prefix first and then the whole list is the same as admitting the list. */
  lemma PrefixThenAll(prim: Primitives, me: Identity, t: Tables, peer: PublicIdentity, es: seq<EventEnvelope>, i: nat)
    requires Acceptable(prim, me, peer, es) && i <= |es|
    ensures var t1 := AdmitAll(prim, me, t, peer, es[..i]).0;
            && AdmitAll(prim, me, t1, peer, es) == AdmitAll(prim, me, t, peer, es)
            && AdmitAll(prim, me, t1, peer, es[i..]) == AdmitAll(prim, me, t, peer, es)
  {
    var xs, ys := es[..i], es[i..];
    assert es == xs + ys;
    var t1 := AdmitAll(prim, me, t, peer, xs).0;
    AdmitAllAppend(prim, me, t, peer, xs, ys);
    InsertAllKnows(t.events, xs);
    AdmitAllKnown(prim, me, t1, peer, xs);
    AdmitAllAppend(prim, me, t1, peer, xs, ys);
  }

  // ---------- The exchange ----------

  ghost function Sent(A: Identity, B: Identity, a: Tables): seq<EventEnvelope>
    requires KeyedById(a.events)
  {
    OwnEvents(A.public.deviceId, a, Between(A, B))
  }

  /** The server's answer, computed from its tables after it has admitted what was sent. */
  ghost function Answered(A: Identity, B: Identity, a: Tables, b: Tables): seq<EventEnvelope>
    requires KeyedById(b.events)
  {
    Unknown(StreamIds(a, Between(A, B)), OwnEvents(B.public.deviceId, b, Between(A, B)))
  }

  /** Both stores after an uninterrupted exchange, and whether it succeeded. */
  ghost function Exchange(prim: Primitives, A: Identity, B: Identity, a: Tables, b: Tables): (Tables, Tables, bool)
    requires Sound(prim, a) && Sound(prim, b)
  {
    var (b', ok) := AdmitAll(prim, B, b, A.public, Sent(A, B, a));
    if !ok then (a, b', false)
    else
      AdmitAllSound(prim, B, b, A.public, Sent(A, B, a));
      var (a', done) := AdmitAll(prim, A, a, B.public, Answered(A, B, a, b'));
      (a', b', done)
  }

  /** The event part of `Node.Sync` is this exchange; resuming files afterwards only fills. */
  lemma SyncIsExchange(prim: Primitives, A: Identity, B: Identity, a: Tables, b: Tables, a': Tables, b': Tables)
    requires Synced(prim, prim, A, B, B.public.deviceId, a, b, a', b')
    requires Trusts(b, A.public) && a.peers[B.public.deviceId].identity == B.public
    ensures var (x, y, ok) := Exchange(prim, A, B, a, b); ok && b' == y && Fills(x, a')
  {
    StreamIdSymmetric(A.public.deviceId, B.public.deviceId);
  }

  lemma GenuineAcceptable(prim: Primitives, A: Identity, B: Identity, e: EventEnvelope, p: Payload)
    requires Ideal(prim) && WellKeyed(prim, A) && WellKeyed(prim, B) && A.public.deviceId != B.public.deviceId
    requires Genuine(prim, A, B, e, p)
    ensures OpenItem(prim, A, B.public, e) == Ok(ChatItem(e.id, e.author, e.time, p))
    ensures OpenItem(prim, B, A.public, e) == Ok(ChatItem(e.id, e.author, e.time, p))
  {
    if e == SealEvent(prim, A, B.public, Between(A, B), e.kind, p, e.id, e.time, e.nonce) {
      EventRoundTrip(prim, A, B, Between(A, B), e.kind, p, e.id, e.time, e.nonce);
    } else {
      EventRoundTrip(prim, B, A, Between(A, B), e.kind, p, e.id, e.time, e.nonce);
    }
  }

  lemma OwnEventsMembers(me: DeviceId, t: Tables, stream: string)
    requires KeyedById(t.events)
    ensures StrictlySorted(OwnEvents(me, t, stream))
    ensures forall e :: e in OwnEvents(me, t, stream) <==> e in Stream(t.events, stream) && e.author == me
  {
    var es := Events(t.events, stream);
    BySorted(me, es);
    ByMembers(me, es);
    assert forall e :: e in es <==> e in Elements(es);
  }

  lemma AnsweredMembers(A: Identity, B: Identity, a: Tables, b: Tables)
    requires KeyedById(b.events)
    ensures StrictlySorted(Answered(A, B, a, b))
    ensures forall e :: e in Answered(A, B, a, b) <==>
      e in Stream(b.events, Between(A, B)) && e.author == B.public.deviceId && e.id !in StreamIds(a, Between(A, B))
  {
    var own := OwnEvents(B.public.deviceId, b, Between(A, B));
    OwnEventsMembers(B.public.deviceId, b, Between(A, B));
    UnknownSorted(StreamIds(a, Between(A, B)), own);
    UnknownMembers(StreamIds(a, Between(A, B)), own);
  }

  lemma SentAcceptable(prim: Primitives, A: Identity, B: Identity, a: Tables, b: Tables)
    requires Coherent(prim, A, B, a, b)
    ensures Acceptable(prim, B, A.public, Sent(A, B, a))
  {
    OwnEventsMembers(A.public.deviceId, a, Between(A, B));
    forall e | e in Sent(A, B, a)
      ensures e.author == A.public.deviceId && OpenItem(prim, B, A.public, e).Ok?
    {
      var p :| Genuine(prim, A, B, e, p);
      GenuineAcceptable(prim, A, B, e, p);
    }
  }

  lemma Coherence(prim: Primitives, A: Identity, B: Identity, a: Tables, b: Tables)
    requires Coherent(prim, A, B, a, b)
    ensures KeyedById(a.events) && KeyedById(b.events) && IdsAgree(a, b)
    ensures KeptByAuthor(B.public.deviceId, Between(A, B), a, b) && KeptByAuthor(A.public.deviceId, Between(A, B), b, a)
    ensures forall e :: e in Stream(a.events, Between(A, B)) + Stream(b.events, Between(A, B)) ==>
      e.author == A.public.deviceId || e.author == B.public.deviceId
  {
    hide Sound;
    assert KeyedById(a.events) && KeyedById(b.events) by { SoundIsKeyed(prim, a); SoundIsKeyed(prim, b); }
    forall e | e in Stream(a.events, Between(A, B)) + Stream(b.events, Between(A, B))
      ensures e.author == A.public.deviceId || e.author == B.public.deviceId
    {
      var p :| Genuine(prim, A, B, e, p);
    }
  }

  /** The server's log after it has admitted what was sent. */
  lemma ServerStream(prim: Primitives, A: Identity, B: Identity, a: Tables, b: Tables)
    requires Coherent(prim, A, B, a, b)
    ensures var (b', ok) := AdmitAll(prim, B, b, A.public, Sent(A, B, a));
            && ok && Sound(prim, b')
            && Stream(b'.events, Between(A, B)) == Stream(a.events, Between(A, B)) + Stream(b.events, Between(A, B))
            && Contents(b'.events) == Contents(b.events) + Elements(Sent(A, B, a))
  {
    hide Sound, AdmitAll, OwnEvents, StreamGenuine, Acceptable;
    Coherence(prim, A, B, a, b);
    hide Coherent;
    var sent, S := Sent(A, B, a), Between(A, B);
    assert Acceptable(prim, B, A.public, sent) && Sound(prim, b) by { SentAcceptable(prim, A, B, a, b); }
    assert sent + [] == sent;
    AdmitAllAppend(prim, B, b, A.public, sent, []);
    AdmitAllSound(prim, B, b, A.public, sent);
    OwnEventsMembers(A.public.deviceId, a, S);
    UniqueAcross(a, b, Elements(sent));
    InsertAllIsUnion(b.events, sent);
    var b' := AdmitAll(prim, B, b, A.public, sent).0;
    SoundIsKeyed(prim, b');
    UnionOfStreams(A.public.deviceId, a, b, b', S, sent);
  }

  lemma UnionOfStreams(author: DeviceId, a: Tables, b: Tables, b': Tables, S: string, sent: seq<EventEnvelope>)
    requires KeyedById(a.events) && KeyedById(b.events) && KeyedById(b'.events)
    requires Contents(b'.events) == Contents(b.events) + Elements(sent)
    requires forall e :: e in sent <==> e in Stream(a.events, S) && e.author == author
    requires forall e :: e in Stream(a.events, S) && e.author != author ==> e in Stream(b.events, S)
    ensures Stream(b'.events, S) == Stream(a.events, S) + Stream(b.events, S)
  {
    StreamIsFilteredContents(b'.events, S);
    StreamIsFilteredContents(b.events, S);
    StreamIsFilteredContents(a.events, S);
  }

  lemma UniqueAcross(a: Tables, b: Tables, part: set<EventEnvelope>)
    requires KeyedById(a.events) && KeyedById(b.events) && IdsAgree(a, b) && part <= Contents(a.events)
    ensures UniqueIds(Contents(b.events) + part)
  {
    forall e, f | e in Contents(b.events) + part && f in Contents(b.events) + part && e.id == f.id
      ensures e == f
    {
      assert e in Contents(a.events) || e in Contents(b.events);
      assert f in Contents(a.events) || f in Contents(b.events);
    }
  }

  lemma AnsweredAcceptable(prim: Primitives, A: Identity, B: Identity, a: Tables, b: Tables, b': Tables)
    requires Coherent(prim, A, B, a, b) && KeyedById(b'.events)
    requires Stream(b'.events, Between(A, B)) <= Stream(a.events, Between(A, B)) + Stream(b.events, Between(A, B))
    ensures Acceptable(prim, A, B.public, Answered(A, B, a, b'))
    ensures Elements(Answered(A, B, a, b')) <= Contents(b.events)
  {
    AnsweredMembers(A, B, a, b');
    forall e | e in Answered(A, B, a, b')
      ensures e.author == B.public.deviceId && OpenItem(prim, A, B.public, e).Ok? && e in Contents(b.events)
    {
      assert e in Stream(b.events, Between(A, B));
      var p :| Genuine(prim, A, B, e, p);
      GenuineAcceptable(prim, A, B, e, p);
    }
  }

  /** The client's log after it has admitted the answer. */
  lemma ClientStream(prim: Primitives, A: Identity, B: Identity, a: Tables, b: Tables, b': Tables)
    requires Coherent(prim, A, B, a, b) && KeyedById(b'.events)
    requires Stream(b'.events, Between(A, B)) == Stream(a.events, Between(A, B)) + Stream(b.events, Between(A, B))
    ensures var (a', ok) := AdmitAll(prim, A, a, B.public, Answered(A, B, a, b'));
            && ok
            && Contents(a'.events) == Contents(a.events) + Elements(Answered(A, B, a, b'))
            && Stream(a'.events, Between(A, B)) == Stream(a.events, Between(A, B)) + Elements(Answered(A, B, a, b'))
  {
    var answer := Answered(A, B, a, b');
    AnsweredAcceptable(prim, A, B, a, b, b');
    AnsweredMembers(A, B, a, b');
    assert answer + [] == answer;
    AdmitAllAppend(prim, A, a, B.public, answer, []);
    UniqueAcross(b, a, Elements(answer));
    InsertAllIsUnion(a.events, answer);
    StreamIsFilteredContents(AdmitAll(prim, A, a, B.public, answer).0.events, Between(A, B));
    StreamIsFilteredContents(a.events, Between(A, B));
  }

  lemma AnswerCompletes(prim: Primitives, A: Identity, B: Identity, a: Tables, b: Tables, b': Tables)
    requires Coherent(prim, A, B, a, b) && KeyedById(b'.events)
    requires Stream(b'.events, Between(A, B)) == Stream(a.events, Between(A, B)) + Stream(b.events, Between(A, B))
    ensures Stream(a.events, Between(A, B)) + Elements(Answered(A, B, a, b'))
         == Stream(a.events, Between(A, B)) + Stream(b.events, Between(A, B))
  {
    hide Sound, OwnEvents, StreamGenuine;
    Coherence(prim, A, B, a, b);
    hide Coherent;
    var S := Between(A, B);
    AnsweredMembers(A, B, a, b');
    forall e | e in Stream(b.events, S)
      ensures e in Stream(a.events, S) || e in Answered(A, B, a, b')
    {
      if e.author == B.public.deviceId && e.id in StreamIds(a, S) {
        assert a.events[e.id] == b.events[e.id] == e;
      }
    }
  }

  /** Main result: an uninterrupted exchange succeeds, and afterwards both stores hold exactly the
      union of what the two held of their stream. */
  lemma ExchangeUnites(prim: Primitives, A: Identity, B: Identity, a: Tables, b: Tables)
    requires Coherent(prim, A, B, a, b)
    ensures var (a', b', ok) := Exchange(prim, A, B, a, b);
            var union := Stream(a.events, Between(A, B)) + Stream(b.events, Between(A, B));
            ok && Stream(a'.events, Between(A, B)) == union && Stream(b'.events, Between(A, B)) == union
  {
    ServerStream(prim, A, B, a, b);
    var b' := AdmitAll(prim, B, b, A.public, Sent(A, B, a)).0;
    ClientStream(prim, A, B, a, b, b');
    AnswerCompletes(prim, A, B, a, b, b');
  }

  // ---------- Success over a link that works ----------

  /** Between two honest paired devices a sync whose requests are all delivered succeeds (`Node.Sync`),
      provided the server can help with the files that are incomplete once the events have arrived. */
  lemma CoherentCanSync(prim: Primitives, A: Identity, B: Identity, a: Tables, b: Tables)
    requires Coherent(prim, A, B, a, b) && prim.validIdentity(A.public) && prim.validIdentity(B.public)
    requires var id := B.public.deviceId; Reachable(a, id) && IsPaired(a, id) && a.peers[id].identity == B.public
    requires
      var (a', b', ok) := Exchange(prim, A, B, a, b);
      CanHelpAll(prim, A, B, LookupPeer(a.peers, B.public.deviceId).value, a', b')
    ensures CanSync(prim, prim, A, B, B.public.deviceId, a, b)
  {
    hide Sound, AdmitAll, OwnEvents, Stream, CanHelpAll, Compatible;
    ExchangeUnites(prim, A, B, a, b);
    SoundBoth(prim, A, B, a, b);
    StreamIdSymmetric(A.public.deviceId, B.public.deviceId);
  }

  /** The two frames of an exchange fit, as computed from the stores before it. */
  ghost predicate ExchangeFits(A: Identity, B: Identity, a: Tables, b: Tables)
    requires KeyedById(a.events) && KeyedById(b.events)
  {
    Carried(A.public, B.public, SyncExchange(Between(A, B), StreamIds(a, Between(A, B)), Sent(A, B, a)),
            SyncResult(Answered(A, B, a, b)))
  }

  /** What the server takes in does not change what it answers. */
  lemma AnsweredBefore(prim: Primitives, A: Identity, B: Identity, a: Tables, b: Tables)
    requires Coherent(prim, A, B, a, b)
    ensures
      var b' := AdmitAll(prim, B, b, A.public, Sent(A, B, a)).0;
      && KeyedById(a.events) && KeyedById(b.events) && KeyedById(b'.events)
      && Answered(A, B, a, b') == Answered(A, B, a, b)
  {
    Coherence(prim, A, B, a, b);
    ServerStream(prim, A, B, a, b);
    assert A.public.deviceId != B.public.deviceId;
    hide Coherent, AdmitAll, Stream;
    var b' := AdmitAll(prim, B, b, A.public, Sent(A, B, a)).0;
    SoundIsKeyed(prim, b');
    OwnEventsMembers(B.public.deviceId, b, Between(A, B));
    OwnEventsMembers(B.public.deviceId, b', Between(A, B));
    ListingUnique(OwnEvents(B.public.deviceId, b', Between(A, B)), OwnEvents(B.public.deviceId, b, Between(A, B)));
  }

  /** So between honest paired devices these are the frames that `Node.Sync` depends on. */
  lemma ExchangeFitsAtOnce(prim: Primitives, A: Identity, B: Identity, a: Tables, b: Tables)
    requires Coherent(prim, A, B, a, b)
    ensures KeyedById(a.events) && KeyedById(b.events) && Sound(prim, b)
    ensures EventsCarried(prim, A, B, B.public.deviceId, a, b) <==> ExchangeFits(A, B, a, b)
  {
    hide Sound, AdmitAll, OwnEvents, Stream, Compatible, Carried;
    ServerStream(prim, A, B, a, b);
    SoundBoth(prim, A, B, a, b);
    AnsweredBefore(prim, A, B, a, b);
    StreamIdSymmetric(A.public.deviceId, B.public.deviceId);
  }

  /** Compatibility is about the events. */
  lemma SameEventsCompatible(prim: Primitives, A: Identity, B: Identity, a: Tables, b: Tables, a1: Tables, b1: Tables)
    requires Compatible(prim, A, B, a, b) && Sound(prim, a1) && Sound(prim, b1) && a1.events == a.events
    requires b1.events == b.events
    ensures Compatible(prim, A, B, a1, b1)
  {
    hide Sound, Genuine;
  }

  /** Pairing is what is missing between compatible devices. */
  lemma PairedIsCoherent(
    prim: Primitives, A: Identity, B: Identity, a: Tables, b: Tables, endpoint: Option<Endpoint>, now: int)
    requires Compatible(prim, A, B, a, b)
    ensures Coherent(prim, A, B, PairedTables(a, B.public, endpoint, now), HandlePair(b, A.public, now).t)
  {
    UpsertSound(prim, A, B, a, b, Peer(B.public, endpoint, true, now));
    var known := LookupPeer(b.peers, A.public.deviceId);
    UpsertSound(prim, A, B, a, b, Peer(A.public, if known.Some? then known.value.endpoint else None, true, now));
    PairedTrusts(b, A.public, now);
    hide Sound, UpsertPeer, Trusts, Compatible;
    SameEventsCompatible(prim, A, B, a, b, PairedTables(a, B.public, endpoint, now), HandlePair(b, A.public, now).t);
  }

  lemma UpsertSound(prim: Primitives, A: Identity, B: Identity, a: Tables, b: Tables, p: Peer)
    requires Compatible(prim, A, B, a, b)
    ensures Sound(prim, a.(peers := UpsertPeer(a.peers, p))) && Sound(prim, b.(peers := UpsertPeer(b.peers, p)))
  {
    UpsertPeerSound(prim, a, p);
    UpsertPeerSound(prim, b, p);
  }

  lemma PairedTrusts(t: Tables, sender: PublicIdentity, now: int)
    ensures Trusts(HandlePair(t, sender, now).t, sender)
  {
  }

  /** Likewise `Node.Pair` succeeds between compatible devices. */
  lemma CompatibleCanPair(prim: Primitives, A: Identity, B: Identity, a: Tables, b: Tables, now: int)
    requires Compatible(prim, A, B, a, b) && prim.validIdentity(A.public) && prim.validIdentity(B.public)
    requires var id := B.public.deviceId; Reachable(a, id) && a.peers[id].identity.deviceId == id
    requires
      var a1 := PairedTables(a, B.public, LookupPeer(a.peers, B.public.deviceId).value.endpoint, now);
      var b1 := HandlePair(b, A.public, now).t;
      && Sound(prim, a1) && Sound(prim, b1)
      && var (a', b', ok) := Exchange(prim, A, B, a1, b1);
      CanHelpAll(prim, A, B, LookupPeer(a1.peers, B.public.deviceId).value, a', b')
    ensures CanPair(prim, prim, A, B, B.public.deviceId, a, b, now)
  {
    hide Sound, AdmitAll, Stream, CanHelpAll, Compatible, CanSync, Exchange, HandlePair, Coherent;
    var endpoint := LookupPeer(a.peers, B.public.deviceId).value.endpoint;
    PairedIsCoherent(prim, A, B, a, b, endpoint, now);
    CoherentCanSync(prim, A, B, PairedTables(a, B.public, endpoint, now), HandlePair(b, A.public, now).t);
  }

  // ---------- The conversation both sides show ----------

  /** With equal streams, both devices list the same items, and nothing fails to open. */
  lemma ChatsAgree(prim: Primitives, A: Identity, B: Identity, a: Tables, b: Tables)
    requires Ideal(prim) && WellKeyed(prim, A) && WellKeyed(prim, B) && A.public.deviceId != B.public.deviceId
    requires KeyedById(a.events) && KeyedById(b.events) && StreamGenuine(prim, A, B, a)
    requires Stream(a.events, Between(A, B)) == Stream(b.events, Between(A, B))
    ensures Between(A, B) == Between(B, A)
    ensures Items(prim, A, B.public, Events(a.events, Between(A, B)))
         == Items(prim, B, A.public, Events(b.events, Between(B, A)))
    ensures Items(prim, A, B.public, Events(a.events, Between(A, B))).Ok?
  {
    StreamIdSymmetric(A.public.deviceId, B.public.deviceId);
    var es := Events(a.events, Between(A, B));
    ListingUnique(es, Events(b.events, Between(A, B)));
    forall e | e in es
      ensures exists p :: Genuine(prim, A, B, e, p)
    {
      assert e in Elements(es);
    }
    ItemsAgree(prim, A, B, es);
  }

  lemma {:induction false} ItemsAgree(prim: Primitives, A: Identity, B: Identity, es: seq<EventEnvelope>)
    requires Ideal(prim) && WellKeyed(prim, A) && WellKeyed(prim, B) && A.public.deviceId != B.public.deviceId
    requires forall e :: e in es ==> exists p :: Genuine(prim, A, B, e, p)
    ensures Items(prim, A, B.public, es) == Items(prim, B, A.public, es)
    ensures Items(prim, A, B.public, es).Ok? && |Items(prim, A, B.public, es).value| == |es|
    ensures forall k, p :: 0 <= k < |es| && Genuine(prim, A, B, es[k], p) ==>
      Items(prim, A, B.public, es).value[k] == ChatItem(es[k].id, es[k].author, es[k].time, p)
  {
    if es != [] {
      assert es[0] in es;
      forall e | e in es[1..]
        ensures exists p :: Genuine(prim, A, B, e, p)
      {
        assert e in es;
      }
      ItemsAgree(prim, A, B, es[1..]);
      forall p | Genuine(prim, A, B, es[0], p)
        ensures OpenItem(prim, A, B.public, es[0]) == Ok(ChatItem(es[0].id, es[0].author, es[0].time, p))
        ensures OpenItem(prim, B, A.public, es[0]) == Ok(ChatItem(es[0].id, es[0].author, es[0].time, p))
      {
        GenuineAcceptable(prim, A, B, es[0], p);
      }
      var all := Items(prim, A, B.public, es).value;
      forall k, p | 0 <= k < |es| && Genuine(prim, A, B, es[k], p)
        ensures all[k] == ChatItem(es[k].id, es[k].author, es[k].time, p)
      {
        if k > 0 {
          assert es[k] == es[1..][k - 1];
        }
      }
    }
  }

  // ---------- Failing and trying again ----------

  /** The stores after an exchange that broke off: the server had admitted `i` of the events sent;
      only if these were all, the client may have admitted `j` of the answer. */
  ghost function Interrupted(
    prim: Primitives, A: Identity, B: Identity, a: Tables, b: Tables, i: nat, j: nat): (Tables, Tables)
    requires Sound(prim, a) && Sound(prim, b) && i <= |Sent(A, B, a)|
  {
    var b1 := AdmitAll(prim, B, b, A.public, Sent(A, B, a)[..i]).0;
    AdmitAllSound(prim, B, b, A.public, Sent(A, B, a)[..i]);
    var answer := Answered(A, B, a, b1);
    if i == |Sent(A, B, a)| && j <= |answer| then (AdmitAll(prim, A, a, B.public, answer[..j]).0, b1)
    else (a, b1)
  }

  /** Main result: after an exchange that failed anywhere, a successful one leaves exactly the two
      stores that a single successful exchange would have left. */
  lemma RetryIsExact(prim: Primitives, A: Identity, B: Identity, a: Tables, b: Tables, i: nat, j: nat)
    requires Coherent(prim, A, B, a, b) && i <= |Sent(A, B, a)|
    ensures var (a1, b1) := Interrupted(prim, A, B, a, b, i, j);
            && Sound(prim, a1) && Sound(prim, b1)
            && Exchange(prim, A, B, a1, b1) == Exchange(prim, A, B, a, b)
  {
    hide AdmitAll, StreamGenuine, Acceptable, KeptByAuthor, IdsAgree, Sent, Answered, Contents, Stream;
    var sent := Sent(A, B, a);
    SentAcceptable(prim, A, B, a, b);
    AdmitAllSound(prim, B, b, A.public, sent[..i]);
    var b1 := AdmitAll(prim, B, b, A.public, sent[..i]).0;
    if i == |sent| && j <= |Answered(A, B, a, b1)| {
      assert sent[..i] == sent;
      RetryAfterAnswer(prim, A, B, a, b, j);
    } else {
      PrefixThenAll(prim, B, b, A.public, sent, i);
    }
  }

  /** A `Node.Sync` that failed left such an interrupted exchange behind, and perhaps some chunks. */
  lemma FailedSyncIsInterrupted(
    prim: Primitives, A: Identity, B: Identity, a: Tables, b: Tables, a': Tables, b': Tables)
    requires Coherent(prim, A, B, a, b) && B.public.deviceId in a.peers
    requires a.peers[B.public.deviceId].identity == B.public
    requires Partway(prim, prim, A, B, B.public.deviceId, a, b, a', b')
    ensures exists i: nat, j: nat ::
      && i <= |Sent(A, B, a)|
      && Fills(Interrupted(prim, A, B, a, b, i, j).0, a') && b' == Interrupted(prim, A, B, a, b, i, j).1
  {
    hide AdmitAll, StreamGenuine, Acceptable, KeptByAuthor, IdsAgree, Contents, Stream, OwnEvents, Fills, StreamIds;
    StreamIdSymmetric(A.public.deviceId, B.public.deviceId);
    FillsReflexive(a);
    var sent := Sent(A, B, a);
    assert sent[..0] == [] && sent[..|sent|] == sent;
    AdmitNothing(prim, B, b, A.public);
    AdmitNothing(prim, A, a, B.public);
    ServerStream(prim, A, B, a, b);
    var b1 := AdmitAll(prim, B, b, A.public, sent).0;
    SoundIsKeyed(prim, b1);
    var answer := Answered(A, B, a, b1);
    assert answer[..0] == [] && answer[..|answer|] == answer;
    if a' == a && b' == b {
      assert Interrupted(prim, A, B, a, b, 0, 0) == (a, b);
    } else if a' == a && b' == b1 {
      assert Interrupted(prim, A, B, a, b, |sent|, 0) == (a, b');
    } else {
      assert Interrupted(prim, A, B, a, b, |sent|, |answer|) == (AdmitAll(prim, A, a, B.public, answer).0, b');
    }
  }

  lemma AdmitNothing(prim: Primitives, me: Identity, t: Tables, peer: PublicIdentity)
    ensures AdmitAll(prim, me, t, peer, []) == (t, true)
  {
  }

  /** A loop over events does with chunks that have arrived meanwhile what it does without them. */
  lemma {:induction false} AdmitAllFills(
    prim: Primitives, me: Identity, t: Tables, t': Tables, peer: PublicIdentity, es: seq<EventEnvelope>)
    requires Fills(t, t')
    ensures AdmitAll(prim, me, t', peer, es).1 == AdmitAll(prim, me, t, peer, es).1
    ensures Fills(AdmitAll(prim, me, t, peer, es).0, AdmitAll(prim, me, t', peer, es).0)
    decreases es
  {
    hide OpenItem, SaveManifest;
    if es != [] {
      if es[0].author != peer.deviceId {
        AdmitAllFills(prim, me, t, t', peer, es[1..]);
      } else if OpenItem(prim, me, peer, es[0]).Ok? {
        var payload := OpenItem(prim, me, peer, es[0]).value.payload;
        AdmitFills(t, t', peer.deviceId, es[0], payload);
        hide Fills, Admit;
        AdmitAllFills(
          prim, me, Admit(t, peer.deviceId, es[0], payload), Admit(t', peer.deviceId, es[0], payload), peer, es[1..]);
      }
    }
  }

  lemma AdmitFills(t: Tables, t': Tables, peer: DeviceId, e: EventEnvelope, payload: Payload)
    requires Fills(t, t')
    ensures Fills(Admit(t, peer, e, payload), Admit(t', peer, e, payload))
  {
    var t1, t1' := t.(events := Insert(t.events, e)), t'.(events := Insert(t'.events, e));
    if ManifestIn(e, payload).Some? {
      SaveManifestFills(t1, t1', peer, payload.manifest);
    }
  }

  /** Main result: the same for `Node.Sync`. Whatever a failed sync leaves, the exchange of the next one
      leaves the server exactly as a single successful exchange would have, and the client too, except that
      some chunks are already there. */
  lemma FailedSyncRetried(prim: Primitives, A: Identity, B: Identity, a: Tables, b: Tables, a': Tables, b': Tables)
    requires Coherent(prim, A, B, a, b) && B.public.deviceId in a.peers
    requires a.peers[B.public.deviceId].identity == B.public
    requires Partway(prim, prim, A, B, B.public.deviceId, a, b, a', b') && Sound(prim, a') && Sound(prim, b')
    ensures
      var (x, y, ok) := Exchange(prim, A, B, a, b);
      var (x', y', ok') := Exchange(prim, A, B, a', b');
      ok && ok' && y' == y && Fills(x, x')
  {
    hide Sound, AdmitAll, Coherent, Partway, Sent, Answered, Stream, Fills;
    FailedSyncIsInterrupted(prim, A, B, a, b, a', b');
    ExchangeUnites(prim, A, B, a, b);
    SoundBoth(prim, A, B, a, b);
    var i: nat, j: nat :|
      && i <= |Sent(A, B, a)|
      && Fills(Interrupted(prim, A, B, a, b, i, j).0, a') && b' == Interrupted(prim, A, B, a, b, i, j).1;
    var a1 := Interrupted(prim, A, B, a, b, i, j).0;
    RetryIsExact(prim, A, B, a, b, i, j);
    hide Interrupted;
    ExchangeFills(prim, A, B, a1, a', b');
  }

  lemma SoundBoth(prim: Primitives, A: Identity, B: Identity, a: Tables, b: Tables)
    requires Coherent(prim, A, B, a, b)
    ensures Sound(prim, a) && Sound(prim, b) && KeyedById(a.events) && KeyedById(b.events)
  {
  }

  /** Chunks at the client make no difference to an exchange. */
  lemma ExchangeFills(prim: Primitives, A: Identity, B: Identity, a: Tables, a': Tables, b: Tables)
    requires Sound(prim, a) && Sound(prim, a') && Sound(prim, b) && Fills(a, a')
    ensures
      var (x, y, ok) := Exchange(prim, A, B, a, b);
      var (x', y', ok') := Exchange(prim, A, B, a', b);
      ok' == ok && y' == y && Fills(x, x')
  {
    SoundIsKeyed(prim, a);
    SoundIsKeyed(prim, a');
    hide Sound, AdmitAll, OwnEvents;
    assert Sent(A, B, a') == Sent(A, B, a);
    var b' := AdmitAll(prim, B, b, A.public, Sent(A, B, a)).0;
    AdmitAllSound(prim, B, b, A.public, Sent(A, B, a));
    SoundIsKeyed(prim, b');
    assert StreamIds(a', Between(A, B)) == StreamIds(a, Between(A, B));
    AdmitAllFills(prim, A, a, a', B.public, Answered(A, B, a, b'));
  }

  lemma RetryAfterAnswer(prim: Primitives, A: Identity, B: Identity, a: Tables, b: Tables, j: nat)
    requires Coherent(prim, A, B, a, b)
    ensures var b1 := AdmitAll(prim, B, b, A.public, Sent(A, B, a)).0;
            KeyedById(b1.events) && (j <= |Answered(A, B, a, b1)| ==>
              var a1 := AdmitAll(prim, A, a, B.public, Answered(A, B, a, b1)[..j]).0;
              && Sound(prim, a1) && Sound(prim, b1)
              && Exchange(prim, A, B, a1, b1) == Exchange(prim, A, B, a, b))
  {
    hide Sound, AdmitAll, StreamGenuine, Acceptable, KeptByAuthor, IdsAgree, Sent, Answered;
    hide Contents, Stream, KeyedById;
    Coherence(prim, A, B, a, b);
    var sent := Sent(A, B, a);
    var b1 := AdmitAll(prim, B, b, A.public, sent).0;
    ServerStream(prim, A, B, a, b);
    SentAcceptable(prim, A, B, a, b);
    SoundIsKeyed(prim, b1);
    assert sent[..|sent|] == sent;
    PrefixThenAll(prim, B, b, A.public, sent, |sent|);
    if j <= |Answered(A, B, a, b1)| {
      var answer := Answered(A, B, a, b1);
      AnsweredAcceptable(prim, A, B, a, b, b1);
      PrefixThenAll(prim, A, a, B.public, answer, j);
      AdmitAllSound(prim, A, a, B.public, answer[..j]);
      ClientRetries(prim, A, B, a, b, b1, j);
    }
  }

  /** After a partial answer the client sends the same events and is answered the rest. */
  lemma ClientRetries(prim: Primitives, A: Identity, B: Identity, a: Tables, b: Tables, b1: Tables, j: nat)
    requires Coherent(prim, A, B, a, b) && KeyedById(b1.events)
    requires Stream(b1.events, Between(A, B)) == Stream(a.events, Between(A, B)) + Stream(b.events, Between(A, B))
    requires j <= |Answered(A, B, a, b1)|
    ensures var a1 := AdmitAll(prim, A, a, B.public, Answered(A, B, a, b1)[..j]).0;
            && KeyedById(a1.events) && Sent(A, B, a1) == Sent(A, B, a)
            && Answered(A, B, a1, b1) == Answered(A, B, a, b1)[j..]
  {
    var part := Answered(A, B, a, b1)[..j];
    AnsweredAcceptable(prim, A, B, a, b, b1);
    AnsweredMembers(A, B, a, b1);
    AdmitAllAppend(prim, A, a, B.public, part, []);
    assert part + [] == part;
    AdmitAllSound(prim, A, a, B.public, part);
    var a1 := AdmitAll(prim, A, a, B.public, part).0;
    assert Elements(part) <= Elements(Answered(A, B, a, b1));
    UniqueAcross(b, a, Elements(part));
    InsertAllIsUnion(a.events, part);
    SameSent(A, B, a, a1, part);
    RestAnswered(A, B, a, a1, b1, j);
  }

  lemma SameSent(A: Identity, B: Identity, a: Tables, a1: Tables, part: seq<EventEnvelope>)
    requires A.public.deviceId != B.public.deviceId && KeyedById(a.events) && KeyedById(a1.events)
    requires Contents(a1.events) == Contents(a.events) + Elements(part)
    requires forall e :: e in part ==> e.author == B.public.deviceId
    ensures Sent(A, B, a1) == Sent(A, B, a)
  {
    StreamIsFilteredContents(a1.events, Between(A, B));
    StreamIsFilteredContents(a.events, Between(A, B));
    OwnEventsMembers(A.public.deviceId, a, Between(A, B));
    OwnEventsMembers(A.public.deviceId, a1, Between(A, B));
    assert Elements(Sent(A, B, a1)) == Elements(Sent(A, B, a));
    ListingUnique(Sent(A, B, a1), Sent(A, B, a));
  }

  lemma RestAnswered(A: Identity, B: Identity, a: Tables, a1: Tables, b1: Tables, j: nat)
    requires KeyedById(a.events) && KeyedById(a1.events) && KeyedById(b1.events) && j <= |Answered(A, B, a, b1)|
    requires Contents(a1.events) == Contents(a.events) + Elements(Answered(A, B, a, b1)[..j])
    ensures Answered(A, B, a1, b1) == Answered(A, B, a, b1)[j..]
  {
    var rest := Answered(A, B, a, b1)[j..];
    AnsweredMembers(A, B, a, b1);
    AnsweredMembers(A, B, a1, b1);
    forall e | e in rest
      ensures e in Answered(A, B, a1, b1)
    {
      StillUnknown(A, B, a, a1, b1, j, e);
    }
    forall e | e in Answered(A, B, a1, b1)
      ensures e in rest
    {
      NotYetAdmitted(A, B, a, a1, b1, j, e);
    }
    assert Elements(rest) == Elements(Answered(A, B, a1, b1));
    ListingUnique(Answered(A, B, a1, b1), rest);
  }

  lemma StillUnknown(A: Identity, B: Identity, a: Tables, a1: Tables, b1: Tables, j: nat, e: EventEnvelope)
    requires KeyedById(a.events) && KeyedById(a1.events) && KeyedById(b1.events) && j <= |Answered(A, B, a, b1)|
    requires Contents(a1.events) == Contents(a.events) + Elements(Answered(A, B, a, b1)[..j])
    requires e in Answered(A, B, a, b1)[j..]
    ensures e in Answered(A, B, a1, b1)
  {
    var S, answer := Between(A, B), Answered(A, B, a, b1);
    AnsweredMembers(A, B, a, b1);
    AnsweredMembers(A, B, a1, b1);
    var k :| j <= k < |answer| && answer[k] == e;
    if e.id in StreamIds(a1, S) {
      var f := a1.events[e.id];
      assert f in Contents(a1.events);
      if f in Contents(a.events) {
        IdsOfContents(a, S);
      } else {
        var l :| 0 <= l < j && answer[l] == f;
        assert b1.events[e.id] == e && b1.events[f.id] == f;
        SortedHasNoRepeats(answer, k, l);
      }
    }
  }

  lemma NotYetAdmitted(A: Identity, B: Identity, a: Tables, a1: Tables, b1: Tables, j: nat, e: EventEnvelope)
    requires KeyedById(a.events) && KeyedById(a1.events) && KeyedById(b1.events) && j <= |Answered(A, B, a, b1)|
    requires Contents(a1.events) == Contents(a.events) + Elements(Answered(A, B, a, b1)[..j])
    requires e in Answered(A, B, a1, b1)
    ensures e in Answered(A, B, a, b1)[j..]
  {
    hide Answered, StrictlySorted, OwnEvents;
    var S, answer := Between(A, B), Answered(A, B, a, b1);
    AnsweredMembers(A, B, a, b1);
    AnsweredMembers(A, B, a1, b1);
    IdsOfContents(a1, S);
    forall id | id in StreamIds(a, S)
      ensures id in StreamIds(a1, S)
    {
      assert a.events[id] in Contents(a1.events);
    }
    forall l | 0 <= l < j
      ensures answer[l].id in StreamIds(a1, S)
    {
      assert answer[..j][l] == answer[l];
      assert answer[l] in Contents(a1.events);
    }
    var k :| 0 <= k < |answer| && answer[k] == e;
    assert answer[j..][k - j] == e;
  }

  lemma IdsOfContents(t: Tables, stream: string)
    requires KeyedById(t.events)
    ensures forall id :: id in StreamIds(t, stream) <==>
      exists e :: e in Contents(t.events) && e.stream == stream && e.id == id
  {
    forall id | id in StreamIds(t, stream)
      ensures exists e :: e in Contents(t.events) && e.stream == stream && e.id == id
    {
      assert t.events[id] in Contents(t.events);
    }
  }
}
