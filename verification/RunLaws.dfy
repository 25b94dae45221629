/** Further laws of every run of the network: where events are, who is paired with whom, and which
    manifests a store can rebuild files from. */
module RunLaws {
  import opened Wrappers
  import Text
  import opened Model
  import opened Crypto
  import opened ChunkRows
  import opened EventLog
  import opened Tables
  import opened Protocol
  import opened Nodes
  import opened ChunkTraffic
  import SyncLaws
  import opened Network
  import opened Replication
  import opened ReplicationSteps
  import opened Convergence

  // ---------- Events ----------

  /** Every stored event belongs to a conversation of the device that stores it with a device it holds
      as paired, was written by one of the two, and is in its author's own log. */
  ghost predicate Belongs(w: World, n: DeviceId, e: EventEnvelope, peer: DeviceId) {
    && Holding(w, n, peer) && peer != n && e.stream == DirectStreamId(n, peer)
    && (e.author == n || e.author == peer) && Stored(w, e.author, e)
  }

  lemma EventsBelong(c: Config, run: seq<World>, n: DeviceId, id: string)
    requires IsRun(c, run) && n in Last(run).nodes && id in Last(run).nodes[n].events
    ensures exists peer :: Belongs(Last(run), n, Last(run).nodes[n].events[id], peer)
  {
    hide Inv;
    var w := Last(run);
    RunKeepsInv(c, run);
    LogFact(c, w, n, id);
    var e := w.nodes[n].events[id];
    var peer := if n == e.author then w.minted[id].to else e.author;
    StreamIdSymmetric(n, peer);
    assert Belongs(w, n, e, peer);
  }

  /** The stream id alone tells whose conversation an event belongs to. */
  lemma BelongsToOne(
    c: Config, run: seq<World>, n: DeviceId, e: EventEnvelope, peer: DeviceId, x: DeviceId, y: DeviceId)
    requires IsRun(c, run) && n in c.ids && Belongs(Last(run), n, e, peer)
    requires x in c.ids && y in c.ids && e.stream == DirectStreamId(x, y)
    ensures (x == n && y == peer) || (x == peer && y == n)
  {
    hide Inv;
    RunKeepsInv(c, run);
    DeviceKeys(c, Last(run));
    NodeHas(c, Last(run), n);
    StreamIdInjective(n, peer, x, y);
  }

  /** Two devices never store different events under one id. */
  lemma OneEventPerId(c: Config, run: seq<World>, n: DeviceId, m: DeviceId, id: string)
    requires IsRun(c, run) && n in Last(run).nodes && m in Last(run).nodes
    requires id in Last(run).nodes[n].events && id in Last(run).nodes[m].events
    ensures Last(run).nodes[n].events[id] == Last(run).nodes[m].events[id]
  {
    hide Inv;
    RunKeepsInv(c, run);
    LogFact(c, Last(run), n, id);
    LogFact(c, Last(run), m, id);
  }

  /** An event once stored anywhere is there for the rest of the run, unaltered. */
  lemma NoEventIsLost(c: Config, run: seq<World>, i: nat, n: DeviceId, id: string)
    requires IsRun(c, run) && i < |run| && n in run[i].nodes && id in run[i].nodes[n].events
    ensures n in Last(run).nodes && id in Last(run).nodes[n].events
    ensures Last(run).nodes[n].events[id] == run[i].nodes[n].events[id]
  {
    hide Inv;
    RunGrows(c, run, i);
    assert TablesGrow(run[i].nodes[n], Last(run).nodes[n]);
  }

  // ---------- Every two devices are ready for a sync ----------

  /** The stores of two devices, one of which holds the other as paired, are always such that the
      laws of module `SyncLaws` apply: a sync that is not interrupted now would unite the two logs,
      and one that is interrupted could be repeated with the same result. */
  lemma PairIsCoherent(c: Config, run: seq<World>, A: DeviceId, B: DeviceId)
    requires IsRun(c, run) && A in c.ids && B in c.ids && A != B && Holding(Last(run), B, A)
    ensures A in Last(run).nodes && B in Last(run).nodes
    ensures SyncLaws.Coherent(c.prim, c.ids[A], c.ids[B], Last(run).nodes[A], Last(run).nodes[B])
  {
    hide RecordsOk, NodesOk, OpsOk, Sound, Stored, Next, Init;
    var w := Last(run);
    RunKeepsInv(c, run);
    DeviceKeys(c, w);
    KeyedFact(c, w, A);
    KeyedFact(c, w, B);
    NodeHas(c, w, B);
    StreamIsGenuine(c, w, A, A, B);
    StreamIsGenuine(c, w, B, A, B);
    AuthorsKeep(c, w, A, B);
    StreamIdSymmetric(A, B);
    AuthorsKeep(c, w, B, A);
    forall id | id in w.nodes[A].events && id in w.nodes[B].events
      ensures w.nodes[A].events[id] == w.nodes[B].events[id]
    {
      LogFact(c, w, A, id);
      LogFact(c, w, B, id);
    }
    hide SyncLaws.StreamGenuine, SyncLaws.KeptByAuthor, Inv;
  }

  lemma AuthorsKeep(c: Config, w: World, n: DeviceId, author: DeviceId)
    requires Inv(c, w) && n in w.nodes && author in w.nodes && author in c.ids && n != author
    ensures SyncLaws.KeptByAuthor(author, DirectStreamId(n, author), w.nodes[n], w.nodes[author])
  {
    hide Inv, Stored;
    WrittenByEither(c, w, n, author);
    InStream(w, author, DirectStreamId(n, author));
    InStream(w, n, DirectStreamId(n, author));
  }

  /** So at any moment of any run, what the two receiving loops of an exchange compute succeeds and leaves both with
      the union of their logs. Whether the exchange gets that far depends on its frames
      (`Liveness.SyncCompletesExactlyWhenItFits`). */
  lemma ExchangeAtAnyTime(c: Config, run: seq<World>, A: DeviceId, B: DeviceId)
    requires IsRun(c, run) && A in c.ids && B in c.ids && A != B && Holding(Last(run), B, A)
    ensures A in Last(run).nodes && B in Last(run).nodes
    ensures Sound(c.prim, Last(run).nodes[A]) && Sound(c.prim, Last(run).nodes[B])
    ensures
      var (x, y) := (c.ids[A], c.ids[B]);
      var (a, b) := (Last(run).nodes[A], Last(run).nodes[B]);
      var (a', b', ok) := SyncLaws.Exchange(c.prim, x, y, a, b);
      && ok && Stream(a'.events, DirectStreamId(A, B)) == Stream(b'.events, DirectStreamId(A, B))
      && Stream(a'.events, DirectStreamId(A, B))
         == Stream(a.events, DirectStreamId(A, B)) + Stream(b.events, DirectStreamId(A, B))
  {
    hide SyncLaws.Coherent, SyncLaws.Exchange, Stream, Sound;
    var w := Last(run);
    RunKeepsInv(c, run);
    DeviceKeys(c, w);
    KeyedFact(c, w, A);
    KeyedFact(c, w, B);
    PairIsCoherent(c, run, A, B);
    hide Inv;
    SyncLaws.ExchangeUnites(c.prim, c.ids[A], c.ids[B], w.nodes[A], w.nodes[B]);
  }

  /** `chat` never fails, and shows for every event what was passed to its creation. */
  lemma ChatShowsWhatWasCreated(c: Config, run: seq<World>, n: DeviceId, peer: DeviceId)
    requires IsRun(c, run) && n in Last(run).nodes && n in c.ids && peer in c.ids && n != peer
    ensures KeyedById(Last(run).nodes[n].events)
    ensures
      var w := Last(run);
      var es := Events(w.nodes[n].events, DirectStreamId(n, peer));
      && Conversation(c, w, n, peer).Ok? && |Conversation(c, w, n, peer).value| == |es|
      && forall k :: 0 <= k < |es| ==>
           && es[k].id in w.minted
           && Conversation(c, w, n, peer).value[k]
              == ChatItem(es[k].id, es[k].author, es[k].time, w.minted[es[k].id].payload)
  {
    hide Inv, SyncLaws.Genuine, Next, Init, Stream;
    var w := Last(run);
    RunKeepsInv(c, run);
    DeviceKeys(c, w);
    KeyedFact(c, w, n);
    StreamIsGenuine(c, w, n, n, peer);
    ConfigFact(c, w, n, peer);
    var es := Events(w.nodes[n].events, DirectStreamId(n, peer));
    assert Lists(es, Stream(w.nodes[n].events, DirectStreamId(n, peer)));
    ItemsOfMinted(c.prim, c.ids[n], c.ids[peer], es, Stream(w.nodes[n].events, DirectStreamId(n, peer)), w.minted);
  }

  lemma ConfigFact(c: Config, w: World, n: DeviceId, peer: DeviceId)
    requires Inv(c, w) && n in c.ids && peer in c.ids
    ensures Ideal(c.prim) && WellKeyed(c.prim, c.ids[n]) && WellKeyed(c.prim, c.ids[peer])
    ensures c.ids[n].public.deviceId == n && c.ids[peer].public.deviceId == peer
  {
  }

  lemma ItemsOfMinted(
    prim: Primitives, A: Identity, B: Identity, es: seq<EventEnvelope>, stream: set<EventEnvelope>,
    minted: map<string, Minted>)
    requires Ideal(prim) && WellKeyed(prim, A) && WellKeyed(prim, B) && A.public.deviceId != B.public.deviceId
    requires Lists(es, stream)
    requires forall e :: e in stream ==> e.id in minted && SyncLaws.Genuine(prim, A, B, e, minted[e.id].payload)
    ensures var r := Items(prim, A, B.public, es);
      && r.Ok? && |r.value| == |es|
      && forall k :: 0 <= k < |es| ==>
           es[k].id in minted && r.value[k] == ChatItem(es[k].id, es[k].author, es[k].time, minted[es[k].id].payload)
  {
    hide SyncLaws.Genuine;
    forall e | e in es
      ensures e.id in minted && SyncLaws.Genuine(prim, A, B, e, minted[e.id].payload)
    {
      assert e in Elements(es);
    }
    SyncLaws.ItemsAgree(prim, A, B, es);
    forall k | 0 <= k < |es|
      ensures es[k].id in minted && SyncLaws.Genuine(prim, A, B, es[k], minted[es[k].id].payload)
    {
      assert es[k] in es;
    }
  }

  // ---------- Pairing ----------

  /** Operation `k` is a pairing of `src` with `dst` that has recorded the peer. */
  ghost predicate PairingDone(w: World, k: nat, src: DeviceId, dst: DeviceId) {
    && k in w.clients && w.clients[k].Done? && w.clients[k].answer.call.body.PairRequest?
    && w.clients[k].answer.call.src == src && w.clients[k].answer.call.dst == dst
  }

  /** Once `pair` has recorded the peer, each device holds the other as paired for the rest of the run. */
  lemma PairingLasts(c: Config, run: seq<World>, i: nat, k: nat, src: DeviceId, dst: DeviceId)
    requires IsRun(c, run) && i < |run| && PairingDone(run[i], k, src, dst)
    ensures Holding(Last(run), src, dst) && Holding(Last(run), dst, src)
  {
    hide Inv, Next, Init, Grows;
    RunKeepsInv(c, run[..i + 1]);
    ClientFact(c, run[i], k);
    AnswerFact(c, run[i], run[i].clients[k].answer);
    RunGrows(c, run, i);
    HoldingGrows(run[i], Last(run), src, dst);
    HoldingGrows(run[i], Last(run), dst, src);
  }

  /** If `n` holds `peer` as paired but not the other way round, then a pair request of `peer` has been
      handled at `n`, and no pairing of `peer` with `n` has ever got its answer: the answer is still
      to be sent, is on its way, or was lost. */
  lemma OneSidedPairing(c: Config, run: seq<World>, n: DeviceId, peer: DeviceId)
    requires IsRun(c, run) && n in c.ids && peer in c.ids
    requires Holding(Last(run), n, peer) && !Holding(Last(run), peer, n)
    ensures Asked(Last(run), peer, n)
    ensures forall i, k :: 0 <= i < |run| ==> !PairingDone(run[i], k, peer, n)
  {
    hide IsRun, Holding, Asked;
    RunKeepsInv(c, run);
    ReasonFact(c, Last(run), n, peer);
    forall i, k | 0 <= i < |run|
      ensures !PairingDone(run[i], k, peer, n)
    {
      if PairingDone(run[i], k, peer, n) {
        PairingLasts(c, run, i, k, peer, n);
      }
    }
  }

  lemma ReasonFact(c: Config, w: World, n: DeviceId, peer: DeviceId)
    requires Inv(c, w) && n in c.ids && peer in c.ids && Holding(w, n, peer)
    ensures Holding(w, peer, n) || Asked(w, peer, n)
  {
    assert PairedForAReason(w, n, peer);
  }

  /** Nothing known of a peer is lost, whatever stale row an announcement writes back: paired stays
      paired, an endpoint stays, host and port stay together, and a row just stored is found. */
  lemma PeersNeverForgotten(c: Config, run: seq<World>, i: nat, n: DeviceId)
    requires IsRun(c, run) && i < |run| && n in run[i].nodes
    ensures n in Last(run).nodes && PeersGrow(run[i].nodes[n].peers, Last(run).nodes[n].peers)
    ensures EndpointsWhole(Last(run).nodes[n].peers)
    ensures forall k :: k in Last(run).servers && Last(run).servers[k].PairWritten? ==>
      Holding(Last(run), Last(run).servers[k].call.dst, Last(run).servers[k].call.src)
  {
    hide PeersGrow, EndpointsWhole, IsRun, RecordsOk, NodesOk, OpsOk, Holding;
    RunGrows(c, run, i);
    assert TablesGrow(run[i].nodes[n], Last(run).nodes[n]);
    RunKeepsInv(c, run);
    KeyedFact(c, Last(run), n);
    SoundEndpoints(c.prim, Last(run).nodes[n]);
    forall k | k in Last(run).servers && Last(run).servers[k].PairWritten?
      ensures Holding(Last(run), Last(run).servers[k].call.dst, Last(run).servers[k].call.src)
    {
      ServerFact(c, Last(run), k);
    }
  }

  /** A device that could once be talked to can be talked to from then on, so it makes no difference how long
      before its first write an operation has read that it can. */
  lemma TalkLasts(c: Config, run: seq<World>, i: nat, me: DeviceId, to: DeviceId)
    requires IsRun(c, run) && i < |run| && CanTalk(run[i], me, to)
    ensures CanTalk(Last(run), me, to)
  {
    hide IsRun, Holds;
    RunGrows(c, run, i);
    assert TablesGrow(run[i].nodes[me], Last(run).nodes[me]);
  }

  // ---------- Progress of a file ----------

  /** The numbers shown for a stored file, at any two moments of any run: they never fall below zero,
      never fall, never pass the total, and reach it exactly when a refresh would report completion. */
  lemma ProgressOverRuns(c: Config, run: seq<World>, i: nat, j: nat, n: DeviceId, id: string)
    requires IsRun(c, run) && i <= j < |run| && n in run[i].nodes && id in run[i].nodes[n].manifests
    ensures n in run[j].nodes && id in run[j].nodes[n].manifests
    ensures run[j].nodes[n].manifests[id].manifest == run[i].nodes[n].manifests[id].manifest
    ensures
      var m := run[i].nodes[n].manifests[id].manifest;
      var before, after := Progress(run[i].nodes[n], m, id), Progress(run[j].nodes[n], m, id);
      && 0 <= before.received <= after.received <= after.total == |m.chunks|
      && (after.received == after.total <==> Refresh(run[j].nodes[n], id).manifests[id].complete)
  {
    hide IsRun, Inv, NodesOk, TablesGrow, Holds, Refresh, MissingChunks, Grows, Sound, PeersOk, ManifestsOk;
    BetweenMoments(c, run, i, j);
    DeviceKeys(c, run[i]);
    NodeHas(c, run[i], n);
    NodeGrowsTo(run[i], run[j], n);
    HeldUnderItsId(c, run[i], n, id);
    ProgressRises(run[i].nodes[n], run[j].nodes[n], run[i].nodes[n].manifests[id].manifest);
  }

  lemma BetweenMoments(c: Config, run: seq<World>, i: nat, j: nat)
    requires IsRun(c, run) && i <= j < |run|
    ensures Inv(c, run[i]) && Grows(run[i], run[j])
  {
    hide Inv, Next, Init, Grows;
    RunKeepsInv(c, run[..i + 1]);
    RunGrows(c, run[..j + 1], i);
  }

  lemma NodeGrowsTo(w: World, w': World, n: DeviceId)
    requires Grows(w, w') && n in w.nodes
    ensures n in w'.nodes && TablesGrow(w.nodes[n], w'.nodes[n])
  {
  }

  lemma HeldUnderItsId(c: Config, w: World, n: DeviceId, id: string)
    requires n in w.nodes && id in w.nodes[n].manifests && Sound(c.prim, w.nodes[n]) && ManifestsOk(w, w.nodes[n])
    ensures w.nodes[n].manifests[id].manifest.id == id && Holds(w.nodes[n], w.nodes[n].manifests[id].manifest)
  {
  }

  lemma ProgressRises(t: Tables, t': Tables, m: FileManifest)
    requires TablesGrow(t, t') && Holds(t, m)
    ensures m.id in t'.manifests && t'.manifests[m.id].manifest == m
    ensures
      var before, after := Progress(t, m, m.id), Progress(t', m, m.id);
      && 0 <= before.received <= after.received <= after.total == |m.chunks|
      && (after.received == after.total <==> Refresh(t', m.id).manifests[m.id].complete)
  {
    ProgressIsTrue(t, t', m);
  }
}
