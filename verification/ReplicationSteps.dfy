/** Every step of the network keeps the invariant of module `Replication`. */
module ReplicationSteps {
  import opened Wrappers
  import opened Model
  import opened Crypto
  import opened ChunkRows
  import opened EventLog
  import opened Tables
  import opened Protocol
  import F = Frames
  import opened Nodes
  import SyncLaws
  import opened Network
  import opened Replication

  // ---------- Changes of one store ----------

  /** `w1` is `w` with the store of `n` replaced. */
  function With(w: World, n: DeviceId, t: Tables): World {
    w.(nodes := w.nodes[n := t])
  }

  lemma OneStoreGrows(w: World, n: DeviceId, t: Tables)
    requires n in w.nodes && TablesGrow(w.nodes[n], t)
    ensures Grows(w, With(w, n, t))
  {
    forall x | x in w.nodes
      ensures TablesGrow(w.nodes[x], With(w, n, t).nodes[x])
    {
      TablesGrowReflexive(w.nodes[x]);
    }
  }

  lemma NodeHas(c: Config, w: World, n: DeviceId)
    requires NodesOk(c, w) && n in w.nodes
    ensures Sound(c.prim, w.nodes[n]) && PeersOk(c, n, w.nodes[n]) && ManifestsOk(w, w.nodes[n])
  {
    assert NodeOk(c, w, n);
  }

  /** A store that gains neither events nor pairings. */
  lemma QuietStore(c: Config, w: World, n: DeviceId, t: Tables)
    requires NodesOk(c, w) && n in w.nodes && TablesGrow(w.nodes[n], t) && Sound(c.prim, t) && ManifestsOk(w, t)
    requires t.events == w.nodes[n].events && t.peers == w.nodes[n].peers
    ensures Grows(w, With(w, n, t)) && NodesOk(c, With(w, n, t))
  {
    hide Sound, TablesGrow, NodesOk, Holds;
    var w1 := With(w, n, t);
    OneStoreGrows(w, n, t);
    NodeHas(c, w, n);
    hide Grows;
    assert ManifestsOk(w1, t);
    NoNewPairs(c, w, w1, n);
    NodesKept(c, w, w1, n);
  }

  lemma NoNewPairs(c: Config, w: World, w1: World, n: DeviceId)
    requires n in w.nodes && n in w1.nodes && w1.nodes[n].peers == w.nodes[n].peers
    ensures forall d :: d in c.ids && !Holding(w, n, d) ==> PairedForAReason(w1, n, d)
  {
    forall d | d in c.ids && !Holding(w, n, d)
      ensures PairedForAReason(w1, n, d)
    {
      NotHeld(w1, n, d);
    }
  }

  lemma FillsKept(c: Config, w: World, n: DeviceId, t: Tables)
    requires NodesOk(c, w) && n in w.nodes && Fills(w.nodes[n], t) && Sound(c.prim, t)
    ensures Grows(w, With(w, n, t)) && NodesOk(c, With(w, n, t))
  {
    hide NodesOk, Sound, Grows;
    NodeHas(c, w, n);
    FillsGrows(w.nodes[n], t);
    FillsManifests(w, w.nodes[n], t);
    QuietStore(c, w, n, t);
  }

  lemma FillsGrows(t: Tables, t': Tables)
    requires Fills(t, t')
    ensures TablesGrow(t, t')
  {
    hide Holds, ChunksRise;
    FillsRise(t, t');
    forall m: FileManifest | Holds(t, m)
      ensures Holds(t', m)
    {
      FillsHolds(t, t', m);
    }
  }

  lemma FillsManifests(w: World, t: Tables, t': Tables)
    requires Fills(t, t') && ManifestsOk(w, t)
    ensures ManifestsOk(w, t')
  {
    hide Holds, Catalogued;
    forall id | id in t'.manifests
      ensures Catalogued(w, t'.manifests[id].manifest) && Holds(t', t'.manifests[id].manifest)
    {
      assert t'.manifests[id].manifest == t.manifests[id].manifest;
      FillsHolds(t, t', t.manifests[id].manifest);
    }
  }

  /** Saving a manifest of the record adds it and takes nothing away. */
  lemma SaveHolds(c: Config, w: World, t: Tables, peer: DeviceId, m: FileManifest)
    requires Sound(c.prim, t) && ManifestsOk(w, t) && Catalogued(w, m)
    ensures Sound(c.prim, SaveManifest(t, peer, m)) && Holds(SaveManifest(t, peer, m), m)
    ensures TablesGrow(t, SaveManifest(t, peer, m))
  {
    hide SaveManifest;
    assert Unambiguous(t, m) by { NoClash(c, w, t, m); }
    hide Sound, Holds, ManifestsOk;
    SaveManifestSound(c.prim, t, peer, m);
    SaveManifestHolds(c.prim, t, peer, m);
    SaveRises(c.prim, t, peer, m);
    hide ChunksRise;
    forall x: FileManifest | Holds(t, x)
      ensures Holds(SaveManifest(t, peer, m), x)
    {
      if x.id != m.id { SaveManifestKeepsOthers(t, peer, m, x); } else { HeldOnce(t, x, m); }
    }
  }

  lemma NoClash(c: Config, w: World, t: Tables, m: FileManifest)
    requires Sound(c.prim, t) && ManifestsOk(w, t) && Catalogued(w, m)
    ensures Unambiguous(t, m)
  {
    if m.id in t.manifests {
      assert t.manifests[m.id].manifest.id == m.id;
    }
  }

  lemma HeldOnce(t: Tables, x: FileManifest, m: FileManifest)
    requires Holds(t, x) && Unambiguous(t, m) && x.id == m.id
    ensures x == m
  {
  }

  lemma SaveManifests(c: Config, w: World, t: Tables, peer: DeviceId, m: FileManifest)
    requires Sound(c.prim, t) && ManifestsOk(w, t) && Catalogued(w, m)
    ensures ManifestsOk(w, SaveManifest(t, peer, m))
  {
    var t' := SaveManifest(t, peer, m);
    SaveHolds(c, w, t, peer, m);
    SavedFor(t, peer, m);
    hide Sound, Holds, SaveManifest;
    forall id | id in t'.manifests
      ensures Catalogued(w, t'.manifests[id].manifest) && Holds(t', t'.manifests[id].manifest)
    {
      if id == m.id {
        HeldManifest(t', m);
      } else {
        assert Holds(t, t.manifests[id].manifest);
      }
    }
  }

  lemma SavedFor(t: Tables, peer: DeviceId, m: FileManifest)
    ensures SaveManifest(t, peer, m).manifests.Keys == t.manifests.Keys + {m.id}
    ensures forall id :: id in t.manifests && id != m.id ==>
      SaveManifest(t, peer, m).manifests[id].manifest == t.manifests[id].manifest
  {
  }

  lemma SaveKept(c: Config, w: World, n: DeviceId, peer: DeviceId, m: FileManifest)
    requires NodesOk(c, w) && n in w.nodes && Catalogued(w, m)
    ensures var w1 := With(w, n, SaveManifest(w.nodes[n], peer, m));
            Grows(w, w1) && NodesOk(c, w1) && Holds(w1.nodes[n], m)
  {
    hide NodesOk, Sound, SaveManifest, Holds, TablesGrow, ManifestsOk, PeersOk, Grows;
    NodeHas(c, w, n);
    SaveHolds(c, w, w.nodes[n], peer, m);
    SaveManifests(c, w, w.nodes[n], peer, m);
    QuietStore(c, w, n, SaveManifest(w.nodes[n], peer, m));
  }

  /** A received event enters the log. */
  lemma InsertKept(c: Config, w: World, n: DeviceId, peer: DeviceId, e: EventEnvelope)
    requires RecordsOk(c, w) && NodesOk(c, w) && n in w.nodes && Holding(w, n, peer) && FromTo(w, e, peer, n)
    ensures var w1 := With(w, n, w.nodes[n].(events := Insert(w.nodes[n].events, e)));
            Grows(w, w1) && NodesOk(c, w1) && Stored(w1, n, e)
  {
    hide Sound, NodeOk, RecordsOk, Grows;
    var w1 := With(w, n, w.nodes[n].(events := Insert(w.nodes[n].events, e)));
    if e.id in w.nodes[n].events {
      assert LogOk(w, n, e.id);
    }
    InsertGrows(c, w, n, e);
    HoldingGrows(w, w1, n, peer);
    NodesKept(c, w, w1, n);
  }

  lemma InsertGrows(c: Config, w: World, n: DeviceId, e: EventEnvelope)
    requires NodesOk(c, w) && n in w.nodes
    ensures var w1 := With(w, n, w.nodes[n].(events := Insert(w.nodes[n].events, e)));
            Grows(w, w1) && NodeOk(c, w1, n)
  {
    hide Sound, NodesOk, TablesGrow, Grows;
    var t := w.nodes[n];
    var t1 := t.(events := Insert(t.events, e));
    NodeHas(c, w, n);
    InsertEventSound(c.prim, t, e);
    SameManifests(w, With(w, n, t1), t, t1);
    PeersGrowReflexive(t.peers);
    assert TablesGrow(t, t1) by { SameHeld(t, t1); }
    OneStoreGrows(w, n, t1);
  }

  lemma PeersGrowReflexive(peers: map<DeviceId, PeerRow>)
    ensures PeersGrow(peers, peers)
  {
  }

  /** What is held depends on the manifest and chunk tables alone. */
  lemma SameHeld(t: Tables, t1: Tables)
    requires t1.manifests == t.manifests && t1.chunks == t.chunks && t1.blobs == t.blobs
    requires EventsKept(t, t1) && PeersGrow(t.peers, t1.peers)
    ensures TablesGrow(t, t1)
  {
    hide PeersGrow, EventsKept, ChunksRise;
    SameRowsRise(t, t1);
    assert forall m: FileManifest :: RowsOf(t1, m.id) == RowsOf(t, m.id);
  }

  lemma SameManifests(w: World, w1: World, t: Tables, t1: Tables)
    requires ManifestsOk(w, t) && w1.catalog == w.catalog && t1.manifests == t.manifests && t1.chunks == t.chunks
    ensures ManifestsOk(w1, t1)
  {
    assert forall id :: RowsOf(t1, id) == RowsOf(t, id);
  }

  /** A peer is recorded; if that pairs it, there is a reason. */
  lemma UpsertKept(c: Config, w: World, n: DeviceId, p: Peer)
    requires NodesOk(c, w) && n in w.nodes && n in c.ids
    requires p.identity.deviceId in c.ids && p.identity == c.ids[p.identity.deviceId].public && p.identity.deviceId != n
    requires p.paired ==>
      Holding(w, n, p.identity.deviceId) || Holding(w, p.identity.deviceId, n) || Asked(w, p.identity.deviceId, n)
    ensures Grows(w, Upsert(w, n, p)) && NodesOk(c, Upsert(w, n, p))
    ensures p.paired ==> Holding(Upsert(w, n, p), n, p.identity.deviceId)
  {
    hide Sound, NodeOk, NodesOk, Grows, PairedForAReason, Asked, LogOk;
    var w1 := Upsert(w, n, p);
    UpsertGrows(c, w, n, p);
    if p.paired && !Holding(w, n, p.identity.deviceId) {
      UpsertReason(c, w, n, p);
    }
    forall d | d in c.ids && !Holding(w, n, d) && d != p.identity.deviceId
      ensures PairedForAReason(w1, n, d)
    {
      NotHeld(w1, n, d);
    }
    if !p.paired && !Holding(w, n, p.identity.deviceId) {
      NotHeld(w1, n, p.identity.deviceId);
    }
    NodesKept(c, w, w1, n);
  }

  lemma NotHeld(w: World, n: DeviceId, d: DeviceId)
    requires !Holding(w, n, d)
    ensures PairedForAReason(w, n, d)
  {
  }

  lemma UpsertGrows(c: Config, w: World, n: DeviceId, p: Peer)
    requires NodesOk(c, w) && n in w.nodes
    requires p.identity.deviceId in c.ids && p.identity == c.ids[p.identity.deviceId].public && p.identity.deviceId != n
    ensures Grows(w, Upsert(w, n, p)) && NodeOk(c, Upsert(w, n, p), n)
  {
    hide Sound, NodesOk, TablesGrow, Grows, UpsertPeer, PeersGrow;
    var t := w.nodes[n];
    var t1 := t.(peers := UpsertPeer(t.peers, p));
    NodeHas(c, w, n);
    SoundEndpoints(c.prim, t);
    UpsertPeerSound(c.prim, t, p);
    OneUpsert(t.peers, p);
    PeersStayOk(c, n, t, p);
    SameManifests(w, With(w, n, t1), t, t1);
    SameHeld(t, t1);
    OneStoreGrows(w, n, t1);
  }

  lemma OneUpsert(peers: map<DeviceId, PeerRow>, p: Peer)
    requires EndpointsWhole(peers)
    ensures PeersGrow(peers, UpsertPeer(peers, p))
  {
    hide PeersGrow, UpsertPeer;
    NoPeerUpdateIsLost(peers, [p]);
    assert UpsertAll(peers, [p]) == UpsertAll(UpsertPeer(peers, p), []);
  }

  lemma PeersStayOk(c: Config, n: DeviceId, t: Tables, p: Peer)
    requires PeersOk(c, n, t)
    requires p.identity.deviceId in c.ids && p.identity == c.ids[p.identity.deviceId].public && p.identity.deviceId != n
    ensures PeersOk(c, n, t.(peers := UpsertPeer(t.peers, p)))
  {
  }

  lemma UpsertReason(c: Config, w: World, n: DeviceId, p: Peer)
    requires n in w.nodes && p.identity.deviceId != n
    requires Grows(w, Upsert(w, n, p))
    requires Holding(w, p.identity.deviceId, n) || Asked(w, p.identity.deviceId, n)
    ensures PairedForAReason(Upsert(w, n, p), n, p.identity.deviceId)
  {
    var d := p.identity.deviceId;
    if Holding(w, d, n) {
      HoldingGrows(w, Upsert(w, n, p), d, n);
    } else {
      var call :| call in w.handled && call.src == d && call.dst == n && call.body.PairRequest?;
      assert call in Upsert(w, n, p).handled;
    }
  }

  // ---------- Reading the invariant ----------

  lemma ClientFact(c: Config, w: World, k: nat)
    requires Inv(c, w) && k in w.clients
    ensures ClientOk(c, w, w.clients[k])
  {
  }

  lemma CallFact(c: Config, w: World, call: Call)
    requires Inv(c, w) && call in w.calls
    ensures CallOk(c, w, call)
  {
  }

  lemma ServerFact(c: Config, w: World, k: nat)
    requires Inv(c, w) && k in w.servers
    ensures ServerOk(c, w, w.servers[k]) && CallOk(c, w, w.servers[k].call)
  {
    assert ServerOk(c, w, w.servers[k]);
  }

  lemma AnswerFact(c: Config, w: World, a: Answer)
    requires Inv(c, w) && a in w.answers
    ensures AnswerOk(w, a) && CallOk(c, w, a.call)
  {
  }

  lemma NodeFact(c: Config, w: World, n: DeviceId)
    requires Inv(c, w) && n in c.ids
    ensures n in w.nodes && NodeOk(c, w, n)
  {
  }

  lemma LogFact(c: Config, w: World, n: DeviceId, id: string)
    requires Inv(c, w) && n in w.nodes && id in w.nodes[n].events
    ensures LogOk(w, n, id) && MintedOk(c, w, id) && w.minted[id].event.id == id
  {
  }

  lemma MintedFact(c: Config, w: World, id: string)
    requires Inv(c, w) && id in w.minted
    ensures MintedOk(c, w, id)
  {
  }

  lemma PeerIsDevice(c: Config, w: World, me: DeviceId, to: DeviceId)
    requires Inv(c, w) && CanReach(w, me, to)
    ensures me in c.ids && to in c.ids && me != to
  {
    assert NodeOk(c, w, me);
  }

  lemma TalksToDevice(c: Config, w: World, me: DeviceId, to: DeviceId)
    requires Inv(c, w) && CanTalk(w, me, to)
    ensures me in c.ids && to in c.ids && me != to && Holding(w, me, to)
  {
    PeerIsDevice(c, w, me, to);
  }

  // ---------- Putting a step together ----------

  lemma GrowsTransitive(a: World, b: World, c: World)
    requires Grows(a, b) && Grows(b, c)
    ensures Grows(a, c)
  {
    hide TablesGrow;
    forall n | n in a.nodes
      ensures TablesGrow(a.nodes[n], c.nodes[n])
    {
      TablesGrowTransitive(a.nodes[n], b.nodes[n], c.nodes[n]);
    }
  }

  lemma GrowsReflexive(w: World)
    ensures Grows(w, w)
  {
  }

  /** After the stores have been dealt with, what is left is to look at what the step adds. */
  lemma Assemble(c: Config, w: World, w1: World, w': World)
    requires Inv(c, w) && Grows(w, w1) && NodesOk(c, w1)
    requires w'.nodes == w1.nodes && w'.catalog == w1.catalog && w'.handled == w1.handled && w'.minted == w1.minted
    requires w1.calls <= w'.calls && w1.answers <= w'.answers
    requires forall id :: id in w'.minted && id !in w.minted ==> MintedOk(c, w', id)
    requires forall call :: call in w'.calls - w.calls ==> CallOk(c, w', call)
    requires forall a :: a in w'.answers - w.answers ==> AnswerOk(w', a)
    requires forall k :: k in w'.clients && (k !in w.clients || w'.clients[k] != w.clients[k]) ==>
      ClientOk(c, w', w'.clients[k])
    requires forall k :: k in w'.servers && (k !in w.servers || w'.servers[k] != w.servers[k]) ==>
      ServerOk(c, w', w'.servers[k])
    ensures Inv(c, w') && Grows(w, w')
  {
    hide NodesOk, OpsOk, RecordsOk, Grows, ClientOk, ServerOk, CallOk, AnswerOk, MintedOk;
    StoresUnchanged(c, w1, w');
    GrowsTransitive(w, w1, w');
    RecordsKept(c, w, w');
    OpsKept(c, w, w');
  }

  /** A step that changes at most the client operation `k`. */
  lemma ClientMoves(c: Config, w: World, w1: World, w': World, k: nat, client: Client)
    requires Inv(c, w) && Grows(w, w1) && NodesOk(c, w1)
    requires w1.calls == w.calls && w1.answers == w.answers && w1.minted == w.minted
    requires w1.clients == w.clients && w1.servers == w.servers
    requires w' == w1.(clients := w.clients[k := client], clock := w'.clock)
    requires ClientOk(c, w1, client)
    ensures Inv(c, w') && Grows(w, w')
  {
    hide NodesOk, OpsOk, RecordsOk, Grows, Inv, ClientOk, ServerOk, CallOk, AnswerOk, MintedOk;
    StoresUnchanged(c, w1, w');
    ClientGrows(c, w1, w', client);
    Assemble(c, w, w1, w');
  }

  /** The client operation `k` sends a request and waits for the answer, or ends. */
  lemma ClientSends(c: Config, w: World, w': World, k: nat, call: Call, reachedAt: Option<Endpoint>)
    requires Inv(c, w) && CallOk(c, w, call) && call.src in c.ids
    requires w' == Post(c, w, k, call, reachedAt).(clock := w'.clock)
    ensures Inv(c, w') && Grows(w, w')
  {
    hide Inv, Grows, CallOk, F.FitsFrame;
    if F.FitsFrame(c.ids[call.src].public, call.body) {
      ClientWaits(c, w, w', k, call, reachedAt);
    } else {
      Unmoved(c, w);
      ClientEnds(c, w, w, w', k);
    }
  }

  lemma ClientWaits(c: Config, w: World, w': World, k: nat, call: Call, reachedAt: Option<Endpoint>)
    requires Inv(c, w) && CallOk(c, w, call)
    requires w' == w.(calls := w.calls + {call}, clients := w.clients[k := Waiting(call, reachedAt)], clock := w'.clock)
    ensures Inv(c, w') && Grows(w, w')
  {
    hide NodesOk, OpsOk, RecordsOk, Grows, ServerOk, CallOk, AnswerOk, MintedOk;
    Unmoved(c, w);
    StoresUnchanged(c, w, w');
    CallGrows(c, w, w', call);
    Assemble(c, w, w, w');
  }

  lemma ClientEnds(c: Config, w: World, w1: World, w': World, k: nat)
    requires Inv(c, w) && Grows(w, w1) && NodesOk(c, w1)
    requires w1.calls == w.calls && w1.answers == w.answers && w1.minted == w.minted
    requires w1.clients == w.clients && w1.servers == w.servers
    requires w' == w1.(clients := w.clients - {k}, clock := w'.clock)
    ensures Inv(c, w') && Grows(w, w')
  {
    hide NodesOk, OpsOk, RecordsOk, Grows, Inv, ClientOk, ServerOk, CallOk, AnswerOk, MintedOk;
    Assemble(c, w, w1, w');
  }

  lemma ServerMoves(c: Config, w: World, w1: World, w': World, k: nat, server: Server)
    requires Inv(c, w) && Grows(w, w1) && NodesOk(c, w1)
    requires w1.calls == w.calls && w1.answers == w.answers && w1.minted == w.minted
    requires w1.clients == w.clients && w1.servers == w.servers
    requires w' == w1.(servers := w.servers[k := server], clock := w'.clock)
    requires ServerOk(c, w1, server)
    ensures Inv(c, w') && Grows(w, w')
  {
    hide NodesOk, OpsOk, RecordsOk, Grows, Inv, ClientOk, ServerOk, CallOk, AnswerOk, MintedOk;
    StoresUnchanged(c, w1, w');
    ServerGrows(c, w1, w', server);
    Assemble(c, w, w1, w');
  }

  lemma ServerEnds(c: Config, w: World, w': World, k: nat, answers: set<Answer>)
    requires Inv(c, w)
    requires w' == w.(servers := w.servers - {k}, answers := w.answers + answers, clock := w'.clock)
    requires forall a :: a in answers ==> AnswerOk(w, a)
    ensures Inv(c, w') && Grows(w, w')
  {
    hide NodesOk, OpsOk, RecordsOk, Grows, ClientOk, ServerOk, CallOk, AnswerOk, MintedOk;
    Unmoved(c, w);
    StoresUnchanged(c, w, w');
    forall a | a in answers
      ensures AnswerOk(w', a)
    {
      AnswerGrows(w, w', a);
    }
    Assemble(c, w, w, w');
  }

  /** The server operation `k` ends with an answer, sent or not. */
  lemma ServerAnswers(c: Config, w: World, w': World, k: nat, a: Answer)
    requires Inv(c, w) && AnswerOk(w, a) && a.call.dst in c.ids
    requires w' == SendAnswer(c, w, k, a).(clock := w'.clock)
    ensures Inv(c, w') && Grows(w, w')
  {
    hide Inv, Grows, AnswerOk, F.FitsFrame;
    ServerEnds(c, w, w', k, if w'.answers == w.answers then {} else {a});
  }

  lemma Unmoved(c: Config, w: World)
    requires Inv(c, w)
    ensures Grows(w, w) && NodesOk(c, w)
  {
    hide NodesOk, OpsOk, RecordsOk, Grows;
    GrowsReflexive(w);
  }

  // ---------- The next position of an operation ----------

  lemma CallEnds(c: Config, w: World, call: Call)
    requires CallOk(c, w, call)
    ensures call.src in c.ids && call.dst in c.ids && call.src != call.dst
  {
  }

  lemma LearningOk(c: Config, w: World, me: DeviceId, peer: DeviceId, endpoint: Endpoint)
    requires Inv(c, w) && me in w.nodes && peer in c.ids && peer != me
    ensures ClientOk(c, w, Learning(me, c.ids[peer].public, endpoint, IsPaired(w.nodes[me], peer)))
  {
    hide RecordsOk, NodesOk, OpsOk;
  }

  lemma PairAnswered(c: Config, w: World, a: Answer)
    requires Inv(c, w) && a in w.answers && a.body.PairResponse?
    ensures a.call.src in c.ids && a.call.dst in c.ids && a.call.src != a.call.dst && Holding(w, a.call.dst, a.call.src)
  {
    AnswerFact(c, w, a);
  }

  lemma PairDone(c: Config, w: World, a: Answer, p: Peer)
    requires Inv(c, w) && a in w.answers && a.body.PairResponse? && a.call.src in w.nodes
    requires Holding(Upsert(w, a.call.src, p), a.call.src, a.call.dst)
    ensures ClientOk(c, Upsert(w, a.call.src, p), Done(a))
  {
    AnswerFact(c, w, a);
  }

  lemma FileSavedOk(c: Config, w: World, me: DeviceId, to: DeviceId, m: FileManifest)
    requires me in c.ids && to in c.ids && me != to && Holding(w, me, to) && Holds(w.nodes[me], m) && Catalogued(w, m)
    ensures ClientOk(c, w, FileSaved(me, to, m))
  {
  }

  lemma KnownReadOk(c: Config, w: World, me: DeviceId, to: DeviceId)
    requires me in c.ids && to in c.ids && me != to && Holding(w, me, to)
    ensures ClientOk(c, w, KnownRead(me, to, StreamIds(w.nodes[me], DirectStreamId(me, to)), w.clock))
  {
  }

  lemma SyncCallOk(c: Config, w: World, k: nat, call: Call)
    requires Inv(c, w) && k in w.clients && w.clients[k].KnownRead?
    requires call.src == w.clients[k].me && call.dst == w.clients[k].to && call.src in w.nodes
    requires KeyedById(w.nodes[call.src].events)
    requires var stream := DirectStreamId(call.src, call.dst);
             call.body == SyncExchange(stream, w.clients[k].known, OwnEvents(call.src, w.nodes[call.src], stream))
    ensures CallOk(c, w, call)
  {
    hide RecordsOk, NodesOk, OpsOk;
    ClientFact(c, w, k);
    OwnIsFromTo(c, w, call.src, call.dst);
  }

  lemma MergingOk(c: Config, w: World, k: nat, a: Answer)
    requires Inv(c, w) && a in w.answers && a.body.SyncResult?
    ensures ClientOk(c, w, Merging(a, EventsIn(a.body), None))
  {
    hide RecordsOk, NodesOk, OpsOk;
    AnswerFact(c, w, a);
    AsksAndHolds(c, w, a);
    hide Inv, CallOk, AnswerOk, FromTo, Stored;
  }

  lemma AsksAndHolds(c: Config, w: World, a: Answer)
    requires CallOk(c, w, a.call) && AnswerOk(w, a) && a.body.SyncResult?
    ensures a.call.body.SyncExchange? && Holding(w, a.call.src, a.call.dst)
  {
  }

  lemma MergesFrom(c: Config, w: World, a: Answer)
    requires Inv(c, w) && a in w.answers && a.body.SyncResult?
    ensures a.call.src in c.ids && a.call.dst in c.ids && a.call.src != a.call.dst && a.call.body.SyncExchange?
    ensures forall e :: e in a.body.events ==> FromTo(w, e, a.call.dst, a.call.src)
  {
    AnswerFact(c, w, a);
  }

  lemma MergingStill(c: Config, w: World, a: Answer, rest: seq<EventEnvelope>, saving: Option<FileManifest>)
    requires a in w.answers && a.call.body.SyncExchange? && a.body.SyncResult? && Holding(w, a.call.src, a.call.dst)
    requires SavingOk(w, saving) && LoopOk(w, a.call.src, a.body.events, rest)
    ensures ClientOk(c, w, Merging(a, rest, saving))
  {
  }

  lemma MergeDone(c: Config, w: World, op: Client)
    requires Inv(c, w) && ClientOk(c, w, op) && op.Merging? && op.rest == []
    ensures ClientOk(c, w, Done(op.answer))
  {
    hide Inv;
    assert op.answer.body.events == EventsIn(op.answer.body);
  }

  lemma ServeOk(c: Config, w: World, k: nat, call: Call)
    requires Inv(c, w) && call in w.calls && call.dst in w.nodes && call.src in c.ids
    requires Trusts(w.nodes[call.dst], c.ids[call.src].public)
    requires call.body.PushEvent? || call.body.SyncExchange?
    ensures ServerOk(c, w, Receiving(call, EventsIn(call.body), None))
  {
    DeviceKeys(c, w);
  }

  lemma ServesFrom(c: Config, w: World, call: Call)
    requires CallOk(c, w, call) && (call.body.PushEvent? || call.body.SyncExchange?)
    ensures call.src in c.ids && call.dst in c.ids && call.src != call.dst
    ensures forall e :: e in EventsIn(call.body) ==> FromTo(w, e, call.src, call.dst)
  {
  }

  // ---------- Discovery and pairing ----------

  lemma LearnStep(c: Config, w: World, k: nat, me: DeviceId, peer: DeviceId, endpoint: Endpoint)
    requires Inv(c, w) && Enabled(c, w, Learn(k, me, peer, endpoint))
    ensures Inv(c, Take(c, w, Learn(k, me, peer, endpoint))) && Grows(w, Take(c, w, Learn(k, me, peer, endpoint)))
  {
    hide NodesOk, OpsOk, RecordsOk, Grows, ClientOk, ServerOk, CallOk, AnswerOk, MintedOk;
    Unmoved(c, w);
    LearningOk(c, w, me, peer, endpoint);
    ClientMoves(c, w, w, Take(c, w, Learn(k, me, peer, endpoint)), k,
                Learning(me, c.ids[peer].public, endpoint, IsPaired(w.nodes[me], peer)));
  }

  lemma LearnWriteStep(c: Config, w: World, k: nat, now: int)
    requires Inv(c, w) && Enabled(c, w, LearnWrite(k, now))
    ensures Inv(c, Take(c, w, LearnWrite(k, now))) && Grows(w, Take(c, w, LearnWrite(k, now)))
  {
    hide NodesOk, OpsOk, RecordsOk, Grows, ServerOk, CallOk, AnswerOk, MintedOk;
    ClientFact(c, w, k);
    var op := w.clients[k];
    DeviceKeys(c, w);
    UpsertKept(c, w, op.me, Peer(op.peer, Some(op.endpoint), op.paired, now));
    ClientEnds(
      c, w, Upsert(w, op.me, Peer(op.peer, Some(op.endpoint), op.paired, now)), Take(c, w, LearnWrite(k, now)), k);
  }

  lemma DeviceKeys(c: Config, w: World)
    requires Inv(c, w)
    ensures w.nodes.Keys == c.ids.Keys && NodesOk(c, w) && RecordsOk(c, w)
    ensures forall d :: d in c.ids ==> c.ids[d].public.deviceId == d
  {
  }

  lemma AskPairStep(c: Config, w: World, k: nat, me: DeviceId, to: DeviceId, pairingNonce: string)
    requires Inv(c, w) && Enabled(c, w, AskPair(k, me, to, pairingNonce))
    ensures Inv(c, Take(c, w, AskPair(k, me, to, pairingNonce)))
    ensures Grows(w, Take(c, w, AskPair(k, me, to, pairingNonce)))
  {
    hide NodesOk, OpsOk, RecordsOk, Grows, ClientOk, ServerOk, AnswerOk, MintedOk;
    PeerIsDevice(c, w, me, to);
    ClientSends(c, w, Take(c, w, AskPair(k, me, to, pairingNonce)), k,
                Call(k, me, to, PairRequest(pairingNonce), w.clock, w.clock),
                LookupPeer(w.nodes[me].peers, to).value.endpoint);
  }

  lemma ServePairStep(c: Config, w: World, k: nat, call: Call)
    requires Inv(c, w) && Enabled(c, w, ServePair(k, call))
    ensures Inv(c, Take(c, w, ServePair(k, call))) && Grows(w, Take(c, w, ServePair(k, call)))
  {
    hide NodesOk, OpsOk, RecordsOk, Grows, ClientOk, CallOk, AnswerOk, MintedOk;
    Unmoved(c, w);
    var w' := Take(c, w, ServePair(k, call));
    ServerMoves(c, w, w, w', k, w'.servers[k]);
  }

  lemma ServePairWriteStep(c: Config, w: World, k: nat, now: int)
    requires Inv(c, w) && Enabled(c, w, ServePairWrite(k, now))
    ensures Inv(c, Take(c, w, ServePairWrite(k, now))) && Grows(w, Take(c, w, ServePairWrite(k, now)))
  {
    hide NodesOk, OpsOk, RecordsOk, Grows, ClientOk, CallOk, AnswerOk, MintedOk;
    ServerFact(c, w, k);
    DeviceKeys(c, w);
    var op := w.servers[k];
    var call := op.call;
    var noted := w.(handled := w.handled + {call});
    var p := Peer(c.ids[call.src].public, op.endpoint, true, now);
    NotedPair(c, w, call);
    CallEnds(c, w, call);
    assert call in noted.handled;
    assert Asked(noted, call.src, call.dst);
    UpsertKept(c, noted, call.dst, p);
    GrowsTransitive(w, noted, Upsert(noted, call.dst, p));
    ServerMoves(c, w, Upsert(noted, call.dst, p), Take(c, w, ServePairWrite(k, now)), k, PairWritten(call));
  }

  lemma NotedPair(c: Config, w: World, call: Call)
    requires NodesOk(c, w)
    ensures Grows(w, w.(handled := w.handled + {call})) && NodesOk(c, w.(handled := w.handled + {call}))
  {
    MoreRecorded(c, w, w.(handled := w.handled + {call}));
  }

  /** The same stores, with more recorded about them. */
  lemma MoreRecorded(c: Config, w: World, noted: World)
    requires NodesOk(c, w) && Grows(w, noted) && noted.nodes == w.nodes
    ensures NodesOk(c, noted)
  {
    hide NodeOk, LogOk, Holding, Grows;
    forall n | n in w.nodes
      ensures NodeOk(c, noted, n)
    {
      NodeGrows(c, w, noted, n);
    }
    forall n, id | n in w.nodes && id in w.nodes[n].events
      ensures LogOk(noted, n, id)
    {
      LogGrows(w, noted, n, id);
    }
    forall n, d | n in c.ids && d in c.ids
      ensures PairedForAReason(noted, n, d)
    {
      assert PairedForAReason(w, n, d);
      SameHolding(w, noted, n, d);
      if Holding(w, n, d) { ReasonGrows(w, noted, n, d); }
    }
  }

  lemma SameHolding(w: World, noted: World, n: DeviceId, d: DeviceId)
    requires noted.nodes == w.nodes
    ensures Holding(noted, n, d) <==> Holding(w, n, d)
  {
  }

  lemma ServePairAnswerStep(c: Config, w: World, k: nat)
    requires Inv(c, w) && Enabled(c, w, ServePairAnswer(k))
    ensures Inv(c, Take(c, w, ServePairAnswer(k))) && Grows(w, Take(c, w, ServePairAnswer(k)))
  {
    hide NodesOk, OpsOk, RecordsOk, Grows;
    ServerFact(c, w, k);
    ServerAnswers(c, w, Take(c, w, ServePairAnswer(k)), k, Answer(w.servers[k].call, PairResponse(true), w.clock));
  }

  lemma FinishPairStep(c: Config, w: World, k: nat, a: Answer, now: int)
    requires Inv(c, w) && Enabled(c, w, FinishPair(k, a, now))
    ensures Inv(c, Take(c, w, FinishPair(k, a, now))) && Grows(w, Take(c, w, FinishPair(k, a, now)))
  {
    hide NodesOk, OpsOk, RecordsOk, Grows, ClientOk, ServerOk, CallOk, AnswerOk, MintedOk;
    AnswerFact(c, w, a);
    DeviceKeys(c, w);
    var p := Peer(c.ids[a.call.dst].public, w.clients[k].reachedAt, true, now);
    PairAnswered(c, w, a);
    UpsertKept(c, w, a.call.src, p);
    PairDone(c, w, a, p);
    ClientMoves(c, w, Upsert(w, a.call.src, p), Take(c, w, FinishPair(k, a, now)), k, Done(a));
  }

  // ---------- Creating events ----------

  /** A new event enters its author's log and the record of created events. */
  lemma PublishKept(
    c: Config, w: World, k: nat, me: DeviceId, to: DeviceId, kind: EventKind, payload: Payload, id: string, time: int,
    nonce: Bytes, w': World)
    requires Inv(c, w) && me in c.ids && to in c.ids && me != to && Holding(w, me, to) && id !in w.minted
    requires kind.ManifestKind? <==> payload.ManifestPayload?
    requires payload.ManifestPayload? ==> Catalogued(w, payload.manifest)
    requires w' == Publish(c, w, k, me, to, kind, payload, id, time, nonce).(clock := w.clock + 1)
    ensures Inv(c, w') && Grows(w, w')
  {
    hide NodesOk, OpsOk, RecordsOk, Grows, ClientOk, ServerOk, AnswerOk;
    var e := NewEvent(c, me, to, kind, payload, id, time, nonce);
    var r := Minted(e, to, payload);
    var w1 := PublishStored(c, w, me, to, e, r);
    NewMintedOk(c, w', id, r);
    var call := Call(k, me, to, PushEvent(e), w.clock, w.clock);
    SentEvent(c, w', call);
    hide MintedOk, CallOk, NewEvent, Stored, Catalogued, Post;
    PostKept(c, w, w1, w', k, call, id);
  }

  lemma PostKept(c: Config, w: World, w1: World, w': World, k: nat, call: Call, id: string)
    requires Inv(c, w) && Grows(w, w1) && NodesOk(c, w1) && call.src in c.ids
    requires w1 == w.(nodes := w1.nodes, minted := w1.minted)
    requires w' == Post(c, w1, k, call, None).(clock := w'.clock)
    requires w'.minted.Keys <= w.minted.Keys + {id} && id in w'.minted && MintedOk(c, w', id) && CallOk(c, w', call)
    ensures Inv(c, w') && Grows(w, w')
  {
    hide NodesOk, OpsOk, RecordsOk, Grows, ServerOk, AnswerOk, MintedOk, CallOk, F.FitsFrame;
    if call in w'.calls {
      assert ClientOk(c, w', Waiting(call, None)) by { WaitingOk(c, w', call); }
    }
    hide ClientOk;
    Assemble(c, w, w1, w');
  }

  lemma WaitingOk(c: Config, w: World, call: Call)
    requires call in w.calls
    ensures ClientOk(c, w, Waiting(call, None))
  {
  }

  lemma PublishStored(c: Config, w: World, me: DeviceId, to: DeviceId, e: EventEnvelope, r: Minted) returns (w1: World)
    requires Inv(c, w) && me in c.ids && me != to && Holding(w, me, to) && e.id !in w.minted
    requires e.author == me && r.event == e && r.to == to
    ensures w1 == With(w.(minted := w.minted[e.id := r]), me, w.nodes[me].(events := Insert(w.nodes[me].events, e)))
    ensures Grows(w, w1) && NodesOk(c, w1) && Stored(w1, me, e)
  {
    hide NodesOk, OpsOk, RecordsOk, Grows;
    var noted := w.(minted := w.minted[e.id := r]);
    DeviceKeys(c, w);
    MintedNoted(c, w, e.id, r);
    NotInLog(c, w, me, e.id);
    AuthorInserts(c, noted, me, to, e);
    w1 := With(noted, me, w.nodes[me].(events := Insert(w.nodes[me].events, e)));
    GrowsTransitive(w, noted, w1);
  }

  lemma SentEvent(c: Config, w: World, call: Call)
    requires call.src in c.ids && call.dst in c.ids && call.src != call.dst && call.body.PushEvent?
    requires FromTo(w, call.body.event, call.src, call.dst)
    ensures CallOk(c, w, call)
  {
  }

  lemma NewMintedOk(c: Config, w: World, id: string, r: Minted)
    requires ConfigOk(c) && id in w.minted && w.minted[id] == r && r.event.author in c.ids && r.to in c.ids
    requires r.event.author != r.to
    requires r.event == NewEvent(c, r.event.author, r.to, r.event.kind, r.payload, id, r.event.time, r.event.nonce)
    requires Stored(w, r.event.author, r.event)
    requires r.event.kind.ManifestKind? <==> r.payload.ManifestPayload?
    requires r.payload.ManifestPayload? ==> Catalogued(w, r.payload.manifest)
    ensures MintedOk(c, w, id)
  {
  }

  lemma NotInLog(c: Config, w: World, n: DeviceId, id: string)
    requires NodesOk(c, w) && n in w.nodes && id !in w.minted
    ensures id !in w.nodes[n].events
  {
    assert forall x :: x in w.nodes[n].events ==> LogOk(w, n, x);
  }

  lemma MintedNoted(c: Config, w: World, id: string, r: Minted)
    requires NodesOk(c, w) && id !in w.minted
    ensures var noted := w.(minted := w.minted[id := r]); Grows(w, noted) && NodesOk(c, noted)
  {
    MoreRecorded(c, w, w.(minted := w.minted[id := r]));
  }

  lemma AuthorInserts(c: Config, w: World, me: DeviceId, to: DeviceId, e: EventEnvelope)
    requires NodesOk(c, w) && me in w.nodes && Holding(w, me, to)
    requires e.id !in w.nodes[me].events && e.id in w.minted && w.minted[e.id].event == e
    requires w.minted[e.id].to == to && e.author == me
    ensures var w1 := With(w, me, w.nodes[me].(events := Insert(w.nodes[me].events, e)));
            Grows(w, w1) && NodesOk(c, w1) && Stored(w1, me, e)
  {
    hide Sound;
    var w1 := With(w, me, w.nodes[me].(events := Insert(w.nodes[me].events, e)));
    InsertGrows(c, w, me, e);
    hide NodesOk, Grows, NodeOk;
    HoldingGrows(w, w1, me, to);
    NodesKept(c, w, w1, me);
  }

  lemma WriteTextStep(
    c: Config, w: World, k: nat, me: DeviceId, to: DeviceId, text: string, id: string, time: int, nonce: Bytes)
    requires Inv(c, w) && Enabled(c, w, WriteText(k, me, to, text, id, time, nonce))
    ensures var w' := Take(c, w, WriteText(k, me, to, text, id, time, nonce)); Inv(c, w') && Grows(w, w')
  {
    hide Inv, Grows;
    PublishKept(
      c, w, k, me, to, TextKind, TextPayload(text), id, time, nonce,
      Take(c, w, WriteText(k, me, to, text, id, time, nonce)));
  }

  lemma WriteFileStep(c: Config, w: World, k: nat, id: string, time: int, nonce: Bytes)
    requires Inv(c, w) && Enabled(c, w, WriteFile(k, id, time, nonce))
    ensures var w' := Take(c, w, WriteFile(k, id, time, nonce)); Inv(c, w') && Grows(w, w')
  {
    hide Inv, Grows;
    ClientFact(c, w, k);
    var op := w.clients[k];
    PublishKept(c, w, k, op.me, op.to, ManifestKind, ManifestPayload(op.manifest), id, time, nonce,
                Take(c, w, WriteFile(k, id, time, nonce)));
  }

  lemma SaveFileStep(c: Config, w: World, k: nat, me: DeviceId, to: DeviceId, m: FileManifest)
    requires Inv(c, w) && Enabled(c, w, SaveFile(k, me, to, m))
    ensures var w' := Take(c, w, SaveFile(k, me, to, m)); Inv(c, w') && Grows(w, w')
  {
    hide NodesOk, OpsOk, RecordsOk, Grows, ClientOk, ServerOk, CallOk, AnswerOk, MintedOk, SaveManifest, CanTalk;
    TalksToDevice(c, w, me, to);
    DeviceKeys(c, w);
    var noted := w.(catalog := w.catalog[m.id := m]);
    CatalogNoted(c, w, m);
    SaveKept(c, noted, me, to, m);
    var w1 := With(noted, me, SaveManifest(w.nodes[me], to, m));
    GrowsTransitive(w, noted, w1);
    HoldingGrows(w, w1, me, to);
    assert ClientOk(c, w1, FileSaved(me, to, m)) by { FileSavedOk(c, w1, me, to, m); }
    ClientMoves(c, w, w1, Take(c, w, SaveFile(k, me, to, m)), k, FileSaved(me, to, m));
  }

  lemma CatalogNoted(c: Config, w: World, m: FileManifest)
    requires NodesOk(c, w) && m.id !in w.catalog
    ensures var noted := w.(catalog := w.catalog[m.id := m]); Grows(w, noted) && NodesOk(c, noted)
  {
    MoreRecorded(c, w, w.(catalog := w.catalog[m.id := m]));
  }

  lemma FinishPushStep(c: Config, w: World, k: nat, a: Answer)
    requires Inv(c, w) && Enabled(c, w, FinishPush(k, a))
    ensures Inv(c, Take(c, w, FinishPush(k, a))) && Grows(w, Take(c, w, FinishPush(k, a)))
  {
    hide NodesOk, OpsOk, RecordsOk, Grows, ServerOk, CallOk, AnswerOk, MintedOk;
    Unmoved(c, w);
    ClientMoves(c, w, w, Take(c, w, FinishPush(k, a)), k, Done(a));
  }

  // ---------- Sync, client side ----------

  lemma ReadKnownStep(c: Config, w: World, k: nat, me: DeviceId, to: DeviceId)
    requires Inv(c, w) && Enabled(c, w, ReadKnown(k, me, to))
    ensures Inv(c, Take(c, w, ReadKnown(k, me, to))) && Grows(w, Take(c, w, ReadKnown(k, me, to)))
  {
    hide NodesOk, OpsOk, RecordsOk, Grows, ClientOk, ServerOk, CallOk, AnswerOk, MintedOk;
    Unmoved(c, w);
    TalksToDevice(c, w, me, to);
    KnownReadOk(c, w, me, to);
    ClientMoves(
      c, w, w, Take(c, w, ReadKnown(k, me, to)), k,
      KnownRead(me, to, StreamIds(w.nodes[me], DirectStreamId(me, to)), w.clock));
  }

  /** The events a device reads as its own for a peer were created by it for that peer. */
  lemma OwnIsFromTo(c: Config, w: World, me: DeviceId, to: DeviceId)
    requires Inv(c, w) && me in c.ids && to in c.ids && me in w.nodes && KeyedById(w.nodes[me].events)
    ensures forall e :: e in OwnEvents(me, w.nodes[me], DirectStreamId(me, to)) ==> FromTo(w, e, me, to)
  {
    hide NodesOk, OpsOk, RecordsOk;
    var S := DirectStreamId(me, to);
    SyncLaws.OwnEventsMembers(me, w.nodes[me], S);
    forall e | e in OwnEvents(me, w.nodes[me], S)
      ensures FromTo(w, e, me, to)
    {
      LogFact(c, w, me, e.id);
      StreamIdInjective(me, to, e.author, w.minted[e.id].to);
    }
  }

  lemma SendSyncStep(c: Config, w: World, k: nat)
    requires Inv(c, w) && Enabled(c, w, SendSync(k))
    ensures Inv(c, Take(c, w, SendSync(k))) && Grows(w, Take(c, w, SendSync(k)))
  {
    hide NodesOk, OpsOk, RecordsOk, Grows, ClientOk, ServerOk, CallOk, AnswerOk, MintedOk;
    hide F.FitsFrame, OwnEvents;
    var op := w.clients[k];
    var stream := DirectStreamId(op.me, op.to);
    var body := SyncExchange(stream, op.known, OwnEvents(op.me, w.nodes[op.me], stream));
    var call := Call(k, op.me, op.to, body, w.clock, op.at);
    SyncCallOk(c, w, k, call);
    ClientSends(c, w, Take(c, w, SendSync(k)), k, call, None);
  }

  lemma BeginMergeStep(c: Config, w: World, k: nat, a: Answer)
    requires Inv(c, w) && Enabled(c, w, BeginMerge(k, a))
    ensures Inv(c, Take(c, w, BeginMerge(k, a))) && Grows(w, Take(c, w, BeginMerge(k, a)))
  {
    hide NodesOk, OpsOk, RecordsOk, Grows, ClientOk, ServerOk, CallOk, AnswerOk, MintedOk;
    Unmoved(c, w);
    MergingOk(c, w, k, a);
    ClientMoves(c, w, w, Take(c, w, BeginMerge(k, a)), k, Merging(a, EventsIn(a.body), None));
  }

  /** An event of the record can be read at the other end, as what it was created from. */
  lemma MintedOpens(c: Config, w: World, n: DeviceId, peer: DeviceId, e: EventEnvelope)
    requires ConfigOk(c) && n in c.ids && peer in c.ids && FromTo(w, e, peer, n) && MintedOk(c, w, e.id)
    ensures OpenItem(c.prim, c.ids[n], c.ids[peer].public, e)
         == Ok(ChatItem(e.id, e.author, e.time, w.minted[e.id].payload))
  {
    var r := w.minted[e.id];
    EventRoundTrip(c.prim, c.ids[peer], c.ids[n], DirectStreamId(peer, n), e.kind, r.payload, e.id, e.time, e.nonce);
  }

  /** One turn of the receiving loop: no event from an honest peer is ever refused. */
  lemma ReceiveKept(
    c: Config, w: World, n: DeviceId, peer: DeviceId, all: seq<EventEnvelope>, rest: seq<EventEnvelope>,
    saving: Option<FileManifest>)
    requires Inv(c, w) && n in c.ids && peer in c.ids && n != peer && Holding(w, n, peer)
    requires forall e :: e in all ==> FromTo(w, e, peer, n)
    requires LoopOk(w, n, all, rest) && SavingOk(w, saving)
    ensures n in w.nodes
    ensures var r := ReceiveNext(c.prim, c.ids[n], w.nodes[n], c.ids[peer].public, rest, saving);
            var w1 := With(w, n, r.t);
            && r.ok && Grows(w, w1) && NodesOk(c, w1) && LoopOk(w1, n, all, r.rest) && SavingOk(w1, r.saving)
  {
    hide NodesOk, OpsOk, RecordsOk, Grows, LoopOk, Sound, Holds, SaveManifest;
    DeviceKeys(c, w);
    if saving.Some? {
      SaveKept(c, w, n, peer, saving.value);
      LoopGrows(w, With(w, n, SaveManifest(w.nodes[n], peer, saving.value)), n, all, rest);
    } else if rest == [] {
      assert With(w, n, w.nodes[n]) == w;
      GrowsReflexive(w);
    } else {
      HeadOfLoop(w, n, all, rest);
      HeadReceived(c, w, n, peer, all, rest);
    }
  }

  lemma HeadReceived(
    c: Config, w: World, n: DeviceId, peer: DeviceId, all: seq<EventEnvelope>, rest: seq<EventEnvelope>)
    requires Inv(c, w) && n in w.nodes && n in c.ids && peer in c.ids && Holding(w, n, peer)
    requires LoopOk(w, n, all, rest) && rest != [] && FromTo(w, rest[0], peer, n)
    ensures var r := ReceiveNext(c.prim, c.ids[n], w.nodes[n], c.ids[peer].public, rest, None);
            var w1 := With(w, n, r.t);
            && r.ok && Grows(w, w1) && NodesOk(c, w1) && LoopOk(w1, n, all, r.rest) && SavingOk(w1, r.saving)
  {
    hide NodesOk, OpsOk, RecordsOk, Grows, LoopOk, Sound, Holds, SaveManifest;
    DeviceKeys(c, w);
    var e := rest[0];
    MintedFact(c, w, e.id);
    MintedOpens(c, w, n, peer, e);
    InsertKept(c, w, n, peer, e);
    var w1 := With(w, n, w.nodes[n].(events := Insert(w.nodes[n].events, e)));
    LoopGrows(w, w1, n, all, rest);
    LoopAdvances(w1, n, all, rest);
  }

  lemma HeadOfLoop(w: World, n: DeviceId, all: seq<EventEnvelope>, rest: seq<EventEnvelope>)
    requires LoopOk(w, n, all, rest) && rest != []
    ensures rest[0] in all
  {
  }

  lemma LoopAdvances(w: World, n: DeviceId, all: seq<EventEnvelope>, rest: seq<EventEnvelope>)
    requires LoopOk(w, n, all, rest) && rest != [] && Stored(w, n, rest[0])
    ensures LoopOk(w, n, all, rest[1..])
  {
    assert rest == [rest[0]] + rest[1..];
  }

  lemma MergeNextStep(c: Config, w: World, k: nat)
    requires Inv(c, w) && Enabled(c, w, MergeNext(k))
    ensures Inv(c, Take(c, w, MergeNext(k))) && Grows(w, Take(c, w, MergeNext(k)))
  {
    hide NodesOk, OpsOk, RecordsOk, Grows, ServerOk, CallOk, MintedOk, LoopOk, ReceiveNext;
    ClientFact(c, w, k);
    var op := w.clients[k];
    var call := op.answer.call;
    AnswerFact(c, w, op.answer);
    MergesFrom(c, w, op.answer);
    ReceiveKept(c, w, call.src, call.dst, op.answer.body.events, op.rest, op.saving);
    var r := ReceiveNext(c.prim, c.ids[call.src], w.nodes[call.src], c.ids[call.dst].public, op.rest, op.saving);
    var w1 := With(w, call.src, r.t);
    HoldingGrows(w, w1, call.src, call.dst);
    hide ClientOk;
    MergingStill(c, w1, op.answer, r.rest, r.saving);
    ClientMoves(c, w, w1, Take(c, w, MergeNext(k)), k, Merging(op.answer, r.rest, r.saving));
  }

  lemma FinishMergeStep(c: Config, w: World, k: nat)
    requires Inv(c, w) && Enabled(c, w, FinishMerge(k))
    ensures Inv(c, Take(c, w, FinishMerge(k))) && Grows(w, Take(c, w, FinishMerge(k)))
  {
    hide NodesOk, OpsOk, RecordsOk, Grows, ClientOk, ServerOk, CallOk, AnswerOk, MintedOk;
    Unmoved(c, w);
    ClientFact(c, w, k);
    MergeDone(c, w, w.clients[k]);
    ClientMoves(c, w, w, Take(c, w, FinishMerge(k)), k, Done(w.clients[k].answer));
  }

  lemma DropClientStep(c: Config, w: World, k: nat)
    requires Inv(c, w) && Enabled(c, w, DropClient(k))
    ensures Inv(c, Take(c, w, DropClient(k))) && Grows(w, Take(c, w, DropClient(k)))
  {
    hide NodesOk, OpsOk, RecordsOk, Grows, ClientOk, ServerOk, CallOk, AnswerOk, MintedOk;
    Unmoved(c, w);
    ClientEnds(c, w, w, Take(c, w, DropClient(k)), k);
  }

  // ---------- Push and sync, server side ----------

  lemma ServeStep(c: Config, w: World, k: nat, call: Call)
    requires Inv(c, w) && Enabled(c, w, Serve(k, call))
    ensures Inv(c, Take(c, w, Serve(k, call))) && Grows(w, Take(c, w, Serve(k, call)))
  {
    hide NodesOk, OpsOk, RecordsOk, Grows, ClientOk, ServerOk, CallOk, AnswerOk, MintedOk;
    Unmoved(c, w);
    ServeOk(c, w, k, call);
    ServerMoves(c, w, w, Take(c, w, Serve(k, call)), k, Receiving(call, EventsIn(call.body), None));
  }

  lemma ServeNextStep(c: Config, w: World, k: nat)
    requires Inv(c, w) && Enabled(c, w, ServeNext(k))
    ensures Inv(c, Take(c, w, ServeNext(k))) && Grows(w, Take(c, w, ServeNext(k)))
  {
    hide NodesOk, OpsOk, RecordsOk, Grows, ClientOk, MintedOk, LoopOk, ReceiveNext, AnswerOk;
    ServerFact(c, w, k);
    var op := w.servers[k];
    var call := op.call;
    var all := EventsIn(call.body);
    ServesFrom(c, w, call);
    ReceiveKept(c, w, call.dst, call.src, all, op.rest, op.saving);
    var r := ReceiveNext(c.prim, c.ids[call.dst], w.nodes[call.dst], c.ids[call.src].public, op.rest, op.saving);
    var w1 := With(w, call.dst, r.t);
    HoldingGrows(w, w1, call.dst, call.src);
    hide CallOk;
    ServerMoves(c, w, w1, Take(c, w, ServeNext(k)), k, Receiving(call, r.rest, r.saving));
  }

  lemma ReplyIsTrue(c: Config, w: World, k: nat)
    requires Inv(c, w) && k in w.servers && w.servers[k].Receiving? && w.servers[k].rest == []
    requires w.servers[k].call.dst in w.nodes && KeyedById(w.nodes[w.servers[k].call.dst].events)
    ensures AnswerOk(w, Answer(w.servers[k].call, ReplyTo(w, w.servers[k].call), w.clock))
  {
    hide NodesOk, OpsOk, RecordsOk, Sound;
    var call := w.servers[k].call;
    ServerFact(c, w, k);
    if call.body.SyncExchange? {
      StreamIdSymmetric(call.src, call.dst);
      OwnIsFromTo(c, w, call.dst, call.src);
      UnknownMembers(call.body.known, OwnEvents(call.dst, w.nodes[call.dst], call.body.stream));
    } else {
      assert call.body.event in EventsIn(call.body);
    }
  }

  lemma ServeAnswerStep(c: Config, w: World, k: nat)
    requires Inv(c, w) && Enabled(c, w, ServeAnswer(k))
    ensures Inv(c, Take(c, w, ServeAnswer(k))) && Grows(w, Take(c, w, ServeAnswer(k)))
  {
    hide NodesOk, OpsOk, RecordsOk, Grows, ClientOk, ServerOk, CallOk, AnswerOk, MintedOk;
    hide ReplyTo;
    ReplyIsTrue(c, w, k);
    ServerAnswers(
      c, w, Take(c, w, ServeAnswer(k)), k, Answer(w.servers[k].call, ReplyTo(w, w.servers[k].call), w.clock));
  }

  lemma DropServerStep(c: Config, w: World, k: nat)
    requires Inv(c, w) && Enabled(c, w, DropServer(k))
    ensures Inv(c, Take(c, w, DropServer(k))) && Grows(w, Take(c, w, DropServer(k)))
  {
    hide NodesOk, OpsOk, RecordsOk, Grows, ClientOk, ServerOk, CallOk, AnswerOk, MintedOk;
    ServerEnds(c, w, Take(c, w, DropServer(k)), k, {});
  }

  lemma FileTrafficStep(c: Config, w: World, me: DeviceId, t: Tables)
    requires Inv(c, w) && Enabled(c, w, FileTraffic(me, t))
    ensures Inv(c, Take(c, w, FileTraffic(me, t))) && Grows(w, Take(c, w, FileTraffic(me, t)))
  {
    hide Inv, NodesOk, OpsOk, RecordsOk, Grows, Sound, Fills, ClientOk, ServerOk, CallOk, AnswerOk, MintedOk;
    DeviceKeys(c, w);
    FillsKept(c, w, me, t);
    Assemble(c, w, With(w, me, t), Take(c, w, FileTraffic(me, t)));
  }

  // ---------- All steps, all runs ----------

  lemma StepKeepsInv(c: Config, w: World, step: Step)
    requires Inv(c, w) && Enabled(c, w, step)
    ensures Inv(c, Take(c, w, step)) && Grows(w, Take(c, w, step))
  {
    hide Inv, Grows, Enabled, Take;
    match step {
      case Learn(k, me, peer, endpoint) => LearnStep(c, w, k, me, peer, endpoint);
      case LearnWrite(k, now) => LearnWriteStep(c, w, k, now);
      case AskPair(k, me, to, pairingNonce) => AskPairStep(c, w, k, me, to, pairingNonce);
      case ServePair(k, call) => ServePairStep(c, w, k, call);
      case ServePairWrite(k, now) => ServePairWriteStep(c, w, k, now);
      case ServePairAnswer(k) => ServePairAnswerStep(c, w, k);
      case FinishPair(k, a, now) => FinishPairStep(c, w, k, a, now);
      case WriteText(k, me, to, text, id, time, nonce) => WriteTextStep(c, w, k, me, to, text, id, time, nonce);
      case SaveFile(k, me, to, m) => SaveFileStep(c, w, k, me, to, m);
      case WriteFile(k, id, time, nonce) => WriteFileStep(c, w, k, id, time, nonce);
      case FinishPush(k, a) => FinishPushStep(c, w, k, a);
      case ReadKnown(k, me, to) => ReadKnownStep(c, w, k, me, to);
      case SendSync(k) => SendSyncStep(c, w, k);
      case Serve(k, call) => ServeStep(c, w, k, call);
      case ServeNext(k) => ServeNextStep(c, w, k);
      case ServeAnswer(k) => ServeAnswerStep(c, w, k);
      case BeginMerge(k, a) => BeginMergeStep(c, w, k, a);
      case MergeNext(k) => MergeNextStep(c, w, k);
      case FinishMerge(k) => FinishMergeStep(c, w, k);
      case DropClient(k) => DropClientStep(c, w, k);
      case DropServer(k) => DropServerStep(c, w, k);
      case FileTraffic(me, t) => FileTrafficStep(c, w, me, t);
    }
  }

  lemma InitOk(c: Config, w: World)
    requires ConfigOk(c) && Init(c, w)
    ensures Inv(c, w)
  {
  }

  lemma NextKeepsInv(c: Config, w: World, w': World)
    requires Inv(c, w) && Next(c, w, w')
    ensures Inv(c, w') && Grows(w, w') && w'.clock == w.clock + 1
  {
    hide Inv, Grows, Enabled, Effect;
    var step :| Enabled(c, w, step) && w' == Take(c, w, step);
    StepKeepsInv(c, w, step);
  }

  lemma {:induction false} RunKeepsInv(c: Config, run: seq<World>)
    requires IsRun(c, run)
    ensures Inv(c, Last(run)) && Last(run).clock == |run| - 1
  {
    hide Inv, Next, Grows;
    if |run| == 1 {
      InitOk(c, run[0]);
    } else {
      var before := run[..|run| - 1];
      RunKeepsInv(c, before);
      NextKeepsInv(c, Last(before), Last(run));
    }
  }

  /** Nothing in a store, and no message, is ever lost along a run. */
  lemma {:induction false} RunGrows(c: Config, run: seq<World>, i: nat)
    requires IsRun(c, run) && i < |run|
    ensures Grows(run[i], Last(run))
  {
    hide Inv, Next, Grows;
    if i == |run| - 1 {
      GrowsReflexive(run[i]);
    } else {
      var before := run[..|run| - 1];
      RunGrows(c, before, i);
      RunKeepsInv(c, before);
      NextKeepsInv(c, Last(before), Last(run));
      GrowsTransitive(run[i], Last(before), Last(run));
    }
  }
}
