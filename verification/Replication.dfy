/** The invariant of the network. Stores, messages and records only grow, and everything the
    invariant says of one of them stays true while the rest grows, so each step has to establish
    it only for what the step adds. */
module Replication {
  import opened Wrappers
  import opened Model
  import opened Crypto
  import opened ChunkRows
  import opened EventLog
  import opened Tables
  import opened Protocol
  import opened Nodes
  import opened Network

  // ---------- Growth ----------

  ghost predicate TablesGrow(t: Tables, t': Tables) {
    && EventsKept(t, t')
    && PeersGrow(t.peers, t'.peers)
    && ChunksRise(t, t')
    && t.blobs.Keys <= t'.blobs.Keys
    && forall m: FileManifest :: Holds(t, m) ==> Holds(t', m)
  }

  ghost predicate Grows(w: World, w': World) {
    && w'.nodes.Keys == w.nodes.Keys
    && (forall n :: n in w.nodes ==> TablesGrow(w.nodes[n], w'.nodes[n]))
    && w.calls <= w'.calls && w.answers <= w'.answers && w.handled <= w'.handled
    && (forall id :: id in w.minted ==> id in w'.minted && w'.minted[id] == w.minted[id])
    && (forall id :: id in w.catalog ==> id in w'.catalog && w'.catalog[id] == w.catalog[id])
  }

  lemma TablesGrowTransitive(a: Tables, b: Tables, c: Tables)
    requires TablesGrow(a, b) && TablesGrow(b, c)
    ensures TablesGrow(a, c)
  {
    hide ChunksRise, Holds;
    ChunksRiseTransitive(a, b, c);
  }

  lemma TablesGrowReflexive(t: Tables)
    ensures TablesGrow(t, t)
  {
    hide Holds;
    SameRowsRise(t, t);
  }

  lemma SameRowsRise(t: Tables, t1: Tables)
    requires t1.manifests == t.manifests && t1.chunks == t.chunks
    ensures ChunksRise(t, t1)
  {
    forall id | id in t.manifests
      ensures Raised(RowsOf(t, id), RowsOf(t1, id))
    {
      RaisedReflexive(RowsOf(t, id));
    }
  }

  // ---------- The parts of the invariant ----------

  ghost predicate Holding(w: World, n: DeviceId, peer: DeviceId) {
    n in w.nodes && IsPaired(w.nodes[n], peer)
  }

  ghost predicate Stored(w: World, n: DeviceId, e: EventEnvelope) {
    n in w.nodes && e.id in w.nodes[n].events && w.nodes[n].events[e.id] == e
  }

  ghost predicate Catalogued(w: World, m: FileManifest) {
    m.id in w.catalog && w.catalog[m.id] == m && Increasing(m.chunks)
  }

  /** The event was created by `src` for `dst`. */
  ghost predicate FromTo(w: World, e: EventEnvelope, src: DeviceId, dst: DeviceId) {
    e.id in w.minted && w.minted[e.id].event == e && e.author == src && w.minted[e.id].to == dst
  }

  ghost predicate MintedOk(c: Config, w: World, id: string)
    requires id in w.minted
  {
    var r := w.minted[id];
    var e := r.event;
    && e.id == id && e.author in c.ids && r.to in c.ids && e.author != r.to
    && e == NewEvent(c, e.author, r.to, e.kind, r.payload, id, e.time, e.nonce)
    && Stored(w, e.author, e)
    && (e.kind.ManifestKind? <==> r.payload.ManifestPayload?)
    && (r.payload.ManifestPayload? ==> Catalogued(w, r.payload.manifest))
  }

  /** An event in the log of `n` was created by or for `n`, and `n` holds the other end as paired. */
  ghost predicate LogOk(w: World, n: DeviceId, id: string)
    requires n in w.nodes && id in w.nodes[n].events
  {
    var e := w.nodes[n].events[id];
    && id in w.minted && w.minted[id].event == e
    && ((n == e.author && Holding(w, n, w.minted[id].to)) || (n == w.minted[id].to && Holding(w, n, e.author)))
  }

  /** The peers of `n` are the other devices, with their own keys. */
  ghost predicate PeersOk(c: Config, n: DeviceId, t: Tables) {
    forall d :: d in t.peers ==> d in c.ids && d != n && t.peers[d].identity == c.ids[d].public
  }

  /** Every manifest is one of the record, with exactly its own chunk rows. */
  ghost predicate ManifestsOk(w: World, t: Tables) {
    forall id :: id in t.manifests ==> Catalogued(w, t.manifests[id].manifest) && Holds(t, t.manifests[id].manifest)
  }

  ghost predicate NodeOk(c: Config, w: World, n: DeviceId)
    requires n in w.nodes
  {
    Sound(c.prim, w.nodes[n]) && PeersOk(c, n, w.nodes[n]) && ManifestsOk(w, w.nodes[n])
  }

  ghost predicate CallOk(c: Config, w: World, call: Call) {
    && call.src in c.ids && call.dst in c.ids && call.src != call.dst
    && match call.body
       case PairRequest(_) => true
       case PushEvent(e) => FromTo(w, e, call.src, call.dst)
       case SyncExchange(stream, known, es) =>
         && Holding(w, call.src, call.dst)
         && stream == DirectStreamId(call.src, call.dst)
         && (forall e :: e in es ==> FromTo(w, e, call.src, call.dst))
         && known <= w.nodes[call.src].events.Keys
       case _ => false
  }

  ghost predicate AnswerOk(w: World, a: Answer) {
    && a.call in w.calls
    && match a.call.body
       case PairRequest(_) => a.body == PairResponse(true) && Holding(w, a.call.dst, a.call.src) && a.call in w.handled
       case PushEvent(e) => a.body == Ack(e.id) && Stored(w, a.call.dst, e)
       case SyncExchange(_, _, es) =>
         && a.body.SyncResult?
         && (forall e :: e in es ==> Stored(w, a.call.dst, e))
         && (forall e :: e in a.body.events ==> FromTo(w, e, a.call.dst, a.call.src))
       case _ => false
  }

  ghost predicate SavingOk(w: World, saving: Option<FileManifest>) {
    saving.Some? ==> Catalogued(w, saving.value)
  }

  /** Position of a receiving loop at `n`: what has left the list is stored. */
  ghost predicate LoopOk(w: World, n: DeviceId, all: seq<EventEnvelope>, rest: seq<EventEnvelope>) {
    && (forall e :: e in rest ==> e in all)
    && (forall e :: e in all ==> e in rest || Stored(w, n, e))
  }

  ghost predicate ClientOk(c: Config, w: World, client: Client) {
    match client
    case Learning(me, peer, _, paired) =>
      && peer.deviceId in c.ids && peer == c.ids[peer.deviceId].public && peer.deviceId != me
      && (paired ==> Holding(w, me, peer.deviceId))
    case FileSaved(me, to, m) =>
      && me in c.ids && to in c.ids && me != to && Holding(w, me, to) && Catalogued(w, m) && Holds(w.nodes[me], m)
    case KnownRead(me, to, known, _) =>
      && me in c.ids && to in c.ids && me != to && Holding(w, me, to) && known <= w.nodes[me].events.Keys
    case Waiting(call, _) => call in w.calls
    case Merging(a, rest, saving) =>
      && a in w.answers && a.call.body.SyncExchange? && a.body.SyncResult? && Holding(w, a.call.src, a.call.dst)
      && SavingOk(w, saving) && LoopOk(w, a.call.src, a.body.events, rest)
    case Done(a) =>
      && a in w.answers
      && (a.call.body.PairRequest? ==> Holding(w, a.call.src, a.call.dst))
      && (a.call.body.SyncExchange? ==> forall e :: e in EventsIn(a.body) ==> Stored(w, a.call.src, e))
  }

  ghost predicate ServerOk(c: Config, w: World, server: Server) {
    match server
    case PairRead(call, _) => call in w.calls && call.body.PairRequest?
    case PairWritten(call) =>
      call in w.calls && call.body.PairRequest? && Holding(w, call.dst, call.src) && call in w.handled
    case Receiving(call, rest, saving) =>
      && call in w.calls && (call.body.PushEvent? || call.body.SyncExchange?)
      && Holding(w, call.dst, call.src)
      && SavingOk(w, saving) && LoopOk(w, call.dst, EventsIn(call.body), rest)
  }

  /** Why a device is held as paired: it holds the other one too, or it has asked to be paired. */
  ghost predicate PairedForAReason(w: World, n: DeviceId, peer: DeviceId) {
    Holding(w, n, peer) ==> Holding(w, peer, n) || Asked(w, peer, n)
  }

  ghost predicate Asked(w: World, src: DeviceId, dst: DeviceId) {
    exists call :: call in w.handled && call.src == src && call.dst == dst && call.body.PairRequest?
  }

  ghost predicate RecordsOk(c: Config, w: World) {
    && w.nodes.Keys == c.ids.Keys
    && (forall id :: id in w.minted ==> MintedOk(c, w, id))
    && (forall call :: call in w.calls ==> CallOk(c, w, call))
    && (forall a :: a in w.answers ==> AnswerOk(w, a))
  }

  ghost predicate NodesOk(c: Config, w: World) {
    && (forall n :: n in w.nodes ==> NodeOk(c, w, n))
    && (forall n, id :: n in w.nodes && id in w.nodes[n].events ==> LogOk(w, n, id))
    && (forall n, d :: n in c.ids && d in c.ids ==> PairedForAReason(w, n, d))
  }

  ghost predicate OpsOk(c: Config, w: World) {
    && (forall k :: k in w.clients ==> ClientOk(c, w, w.clients[k]))
    && (forall k :: k in w.servers ==> ServerOk(c, w, w.servers[k]))
  }

  ghost predicate Inv(c: Config, w: World) {
    ConfigOk(c) && RecordsOk(c, w) && NodesOk(c, w) && OpsOk(c, w)
  }

  // ---------- Each part survives growth ----------

  lemma MintedGrows(c: Config, w: World, w': World, id: string)
    requires Grows(w, w') && id in w.minted && MintedOk(c, w, id)
    ensures id in w'.minted && MintedOk(c, w', id)
  {
    assert TablesGrow(w.nodes[w.minted[id].event.author], w'.nodes[w.minted[id].event.author]);
  }

  lemma HoldingGrows(w: World, w': World, n: DeviceId, peer: DeviceId)
    requires Grows(w, w') && Holding(w, n, peer)
    ensures Holding(w', n, peer)
  {
    assert TablesGrow(w.nodes[n], w'.nodes[n]);
  }

  lemma StoredGrows(w: World, w': World, n: DeviceId, e: EventEnvelope)
    requires Grows(w, w') && Stored(w, n, e)
    ensures Stored(w', n, e)
  {
    assert TablesGrow(w.nodes[n], w'.nodes[n]);
  }

  lemma CallGrows(c: Config, w: World, w': World, call: Call)
    requires Grows(w, w') && CallOk(c, w, call)
    ensures CallOk(c, w', call)
  {
    if call.body.SyncExchange? {
      HoldingGrows(w, w', call.src, call.dst);
      assert TablesGrow(w.nodes[call.src], w'.nodes[call.src]);
    }
  }

  lemma AnswerGrows(w: World, w': World, a: Answer)
    requires Grows(w, w') && AnswerOk(w, a)
    ensures AnswerOk(w', a)
  {
    forall e | Stored(w, a.call.dst, e)
      ensures Stored(w', a.call.dst, e)
    {
      StoredGrows(w, w', a.call.dst, e);
    }
    if Holding(w, a.call.dst, a.call.src) {
      HoldingGrows(w, w', a.call.dst, a.call.src);
    }
  }

  lemma LoopGrows(w: World, w': World, n: DeviceId, all: seq<EventEnvelope>, rest: seq<EventEnvelope>)
    requires Grows(w, w') && LoopOk(w, n, all, rest)
    ensures LoopOk(w', n, all, rest)
  {
    forall e | Stored(w, n, e)
      ensures Stored(w', n, e)
    {
      StoredGrows(w, w', n, e);
    }
  }

  lemma ClientGrows(c: Config, w: World, w': World, client: Client)
    requires Grows(w, w') && ClientOk(c, w, client)
    ensures ClientOk(c, w', client)
  {
    match client {
      case Learning(me, peer, _, paired) =>
        if paired { HoldingGrows(w, w', me, peer.deviceId); }
      case FileSaved(me, to, m) =>
        HoldingGrows(w, w', me, to);
        assert TablesGrow(w.nodes[me], w'.nodes[me]);
      case KnownRead(me, to, known, _) =>
        HoldingGrows(w, w', me, to);
        assert TablesGrow(w.nodes[me], w'.nodes[me]);
      case Waiting(_, _) =>
      case Merging(a, rest, _) =>
        HoldingGrows(w, w', a.call.src, a.call.dst);
        LoopGrows(w, w', a.call.src, a.body.events, rest);
      case Done(a) =>
        if a.call.body.PairRequest? { HoldingGrows(w, w', a.call.src, a.call.dst); }
        forall e | Stored(w, a.call.src, e)
          ensures Stored(w', a.call.src, e)
        {
          StoredGrows(w, w', a.call.src, e);
        }
    }
  }

  lemma ServerGrows(c: Config, w: World, w': World, server: Server)
    requires Grows(w, w') && ServerOk(c, w, server)
    ensures ServerOk(c, w', server)
  {
    match server {
      case PairRead(_, _) =>
      case PairWritten(call) => HoldingGrows(w, w', call.dst, call.src);
      case Receiving(call, rest, _) =>
        HoldingGrows(w, w', call.dst, call.src);
        LoopGrows(w, w', call.dst, EventsIn(call.body), rest);
    }
  }

  lemma LogGrows(w: World, w': World, n: DeviceId, id: string)
    requires Grows(w, w') && n in w.nodes && id in w.nodes[n].events && LogOk(w, n, id)
    ensures id in w'.nodes[n].events && LogOk(w', n, id)
  {
    assert TablesGrow(w.nodes[n], w'.nodes[n]);
    var r := w.minted[id];
    if n == r.event.author && Holding(w, n, r.to) {
      HoldingGrows(w, w', n, r.to);
    } else {
      HoldingGrows(w, w', n, r.event.author);
    }
  }

  lemma NodeGrows(c: Config, w: World, w': World, n: DeviceId)
    requires Grows(w, w') && n in w.nodes && NodeOk(c, w, n) && w'.nodes[n] == w.nodes[n]
    ensures NodeOk(c, w', n)
  {
    hide Sound, Holds;
  }

  // ---------- A step adds little ----------

  /** A world that grows from a good one is good if everything new in it is. */
  lemma RecordsKept(c: Config, w: World, w': World)
    requires RecordsOk(c, w) && Grows(w, w')
    requires forall id :: id in w'.minted && id !in w.minted ==> MintedOk(c, w', id)
    requires forall call :: call in w'.calls - w.calls ==> CallOk(c, w', call)
    requires forall a :: a in w'.answers - w.answers ==> AnswerOk(w', a)
    ensures RecordsOk(c, w')
  {
    forall id | id in w'.minted
      ensures MintedOk(c, w', id)
    {
      if id in w.minted { MintedGrows(c, w, w', id); }
    }
    forall call | call in w'.calls
      ensures CallOk(c, w', call)
    {
      if call in w.calls { CallGrows(c, w, w', call); }
    }
    forall a | a in w'.answers
      ensures AnswerOk(w', a)
    {
      if a in w.answers { AnswerGrows(w, w', a); }
    }
  }

  lemma OpsKept(c: Config, w: World, w': World)
    requires OpsOk(c, w) && Grows(w, w')
    requires forall k :: k in w'.clients && (k !in w.clients || w'.clients[k] != w.clients[k]) ==>
      ClientOk(c, w', w'.clients[k])
    requires forall k :: k in w'.servers && (k !in w.servers || w'.servers[k] != w.servers[k]) ==>
      ServerOk(c, w', w'.servers[k])
    ensures OpsOk(c, w')
  {
    forall k | k in w'.clients
      ensures ClientOk(c, w', w'.clients[k])
    {
      if k in w.clients && w'.clients[k] == w.clients[k] { ClientGrows(c, w, w', w.clients[k]); }
    }
    forall k | k in w'.servers
      ensures ServerOk(c, w', w'.servers[k])
    {
      if k in w.servers && w'.servers[k] == w.servers[k] { ServerGrows(c, w, w', w.servers[k]); }
    }
  }

  lemma NodesKept(c: Config, w: World, w': World, n: DeviceId)
    requires NodesOk(c, w) && Grows(w, w') && n in w.nodes
    requires forall x :: x in w.nodes && x != n ==> w'.nodes[x] == w.nodes[x]
    requires NodeOk(c, w', n)
    requires forall id :: id in w'.nodes[n].events && id !in w.nodes[n].events ==> LogOk(w', n, id)
    requires forall d :: d in c.ids && !Holding(w, n, d) ==> PairedForAReason(w', n, d)
    ensures NodesOk(c, w')
  {
    forall x | x in w'.nodes
      ensures NodeOk(c, w', x)
    {
      if x != n { NodeGrows(c, w, w', x); }
    }
    forall x, id | x in w'.nodes && id in w'.nodes[x].events
      ensures LogOk(w', x, id)
    {
      if id in w.nodes[x].events { LogGrows(w, w', x, id); }
    }
    forall x, d | x in c.ids && d in c.ids
      ensures PairedForAReason(w', x, d)
    {
      if Holding(w, x, d) {
        assert PairedForAReason(w, x, d);
        ReasonGrows(w, w', x, d);
      }
    }
  }

  lemma ReasonGrows(w: World, w': World, n: DeviceId, peer: DeviceId)
    requires Grows(w, w') && Holding(w, n, peer) && PairedForAReason(w, n, peer)
    ensures PairedForAReason(w', n, peer)
  {
    if Holding(w, peer, n) {
      HoldingGrows(w, w', peer, n);
    } else {
      var call :| call in w.handled && call.src == peer && call.dst == n && call.body.PairRequest?;
      assert call in w'.handled;
    }
  }

  /** Steps that leave every store as it is. */
  lemma StoresUnchanged(c: Config, w: World, w': World)
    requires NodesOk(c, w) && w'.nodes == w.nodes && w.calls <= w'.calls && w.answers <= w'.answers
    requires w'.minted == w.minted && w'.catalog == w.catalog && w'.handled == w.handled
    ensures Grows(w, w') && NodesOk(c, w')
  {
    hide Sound, Holds;
    forall x | x in w.nodes
      ensures TablesGrow(w.nodes[x], w'.nodes[x])
    {
      TablesGrowReflexive(w.nodes[x]);
    }
    hide TablesGrow;
    forall x | x in w.nodes
      ensures NodeOk(c, w', x)
    {
      NodeGrows(c, w, w', x);
    }
    forall x, id | x in w'.nodes && id in w'.nodes[x].events
      ensures LogOk(w', x, id)
    {
      LogGrows(w, w', x, id);
    }
    forall x, d | x in c.ids && d in c.ids
      ensures PairedForAReason(w', x, d)
    {
      if Holding(w, x, d) {
        assert PairedForAReason(w, x, d);
        ReasonGrows(w, w', x, d);
      }
    }
  }
}
