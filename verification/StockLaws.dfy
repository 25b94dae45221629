/** In every run the devices can serve the files they have announced, so that between any two devices that
    hold each other as paired a sync depends on nothing but the link and its frames, files included. */
module StockLaws {
  import opened Wrappers
  import opened Model
  import opened Crypto
  import opened ChunkRows
  import opened EventLog
  import opened Tables
  import opened Protocol
  import opened ChunkTraffic
  import F = Frames
  import opened Nodes
  import SyncLaws
  import opened Delivery
  import opened Network
  import opened Replication
  import opened ReplicationSteps
  import opened Convergence
  import opened RunLaws
  import ManifestLaws

  // ---------- The invariant ----------

  /** `src` has created an event for `dst` that carries `m`. */
  ghost predicate AnnouncedBy(w: World, id: string, src: DeviceId, dst: DeviceId, m: FileManifest) {
    && id in w.minted && w.minted[id].event.author == src && w.minted[id].to == dst
    && w.minted[id].payload == ManifestPayload(m)
  }

  ghost predicate Announced(w: World, src: DeviceId, dst: DeviceId, m: FileManifest) {
    exists id :: AnnouncedBy(w, id, src, dst, m)
  }

  /** `n` holds the manifest and all its chunks. */
  ghost predicate Has(w: World, n: DeviceId, m: FileManifest) {
    && n in w.nodes && m.id in w.nodes[n].manifests && w.nodes[n].manifests[m.id].manifest == m
    && HashesOf(m.chunks) <= w.nodes[n].blobs.Keys
  }

  ghost predicate AuthorsHave(w: World) {
    forall id :: id in w.minted && w.minted[id].payload.ManifestPayload? ==>
      Has(w, w.minted[id].event.author, w.minted[id].payload.manifest)
  }

  /** What is kept in the state of a client operation: a file about to be announced, or one just received. */
  ghost predicate ClientStocked(w: World, client: Client) {
    && (client.FileSaved? ==> Has(w, client.me, client.manifest))
    && (client.Merging? && client.saving.Some? ==>
        Announced(w, client.answer.call.dst, client.answer.call.src, client.saving.value))
  }

  ghost predicate ServerStocked(w: World, server: Server) {
    server.Receiving? && server.saving.Some? ==> Announced(w, server.call.src, server.call.dst, server.saving.value)
  }

  /** What is missing of a file was announced by the peer it is stored for. */
  ghost predicate RowStocked(w: World, n: DeviceId, id: string)
    requires n in w.nodes && id in w.nodes[n].manifests
  {
    MissingChunks(w.nodes[n], id) != [] ==>
      Announced(w, w.nodes[n].manifests[id].peer, n, w.nodes[n].manifests[id].manifest)
  }

  ghost predicate AllStocked(w: World) {
    && AuthorsHave(w)
    && (forall k :: k in w.clients ==> ClientStocked(w, w.clients[k]))
    && (forall k :: k in w.servers ==> ServerStocked(w, w.servers[k]))
    && (forall n, id :: n in w.nodes && id in w.nodes[n].manifests ==> RowStocked(w, n, id))
  }

  // ---------- Each part survives growth ----------

  lemma HasGrows(w: World, w': World, n: DeviceId, m: FileManifest)
    requires Grows(w, w') && Has(w, n, m)
    ensures Has(w', n, m)
  {
    hide PeersGrow, Holds, Raised;
    assert TablesGrow(w.nodes[n], w'.nodes[n]);
  }

  lemma AnnouncedGrows(w: World, w': World, src: DeviceId, dst: DeviceId, m: FileManifest)
    requires Grows(w, w') && Announced(w, src, dst, m)
    ensures Announced(w', src, dst, m)
  {
    hide TablesGrow;
    var id :| AnnouncedBy(w, id, src, dst, m);
    assert AnnouncedBy(w', id, src, dst, m);
  }

  lemma ClientStockedGrows(w: World, w': World, client: Client)
    requires Grows(w, w') && ClientStocked(w, client)
    ensures ClientStocked(w', client)
  {
    hide Grows, Has, Announced;
    if client.FileSaved? { HasGrows(w, w', client.me, client.manifest); }
    if client.Merging? && client.saving.Some? {
      AnnouncedGrows(w, w', client.answer.call.dst, client.answer.call.src, client.saving.value);
    }
  }

  lemma RowStockedGrows(w: World, w': World, n: DeviceId, id: string)
    requires Grows(w, w') && n in w.nodes && id in w.nodes[n].manifests && RowStocked(w, n, id)
    ensures n in w'.nodes && id in w'.nodes[n].manifests && RowStocked(w', n, id)
  {
    hide PeersGrow, Holds, Announced;
    assert TablesGrow(w.nodes[n], w'.nodes[n]);
    MissingFalls(RowsOf(w.nodes[n], id), RowsOf(w'.nodes[n], id));
    hide Grows, TablesGrow;
    if MissingChunks(w.nodes[n], id) != [] {
      AnnouncedGrows(w, w', w.nodes[n].manifests[id].peer, n, w.nodes[n].manifests[id].manifest);
    }
  }

  // ---------- What a step adds ----------

  /** Manifests enter the state of a client operation only when a file is saved or received. */
  lemma OtherClients(c: Config, w: World, step: Step, k: nat)
    requires Enabled(c, w, step) && k in Take(c, w, step).clients && !(step.SaveFile? && step.k == k)
    requires var client := Take(c, w, step).clients[k]; client.FileSaved? || (client.Merging? && client.saving.Some?)
    ensures k in w.clients
    ensures
      || w.clients[k] == Take(c, w, step).clients[k]
      || (step == MergeNext(k) && Take(c, w, step).clients[k].Merging?)
  {
    hide ReceiveNext, SaveManifest, OwnEvents, KeyedById, CanTalk, CanReach, UpsertPeer, Sound, Fills, ReplyTo;
    hide Trusts, IsPaired, LookupPeer, StreamIds, EventsIn, F.FitsFrame, Post, Publish, AwaitsAnswer;
    if Posts(step) {
      hide Enabled, Effect;
      PostingFrame(c, w, step);
    }
  }

  lemma OtherServers(c: Config, w: World, step: Step, k: nat)
    requires Enabled(c, w, step) && k in Take(c, w, step).servers
    requires var server := Take(c, w, step).servers[k]; server.Receiving? && server.saving.Some?
    ensures k in w.servers && (w.servers[k] == Take(c, w, step).servers[k] || step == ServeNext(k))
  {
    hide ReceiveNext, SaveManifest, OwnEvents, KeyedById, CanTalk, CanReach, UpsertPeer, Sound, Fills, ReplyTo;
    hide Trusts, IsPaired, LookupPeer, StreamIds, EventsIn, F.FitsFrame, Post, Publish, AwaitsAnswer;
    if Posts(step) {
      hide Enabled, Effect;
      PostingFrame(c, w, step);
    }
  }

  /** The turn of a receiving loop after which a manifest is to be saved has read it in an event of the peer. */
  lemma SavingIsAnnounced(
    c: Config, w: World, n: DeviceId, peer: DeviceId, rest: seq<EventEnvelope>, saving: Option<FileManifest>)
    requires Inv(c, w) && n in w.nodes && n in c.ids && peer in c.ids
    requires rest != [] ==> FromTo(w, rest[0], peer, n)
    ensures var r := ReceiveNext(c.prim, c.ids[n], w.nodes[n], c.ids[peer].public, rest, saving);
            r.ok && r.saving.Some? ==> Announced(w, peer, n, r.saving.value)
  {
    hide RecordsOk, NodesOk, OpsOk, OpenItem, SaveManifest;
    if saving.None? && rest != [] {
      MintedFact(c, w, rest[0].id);
      MintedOpens(c, w, n, peer, rest[0]);
      var p := w.minted[rest[0].id].payload;
      assert p.ManifestPayload? ==> AnnouncedBy(w, rest[0].id, peer, n, p.manifest);
    }
  }

  lemma SameAnnounced(w: World, w': World)
    requires w'.minted == w.minted
    ensures forall src, dst, m :: Announced(w, src, dst, m) ==> Announced(w', src, dst, m)
  {
    forall src, dst, m | Announced(w, src, dst, m)
      ensures Announced(w', src, dst, m)
    {
      var id :| AnnouncedBy(w, id, src, dst, m);
      assert AnnouncedBy(w', id, src, dst, m);
    }
  }

  lemma MergeStocked(c: Config, w: World, k: nat)
    requires Inv(c, w) && Enabled(c, w, MergeNext(k))
    ensures var w' := Take(c, w, MergeNext(k)); k in w'.clients ==> ClientStocked(w', w'.clients[k])
  {
    hide Inv, ReceiveNext, FromTo, LoopOk;
    var op := w.clients[k];
    var call := op.answer.call;
    ClientFact(c, w, k);
    MergesFrom(c, w, op.answer);
    if op.rest != [] { HeadOfLoop(w, call.src, op.answer.body.events, op.rest); }
    hide ClientOk, AnswerOk, CallOk;
    SavingIsAnnounced(c, w, call.src, call.dst, op.rest, op.saving);
    SameAnnounced(w, Take(c, w, MergeNext(k)));
    hide Announced;
  }

  lemma ServeStocked(c: Config, w: World, k: nat)
    requires Inv(c, w) && Enabled(c, w, ServeNext(k))
    ensures var w' := Take(c, w, ServeNext(k)); k in w'.servers ==> ServerStocked(w', w'.servers[k])
  {
    hide Inv, ReceiveNext, FromTo, LoopOk;
    var op := w.servers[k];
    ServerFact(c, w, k);
    ServesFrom(c, w, op.call);
    if op.rest != [] { HeadOfLoop(w, op.call.dst, EventsIn(op.call.body), op.rest); }
    hide ServerOk, CallOk;
    SavingIsAnnounced(c, w, op.call.dst, op.call.src, op.rest, op.saving);
    SameAnnounced(w, Take(c, w, ServeNext(k)));
    hide Announced;
  }

  lemma SavesFile(c: Config, w: World, k: nat, me: DeviceId, to: DeviceId, m: FileManifest)
    requires Enabled(c, w, SaveFile(k, me, to, m))
    ensures me in w.nodes && CanTalk(w, me, to) && m.id !in w.catalog && HashesOf(m.chunks) <= w.nodes[me].blobs.Keys
    ensures var w' := Take(c, w, SaveFile(k, me, to, m));
      && w'.nodes == w.nodes[me := SaveManifest(w.nodes[me], to, m)]
      && k in w'.clients && w'.clients[k] == FileSaved(me, to, m)
  {
    hide SaveManifest, Reachable, IsPaired, Increasing;
  }

  lemma SavedHas(c: Config, w: World, k: nat, me: DeviceId, to: DeviceId, m: FileManifest)
    requires Inv(c, w) && Enabled(c, w, SaveFile(k, me, to, m))
    ensures var w' := Take(c, w, SaveFile(k, me, to, m));
      && Has(w', me, m) && k in w'.clients && w'.clients[k] == FileSaved(me, to, m)
      && me in w.nodes && m.id !in w.nodes[me].manifests
      && MissingChunks(w'.nodes[me], m.id) == [] && w'.nodes == w.nodes[me := w'.nodes[me]]
      && w'.nodes[me].manifests.Keys == w.nodes[me].manifests.Keys + {m.id}
  {
    hide Enabled, Take, Inv, NodesOk, Sound, CanTalk, ManifestsOk, PeersOk, MissingChunks;
    SavesFile(c, w, k, me, to, m);
    TalksToDevice(c, w, me, to);
    DeviceKeys(c, w);
    NodeHas(c, w, me);
    NotCatalogued(c, w, me, m);
    SavedManifests(w.nodes[me], to, m);
    AllPresent(c.prim, w.nodes[me], to, m);
  }

  lemma NotCatalogued(c: Config, w: World, n: DeviceId, m: FileManifest)
    requires n in w.nodes && Sound(c.prim, w.nodes[n]) && ManifestsOk(w, w.nodes[n]) && m.id !in w.catalog
    ensures m.id !in w.nodes[n].manifests
  {
  }

  /** A manifest whose chunks are all stored is complete from the start. */
  lemma AllPresent(prim: Primitives, t: Tables, peer: DeviceId, m: FileManifest)
    requires Sound(prim, t) && m.id !in t.manifests && HashesOf(m.chunks) <= t.blobs.Keys
    ensures MissingChunks(SaveManifest(t, peer, m), m.id) == []
    ensures m.id in SaveManifest(t, peer, m).manifests && SaveManifest(t, peer, m).manifests[m.id].manifest == m
  {
    SoundHasRows(prim, t);
    hide Sound;
    SaveManifestRows(t, peer, m);
    NoRows(t.blobs);
    InsertRowsKeepOrder([], m.chunks, t.blobs.Keys);
    var rows := InsertRows([], m.chunks, t.blobs.Keys);
    forall r | r in rows
      ensures r.present
    {
      var d :| d in m.chunks && d.hash == r.hash && d.index == r.index;
      assert d.hash in HashesOf(m.chunks);
    }
    NothingMissing(rows);
  }

  // ---------- All steps, all runs ----------

  lemma NewClientStocked(c: Config, w: World, step: Step, k: nat)
    requires Inv(c, w) && Enabled(c, w, step) && AllStocked(w) && Grows(w, Take(c, w, step))
    requires k in Take(c, w, step).clients
    ensures ClientStocked(Take(c, w, step), Take(c, w, step).clients[k])
  {
    hide Inv, Enabled, Take, Grows, Has, Announced;
    var w' := Take(c, w, step);
    var client := w'.clients[k];
    if client.FileSaved? || (client.Merging? && client.saving.Some?) {
      if step.SaveFile? && step.k == k {
        SavedHas(c, w, k, step.me, step.to, step.manifest);
      } else {
        OtherClients(c, w, step, k);
        if w.clients[k] == client {
          ClientStockedGrows(w, w', client);
        } else {
          MergeStocked(c, w, k);
        }
      }
    }
  }

  lemma NewServerStocked(c: Config, w: World, step: Step, k: nat)
    requires Inv(c, w) && Enabled(c, w, step) && AllStocked(w) && Grows(w, Take(c, w, step))
    requires k in Take(c, w, step).servers
    ensures ServerStocked(Take(c, w, step), Take(c, w, step).servers[k])
  {
    hide Inv, Enabled, Take, Grows, Has, Announced;
    var w' := Take(c, w, step);
    var server := w'.servers[k];
    if server.Receiving? && server.saving.Some? {
      OtherServers(c, w, step, k);
      if w.servers[k] == server {
        AnnouncedGrows(w, w', server.call.src, server.call.dst, server.saving.value);
      } else {
        ServeStocked(c, w, k);
      }
    }
  }

  lemma OtherMinted(c: Config, w: World, step: Step, id: string)
    requires Enabled(c, w, step) && id in Take(c, w, step).minted && id !in w.minted
    requires Take(c, w, step).minted[id].payload.ManifestPayload?
    ensures step.WriteFile? && step.k in w.clients && w.clients[step.k].FileSaved?
    ensures Take(c, w, step).minted[id].payload == ManifestPayload(w.clients[step.k].manifest)
    ensures w.clients[step.k].me in c.ids
    ensures Take(c, w, step).minted[id].event.author == c.ids[w.clients[step.k].me].public.deviceId
  {
    hide Reachable, ReceiveNext, SaveManifest, OwnEvents, KeyedById, UpsertPeer, Sound, Fills, ReplyTo;
    hide Trusts, IsPaired, NewEvent, LookupPeer, StreamIds, EventsIn, F.FitsFrame, Post, Publish, AwaitsAnswer;
    if step.WriteFile? {
      hide Enabled, Effect;
      FileMinted(c, w, step, id);
    } else if step.WriteText? {
      PublishFrame(
        c, w, step.k, step.me, step.to, TextKind, TextPayload(step.text), step.id, step.time, step.nonce);
    } else if Posts(step) {
      hide Enabled, Effect;
      PostingFrame(c, w, step);
    }
  }

  lemma FileMinted(c: Config, w: World, step: Step, id: string)
    requires Enabled(c, w, step) && step.WriteFile? && id in Take(c, w, step).minted && id !in w.minted
    requires Take(c, w, step).minted[id].payload.ManifestPayload?
    ensures step.k in w.clients && w.clients[step.k].FileSaved?
    ensures Take(c, w, step).minted[id].payload == ManifestPayload(w.clients[step.k].manifest)
    ensures w.clients[step.k].me in c.ids
    ensures Take(c, w, step).minted[id].event.author == c.ids[w.clients[step.k].me].public.deviceId
  {
    hide NewEvent, Publish;
    var op := w.clients[step.k];
    PublishFrame(
      c, w, step.k, op.me, op.to, ManifestKind, ManifestPayload(op.manifest), step.id, step.time, step.nonce);
  }

  lemma NewAuthorHas(c: Config, w: World, step: Step, id: string)
    requires Inv(c, w) && Enabled(c, w, step) && AllStocked(w) && Grows(w, Take(c, w, step))
    requires id in Take(c, w, step).minted
    requires Take(c, w, step).minted[id].payload.ManifestPayload?
    ensures var r := Take(c, w, step).minted[id]; Has(Take(c, w, step), r.event.author, r.payload.manifest)
  {
    hide Inv, Enabled, Take, Grows, Has, ServerStocked, RowStocked;
    var w' := Take(c, w, step);
    if id in w.minted {
      ManifestLaws.MintedStays(w, w', id);
      HasGrows(w, w', w.minted[id].event.author, w.minted[id].payload.manifest);
    } else {
      OtherMinted(c, w, step, id);
      DeviceKeys(c, w);
      assert ClientStocked(w, w.clients[step.k]);
      HasGrows(w, w', w.clients[step.k].me, w.clients[step.k].manifest);
    }
  }

  lemma FillsManifests(t: Tables, t': Tables)
    requires Fills(t, t')
    ensures t'.manifests.Keys == t.manifests.Keys
  {
    hide Raised;
  }

  lemma OtherManifests(c: Config, w: World, step: Step, n: DeviceId)
    requires Enabled(c, w, step) && n in w.nodes && n in Take(c, w, step).nodes
    requires !step.SaveFile? && !step.MergeNext? && !step.ServeNext?
    ensures Take(c, w, step).nodes[n].manifests.Keys == w.nodes[n].manifests.Keys
  {
    hide ReceiveNext, SaveManifest, OwnEvents, KeyedById, CanTalk, CanReach, UpsertPeer, Sound, ReplyTo, Trusts;
    hide IsPaired, LookupPeer, StreamIds, EventsIn, F.FitsFrame, Post, Publish, AwaitsAnswer, Fills;
    if Posts(step) {
      hide Enabled, Effect;
      PostingFrame(c, w, step);
    } else if step.FileTraffic? {
      FillsManifests(w.nodes[step.me], step.t);
    }
  }

  lemma ReceivedManifest(
    prim: Primitives, me: Identity, t: Tables, peer: PublicIdentity, rest: seq<EventEnvelope>,
    saving: Option<FileManifest>, id: string)
    requires id in ReceiveNext(prim, me, t, peer, rest, saving).t.manifests && id !in t.manifests
    ensures saving.Some? && id == saving.value.id
    ensures var row := ReceiveNext(prim, me, t, peer, rest, saving).t.manifests[id];
            row.peer == peer.deviceId && row.manifest == saving.value
  {
    hide OpenItem;
    if saving.Some? { SavedManifests(t, peer.deviceId, saving.value); }
  }

  /** A turn of a receiving loop at `me`. */
  lemma LoopRowStocked(
    c: Config, w: World, w': World, me: DeviceId, src: DeviceId, rest: seq<EventEnvelope>, saving: Option<FileManifest>,
    n: DeviceId, id: string)
    requires me in c.ids && src in c.ids && me in w.nodes && c.ids[src].public.deviceId == src
    requires w'.nodes == w.nodes[me := ReceiveNext(c.prim, c.ids[me], w.nodes[me], c.ids[src].public, rest, saving).t]
    requires w'.minted == w.minted && (saving.Some? ==> Announced(w, src, me, saving.value))
    requires n in w.nodes && id in w'.nodes[n].manifests && id !in w.nodes[n].manifests
    ensures RowStocked(w', n, id)
  {
    hide ReceiveNext, Announced;
    SameAnnounced(w, w');
    ReceivedManifest(c.prim, c.ids[me], w.nodes[me], c.ids[src].public, rest, saving, id);
  }

  lemma MergedRowStocked(c: Config, w: World, k: nat, n: DeviceId, id: string)
    requires Inv(c, w) && AllStocked(w) && Enabled(c, w, MergeNext(k)) && n in w.nodes
    requires n in Take(c, w, MergeNext(k)).nodes
    requires id in Take(c, w, MergeNext(k)).nodes[n].manifests && id !in w.nodes[n].manifests
    ensures RowStocked(Take(c, w, MergeNext(k)), n, id)
  {
    hide Inv, ReceiveNext, AuthorsHave, ServerStocked, RowStocked, LoopOk, Announced, AnswerOk;
    var op := w.clients[k];
    var call := op.answer.call;
    ClientFact(c, w, k);
    MergesFrom(c, w, op.answer);
    DeviceKeys(c, w);
    assert ClientStocked(w, op);
    LoopRowStocked(c, w, Take(c, w, MergeNext(k)), call.src, call.dst, op.rest, op.saving, n, id);
  }

  lemma ServedRowStocked(c: Config, w: World, k: nat, n: DeviceId, id: string)
    requires Inv(c, w) && AllStocked(w) && Enabled(c, w, ServeNext(k)) && n in w.nodes
    requires n in Take(c, w, ServeNext(k)).nodes
    requires id in Take(c, w, ServeNext(k)).nodes[n].manifests && id !in w.nodes[n].manifests
    ensures RowStocked(Take(c, w, ServeNext(k)), n, id)
  {
    hide Inv, ReceiveNext, AuthorsHave, ClientStocked, RowStocked, LoopOk, Announced, ServerOk;
    hide CallOk, UpsertPeer, Sound, Fills, CanTalk;
    var op := w.servers[k];
    ServerFact(c, w, k);
    CallEnds(c, w, op.call);
    DeviceKeys(c, w);
    assert ServerStocked(w, op);
    LoopRowStocked(c, w, Take(c, w, ServeNext(k)), op.call.dst, op.call.src, op.rest, op.saving, n, id);
  }

  lemma NewRowStocked(c: Config, w: World, step: Step, n: DeviceId, id: string)
    requires Inv(c, w) && Enabled(c, w, step) && AllStocked(w) && Grows(w, Take(c, w, step))
    requires n in w.nodes && n in Take(c, w, step).nodes && id in Take(c, w, step).nodes[n].manifests
    ensures RowStocked(Take(c, w, step), n, id)
  {
    hide Inv, Enabled, Take, Grows, AuthorsHave, ClientStocked, ServerStocked, Announced;
    var w' := Take(c, w, step);
    if id in w.nodes[n].manifests {
      assert RowStocked(w, n, id);
      RowStockedGrows(w, w', n, id);
    } else {
      match step {
        case MergeNext(k) => MergedRowStocked(c, w, k, n, id);
        case ServeNext(k) => ServedRowStocked(c, w, k, n, id);
        case SaveFile(k, me, to, m) => SavedHas(c, w, k, me, to, m);
        case _ => OtherManifests(c, w, step, n);
      }
    }
  }

  lemma StepKeepsStock(c: Config, w: World, step: Step)
    requires Inv(c, w) && AllStocked(w) && Enabled(c, w, step)
    ensures AllStocked(Take(c, w, step))
  {
    hide Inv, Enabled, Take, Grows, Has, ClientStocked, ServerStocked, RowStocked;
    var w' := Take(c, w, step);
    StepKeepsInv(c, w, step);
    forall id | id in w'.minted && w'.minted[id].payload.ManifestPayload?
      ensures Has(w', w'.minted[id].event.author, w'.minted[id].payload.manifest)
    {
      NewAuthorHas(c, w, step, id);
    }
    forall k | k in w'.clients
      ensures ClientStocked(w', w'.clients[k])
    {
      NewClientStocked(c, w, step, k);
    }
    forall k | k in w'.servers
      ensures ServerStocked(w', w'.servers[k])
    {
      NewServerStocked(c, w, step, k);
    }
    forall n, id | n in w'.nodes && id in w'.nodes[n].manifests
      ensures RowStocked(w', n, id)
    {
      ManifestLaws.NodesStay(w, w', n);
      NewRowStocked(c, w, step, n, id);
    }
  }

  lemma {:induction false} RunStocked(c: Config, run: seq<World>)
    requires IsRun(c, run)
    ensures AllStocked(Last(run))
  {
    hide Inv, Enabled, Take, ClientStocked, ServerStocked, RowStocked;
    if |run| > 1 {
      var before := run[..|run| - 1];
      RunStocked(c, before);
      RunKeepsInv(c, before);
      assert Next(c, run[|run| - 2], run[|run| - 1]);
      var step :| Enabled(c, Last(before), step) && Last(run) == Take(c, Last(before), step);
      StepKeepsStock(c, Last(before), step);
    }
  }

  // ---------- Main results ----------

  /** In every reachable state, of two devices that hold each other as paired, the stores are in order:
      whatever the one still lacks of the files of the other, the other can serve. */
  lemma AlwaysInOrder(c: Config, run: seq<World>, A: DeviceId, B: DeviceId)
    requires IsRun(c, run) && CanTalk(Last(run), B, A) && Holding(Last(run), A, B)
    ensures A in c.ids && B in c.ids && A in Last(run).nodes && B in Last(run).nodes
    ensures InOrder(c.prim, c.ids[A], c.ids[B], Last(run).nodes[A], Last(run).nodes[B], Last(run).catalog)
  {
    hide Inv, Next, Init, SyncLaws.Coherent, Sound, Stocked, ManifestsListed, AllStocked;
    var w := Last(run);
    RunKeepsInv(c, run);
    RunStocked(c, run);
    TalksToDevice(c, w, B, A);
    DeviceKeys(c, w);
    NodeHas(c, w, B);
    NodeHas(c, w, A);
    PairIsCoherent(c, run, B, A);
    IdentitiesValid(c, w, A, B);
    AuthorStocked(c, w, A, B);
    ReceiverListed(c, w, A, B);
  }

  lemma IdentitiesValid(c: Config, w: World, A: DeviceId, B: DeviceId)
    requires Inv(c, w) && A in c.ids && B in c.ids
    ensures c.prim.validIdentity(c.ids[A].public) && c.prim.validIdentity(c.ids[B].public)
  {
  }

  lemma HasServes(c: Config, w: World, A: DeviceId, B: DeviceId, m: FileManifest)
    requires Has(w, A, m) && Holding(w, A, B) && PeersOk(c, A, w.nodes[A]) && B in c.ids
    requires c.ids[B].public.deviceId == B
    ensures Serves(w.nodes[A], c.ids[B].public, m)
  {
  }

  lemma AuthorStocked(c: Config, w: World, A: DeviceId, B: DeviceId)
    requires Inv(c, w) && AllStocked(w) && A in c.ids && B in c.ids && A != B && A in w.nodes && Holding(w, A, B)
    ensures Stocked(c.prim, c.ids[A], c.ids[B], w.nodes[A], w.catalog)
  {
    hide Inv, AllStocked, InStock, Stream, Offered;
    DeviceKeys(c, w);
    ConfigFact(c, w, A, B);
    forall e |
      && e in Stream(w.nodes[A].events, DirectStreamId(A, B)) && e.author == A
      && Offered(c.prim, c.ids[A], c.ids[B], e).Some?
      ensures InStock(w.nodes[A], c.ids[B].public, w.catalog, Offered(c.prim, c.ids[A], c.ids[B], e).value)
    {
      EventStocked(c, w, A, B, e);
    }
  }

  lemma EventStocked(c: Config, w: World, A: DeviceId, B: DeviceId, e: EventEnvelope)
    requires Inv(c, w) && AllStocked(w) && A in c.ids && B in c.ids && A != B && A in w.nodes && Holding(w, A, B)
    requires e in Stream(w.nodes[A].events, DirectStreamId(A, B)) && e.author == A
    requires Offered(c.prim, c.ids[A], c.ids[B], e).Some?
    ensures InStock(w.nodes[A], c.ids[B].public, w.catalog, Offered(c.prim, c.ids[A], c.ids[B], e).value)
  {
    hide Inv, ClientStocked, ServerStocked, RowStocked, Has, Serves, Stream, SyncLaws.Genuine;
    hide OpenItem, Ideal, WellKeyed;
    hide Sound, ManifestsOk, PeersOk, Holding;
    DeviceKeys(c, w);
    NodeHas(c, w, A);
    ConfigFact(c, w, A, B);
    StreamIsGenuine(c, w, A, A, B);
    SyncLaws.GenuineAcceptable(c.prim, c.ids[A], c.ids[B], e, w.minted[e.id].payload);
    MintedAuthor(c, w, A, B, e);
    assert Offered(c.prim, c.ids[A], c.ids[B], e) == ManifestIn(e, w.minted[e.id].payload);
    HasServes(c, w, A, B, w.minted[e.id].payload.manifest);
  }

  lemma MintedAuthor(c: Config, w: World, A: DeviceId, B: DeviceId, e: EventEnvelope)
    requires Inv(c, w) && A in w.nodes && e in Stream(w.nodes[A].events, DirectStreamId(A, B))
    ensures e.id in w.minted && w.minted[e.id].event.author == e.author
    ensures w.minted[e.id].payload.ManifestPayload? ==> Catalogued(w, w.minted[e.id].payload.manifest)
  {
    hide RecordsOk, NodesOk, OpsOk, NewEvent;
    var id :| id in w.nodes[A].events && w.nodes[A].events[id] == e;
    LogFact(c, w, A, id);
  }

  lemma ReceiverListed(c: Config, w: World, A: DeviceId, B: DeviceId)
    requires Inv(c, w) && AllStocked(w) && A in c.ids && B in c.ids && A in w.nodes && B in w.nodes && Holding(w, A, B)
    ensures ManifestsListed(A, c.ids[B].public, w.nodes[B], w.nodes[A], w.catalog)
  {
    hide Inv, ClientStocked, ServerStocked, Holds, Serves, Announced, Has, Catalogued;
    DeviceKeys(c, w);
    NodeHas(c, w, A);
    NodeHas(c, w, B);
    var t := w.nodes[B];
    RowIds(c.prim, t);
    hide Sound;
    forall id | id in t.manifests
      ensures id in w.catalog && w.catalog[id].id == id && t.manifests[id].manifest == w.catalog[id]
      ensures Holds(t, w.catalog[id])
      ensures t.manifests[id].peer == A && MissingChunks(t, id) != [] ==>
        Serves(w.nodes[A], c.ids[B].public, w.catalog[id])
    {
      InCatalog(w, t.manifests[id].manifest);
      assert RowStocked(w, B, id);
      if t.manifests[id].peer == A && MissingChunks(t, id) != [] {
        AnnouncedHas(w, A, B, w.catalog[id]);
        HasServes(c, w, A, B, w.catalog[id]);
      }
    }
  }

  lemma InCatalog(w: World, m: FileManifest)
    requires Catalogued(w, m)
    ensures m.id in w.catalog && w.catalog[m.id] == m
  {
  }

  lemma RowIds(prim: Primitives, t: Tables)
    requires Sound(prim, t)
    ensures forall id :: id in t.manifests ==> t.manifests[id].manifest.id == id
  {
  }

  lemma AnnouncedHas(w: World, src: DeviceId, dst: DeviceId, m: FileManifest)
    requires AllStocked(w) && Announced(w, src, dst, m)
    ensures Has(w, src, m)
  {
    hide Has, ClientStocked, ServerStocked, RowStocked;
    var id :| AnnouncedBy(w, id, src, dst, m);
  }

  /** So in every reachable state a sync of `B` with `A` depends on nothing but the link and its frames: the stores
      meet every other condition under which `Node.Sync` succeeds. */
  lemma SyncNeedsOnlyLinkAndFrames(c: Config, run: seq<World>, A: DeviceId, B: DeviceId)
    requires IsRun(c, run) && CanTalk(Last(run), B, A) && Holding(Last(run), A, B)
    ensures A in c.ids && B in c.ids && A in Last(run).nodes && B in Last(run).nodes
    ensures CanSync(c.prim, c.prim, c.ids[B], c.ids[A], A, Last(run).nodes[B], Last(run).nodes[A])
  {
    hide IsRun, InOrder, CanSync, CanTalk, Holding;
    AlwaysInOrder(c, run, A, B);
    RunKeepsInv(c, run);
    DeviceKeys(c, Last(run));
    hide Inv;
    InOrderCanSync(c.prim, c.ids[A], c.ids[B], Last(run).nodes[A], Last(run).nodes[B], Last(run).catalog);
  }
}
