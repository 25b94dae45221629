/** In every run, a device that stores a file event also holds the manifest the event carries, with
    exactly its chunk rows, unless it is between storing the two. */
module ManifestLaws {
  import opened Wrappers
  import opened Model
  import opened Crypto
  import opened ChunkRows
  import opened EventLog
  import opened Tables
  import opened Protocol
  import F = Frames
  import opened Nodes
  import opened Network
  import opened Replication
  import opened ReplicationSteps

  /** An operation at `n` has stored the event of `m` and is about to save the manifest. */
  ghost predicate ClientSaving(w: World, n: DeviceId, m: FileManifest, k: nat) {
    k in w.clients && w.clients[k].Merging? && w.clients[k].answer.call.src == n && w.clients[k].saving == Some(m)
  }

  ghost predicate ServerSaving(w: World, n: DeviceId, m: FileManifest, k: nat) {
    k in w.servers && w.servers[k].Receiving? && w.servers[k].call.dst == n && w.servers[k].saving == Some(m)
  }

  ghost predicate Saving(w: World, n: DeviceId, m: FileManifest) {
    (exists k :: ClientSaving(w, n, m, k)) || (exists k :: ServerSaving(w, n, m, k))
  }

  ghost predicate Kept(w: World, n: DeviceId, id: string)
    requires n in w.nodes
  {
    id in w.minted && (w.minted[id].payload.ManifestPayload? ==>
      var m := w.minted[id].payload.manifest; Holds(w.nodes[n], m) || Saving(w, n, m))
  }

  ghost predicate AllKept(w: World) {
    forall n, id :: n in w.nodes && id in w.nodes[n].events ==> Kept(w, n, id)
  }

  // ---------- Operations that are saving go on to save ----------

  lemma ClientStays(c: Config, w: World, step: Step, n: DeviceId, m: FileManifest, k: nat)
    requires Enabled(c, w, step) && ClientSaving(w, n, m, k) && !(step.MergeNext? && step.k == k)
    ensures ClientSaving(Take(c, w, step), n, m, k)
  {
    hide ReceiveNext, SaveManifest, OwnEvents, KeyedById, CanTalk, CanReach, UpsertPeer, Sound, Fills, ReplyTo;
    hide Trusts, IsPaired, LookupPeer, StreamIds, EventsIn, F.FitsFrame, Post, Publish;
    if Posts(step) {
      hide Enabled, Effect;
      PostingFrame(c, w, step);
    }
  }

  lemma ServerStays(c: Config, w: World, step: Step, n: DeviceId, m: FileManifest, k: nat)
    requires Enabled(c, w, step) && ServerSaving(w, n, m, k) && !(step.ServeNext? && step.k == k)
    ensures ServerSaving(Take(c, w, step), n, m, k)
  {
    hide ReceiveNext, SaveManifest, OwnEvents, KeyedById, CanTalk, CanReach, UpsertPeer, Sound, Fills, ReplyTo;
    hide Trusts, IsPaired, LookupPeer, StreamIds, EventsIn, F.FitsFrame, Post, Publish, AwaitsAnswer;
    if Posts(step) {
      hide Enabled, Effect;
      PostingFrame(c, w, step);
    }
  }

  lemma MergeSaves(c: Config, w: World, k: nat, n: DeviceId, m: FileManifest)
    requires Inv(c, w) && Enabled(c, w, MergeNext(k)) && ClientSaving(w, n, m, k)
    requires n in w.nodes && n in Take(c, w, MergeNext(k)).nodes
    ensures Holds(Take(c, w, MergeNext(k)).nodes[n], m)
  {
    hide Holds, SaveManifest, Sound, Inv, NodesOk, RecordsOk, ManifestsOk, PeersOk, LoopOk;
    DeviceKeys(c, w);
    ClientFact(c, w, k);
    NodeHas(c, w, n);
    SaveHolds(c, w, w.nodes[n], w.clients[k].answer.call.dst, m);
  }

  lemma ServeSaves(c: Config, w: World, k: nat, n: DeviceId, m: FileManifest)
    requires Inv(c, w) && Enabled(c, w, ServeNext(k)) && ServerSaving(w, n, m, k)
    requires n in w.nodes && n in Take(c, w, ServeNext(k)).nodes
    ensures Holds(Take(c, w, ServeNext(k)).nodes[n], m)
  {
    hide Holds, SaveManifest, Sound, Inv, NodesOk, RecordsOk, ManifestsOk, PeersOk, LoopOk;
    DeviceKeys(c, w);
    ServerFact(c, w, k);
    NodeHas(c, w, n);
    SaveHolds(c, w, w.nodes[n], w.servers[k].call.src, m);
  }

  lemma SavingLasts(c: Config, w: World, step: Step, n: DeviceId, m: FileManifest)
    requires Inv(c, w) && Enabled(c, w, step) && Saving(w, n, m) && n in w.nodes && n in Take(c, w, step).nodes
    ensures Saving(Take(c, w, step), n, m) || Holds(Take(c, w, step).nodes[n], m)
  {
    hide Inv, Enabled, Take, ClientSaving, ServerSaving, Holds;
    if k :| ClientSaving(w, n, m, k) {
      if step == MergeNext(k) { MergeSaves(c, w, k, n, m); } else { ClientStays(c, w, step, n, m, k); }
    } else {
      var k :| ServerSaving(w, n, m, k);
      if step == ServeNext(k) { ServeSaves(c, w, k, n, m); } else { ServerStays(c, w, step, n, m, k); }
    }
  }

  // ---------- Events that are new ----------

  lemma OtherLogs(c: Config, w: World, step: Step, n: DeviceId)
    requires Enabled(c, w, step) && n in w.nodes && n in Take(c, w, step).nodes
    requires !step.WriteText? && !step.WriteFile? && !step.MergeNext? && !step.ServeNext?
    ensures Take(c, w, step).nodes[n].events == w.nodes[n].events
  {
    hide ReceiveNext, OwnEvents, KeyedById, CanTalk, CanReach, UpsertPeer, Sound, ReplyTo, Trusts, IsPaired;
    hide F.FitsFrame, LookupPeer, StreamIds, EventsIn, NewEvent, Post, Publish, Raised;
    if Posts(step) {
      hide Enabled, Effect;
      PostingFrame(c, w, step);
    }
  }

  /** The turn of a receiving loop that stores the event `id` remembers to save what it carries. */
  lemma ReceivedIsSaving(
    c: Config, w: World, n: DeviceId, peer: DeviceId, rest: seq<EventEnvelope>, saving: Option<FileManifest>,
    id: string)
    requires Inv(c, w) && n in w.nodes && n in c.ids && peer in c.ids
    requires rest != [] ==> FromTo(w, rest[0], peer, n)
    requires var r := ReceiveNext(c.prim, c.ids[n], w.nodes[n], c.ids[peer].public, rest, saving);
             id in r.t.events && id !in w.nodes[n].events
    ensures var r := ReceiveNext(c.prim, c.ids[n], w.nodes[n], c.ids[peer].public, rest, saving);
            && r.ok && id in w.minted
            && (w.minted[id].payload.ManifestPayload? ==> r.saving == Some(w.minted[id].payload.manifest))
  {
    hide RecordsOk, NodesOk, OpsOk, OpenItem, SaveManifest;
    if saving.None? && rest != [] {
      MintedFact(c, w, rest[0].id);
      MintedOpens(c, w, n, peer, rest[0]);
    }
  }

  lemma MergedIsSaving(c: Config, w: World, k: nat, n: DeviceId, id: string)
    requires Inv(c, w) && Enabled(c, w, MergeNext(k)) && n in w.nodes
    requires var w' := Take(c, w, MergeNext(k)); n in w'.nodes && id in w'.nodes[n].events && id !in w.nodes[n].events
    ensures id in w.minted && (w.minted[id].payload.ManifestPayload? ==>
      ClientSaving(Take(c, w, MergeNext(k)), n, w.minted[id].payload.manifest, k))
  {
    hide Inv, ReceiveNext, FromTo, LoopOk;
    var op := w.clients[k];
    var call := op.answer.call;
    ClientFact(c, w, k);
    MergesFrom(c, w, op.answer);
    if op.rest != [] { HeadOfLoop(w, n, op.answer.body.events, op.rest); }
    hide ClientOk, AnswerOk, CallOk;
    ReceivedIsSaving(c, w, call.src, call.dst, op.rest, op.saving, id);
  }

  lemma ServedIsSaving(c: Config, w: World, k: nat, n: DeviceId, id: string)
    requires Inv(c, w) && Enabled(c, w, ServeNext(k)) && n in w.nodes
    requires var w' := Take(c, w, ServeNext(k)); n in w'.nodes && id in w'.nodes[n].events && id !in w.nodes[n].events
    ensures id in w.minted && (w.minted[id].payload.ManifestPayload? ==>
      ServerSaving(Take(c, w, ServeNext(k)), n, w.minted[id].payload.manifest, k))
  {
    hide Inv, ReceiveNext, FromTo, LoopOk;
    var op := w.servers[k];
    ServerFact(c, w, k);
    ServesFrom(c, w, op.call);
    if op.rest != [] { HeadOfLoop(w, n, EventsIn(op.call.body), op.rest); }
    hide ServerOk, CallOk;
    ReceivedIsSaving(c, w, op.call.dst, op.call.src, op.rest, op.saving, id);
  }

  lemma CreatedIsHeld(c: Config, w: World, step: Step, n: DeviceId, id: string)
    requires Inv(c, w) && Enabled(c, w, step) && (step.WriteText? || step.WriteFile?) && n in w.nodes
    requires var w' := Take(c, w, step); n in w'.nodes && id in w'.nodes[n].events && id !in w.nodes[n].events
    ensures var w' := Take(c, w, step);
      id in w'.minted && (w'.minted[id].payload.ManifestPayload? ==> Holds(w.nodes[n], w'.minted[id].payload.manifest))
  {
    hide RecordsOk, NodesOk, OpsOk, Holds, Reachable, F.FitsFrame, LookupPeer, Publish, NewEvent, IsPaired;
    match step {
      case WriteText(k, me, to, text, id', time, nonce) =>
        PublishFrame(c, w, k, me, to, TextKind, TextPayload(text), id', time, nonce);
      case WriteFile(k, id', time, nonce) =>
        ClientFact(c, w, k);
        var op := w.clients[k];
        PublishFrame(c, w, k, op.me, op.to, ManifestKind, ManifestPayload(op.manifest), id', time, nonce);
    }
  }

  // ---------- All steps, all runs ----------

  lemma StepKeeps(c: Config, w: World, step: Step)
    requires Inv(c, w) && AllKept(w) && Enabled(c, w, step)
    ensures AllKept(Take(c, w, step))
  {
    hide Inv, Enabled, Take, Grows, Saving, Holds;
    var w' := Take(c, w, step);
    StepKeepsInv(c, w, step);
    forall n, id | n in w'.nodes && id in w'.nodes[n].events
      ensures Kept(w', n, id)
    {
      NodesStay(w, w', n);
      if id in w.nodes[n].events {
        assert Kept(w, n, id);
        OldIsKept(c, w, step, n, id);
      } else {
        NewIsKept(c, w, step, n, id);
      }
    }
  }

  lemma NodesStay(w: World, w': World, n: DeviceId)
    requires Grows(w, w') && n in w'.nodes
    ensures n in w.nodes
  {
  }

  lemma HeldGrows(w: World, w': World, n: DeviceId, m: FileManifest)
    requires Grows(w, w') && n in w.nodes && Holds(w.nodes[n], m)
    ensures Holds(w'.nodes[n], m)
  {
    assert TablesGrow(w.nodes[n], w'.nodes[n]);
  }

  lemma MintedStays(w: World, w': World, id: string)
    requires Grows(w, w') && id in w.minted
    ensures id in w'.minted && w'.minted[id] == w.minted[id]
  {
  }

  lemma OldIsKept(c: Config, w: World, step: Step, n: DeviceId, id: string)
    requires Inv(c, w) && Enabled(c, w, step) && Grows(w, Take(c, w, step)) && n in w.nodes && Kept(w, n, id)
    requires n in Take(c, w, step).nodes
    ensures Kept(Take(c, w, step), n, id)
  {
    hide Inv, Enabled, Take, Grows, Saving, Holds;
    var w' := Take(c, w, step);
    MintedStays(w, w', id);
    if w.minted[id].payload.ManifestPayload? {
      var m := w.minted[id].payload.manifest;
      if Holds(w.nodes[n], m) { HeldGrows(w, w', n, m); } else { SavingLasts(c, w, step, n, m); }
    }
  }

  lemma NewIsKept(c: Config, w: World, step: Step, n: DeviceId, id: string)
    requires Inv(c, w) && Enabled(c, w, step) && Grows(w, Take(c, w, step)) && n in w.nodes
    requires n in Take(c, w, step).nodes && id in Take(c, w, step).nodes[n].events && id !in w.nodes[n].events
    ensures Kept(Take(c, w, step), n, id)
  {
    hide Inv, Enabled, Take, Grows, ClientSaving, ServerSaving, Holds;
    var w' := Take(c, w, step);
    match step {
      case MergeNext(k) =>
        MergedIsSaving(c, w, k, n, id);
        MintedStays(w, w', id);
      case ServeNext(k) =>
        ServedIsSaving(c, w, k, n, id);
        MintedStays(w, w', id);
      case WriteText(_, _, _, _, _, _, _) => CreatedIsKept(c, w, step, n, id);
      case WriteFile(_, _, _, _) => CreatedIsKept(c, w, step, n, id);
      case _ => OtherLogs(c, w, step, n);
    }
  }

  lemma CreatedIsKept(c: Config, w: World, step: Step, n: DeviceId, id: string)
    requires Inv(c, w) && Enabled(c, w, step) && Grows(w, Take(c, w, step)) && n in w.nodes
    requires (step.WriteText? || step.WriteFile?)
    requires n in Take(c, w, step).nodes && id in Take(c, w, step).nodes[n].events && id !in w.nodes[n].events
    ensures Kept(Take(c, w, step), n, id)
  {
    hide Inv, Enabled, Take, Grows, Saving, Holds;
    var w' := Take(c, w, step);
    CreatedIsHeld(c, w, step, n, id);
    if w'.minted[id].payload.ManifestPayload? {
      HeldGrows(w, w', n, w'.minted[id].payload.manifest);
    }
  }

  lemma {:induction false} RunKeeps(c: Config, run: seq<World>)
    requires IsRun(c, run)
    ensures AllKept(Last(run))
  {
    hide Inv, Enabled, Take, Kept;
    if |run| > 1 {
      var before := run[..|run| - 1];
      RunKeeps(c, before);
      RunKeepsInv(c, before);
      assert Next(c, run[|run| - 2], run[|run| - 1]);
      var step :| Enabled(c, Last(before), step) && Last(run) == Take(c, Last(before), step);
      StepKeeps(c, Last(before), step);
    }
  }

  /** Main result: whoever stores an event that announces a file holds the manifest that was sent,
      and its chunk rows are exactly the (index, hash) list of that manifest; the only exception is
      a device with an operation that is just about to save it. */
  lemma FileEventsHaveTheirManifest(c: Config, run: seq<World>, n: DeviceId, id: string)
    requires IsRun(c, run) && n in Last(run).nodes && id in Last(run).nodes[n].events
    requires Last(run).nodes[n].events[id].kind == ManifestKind
    ensures
      && id in Last(run).minted && Last(run).minted[id].payload.ManifestPayload?
      && var m := Last(run).minted[id].payload.manifest;
      || Saving(Last(run), n, m)
      || (&& m.id in Last(run).nodes[n].manifests && Last(run).nodes[n].manifests[m.id].manifest == m
          && Describes(RowsOf(Last(run).nodes[n], m.id), m.chunks))
  {
    hide Inv, IsRun, Saving;
    RunKeeps(c, run);
    RunKeepsInv(c, run);
    LogFact(c, Last(run), n, id);
    assert Kept(Last(run), n, id);
  }
}
