/** What the network's small steps come to when nothing interferes between them: on the server the handlers
    of module `Protocol`, on the client what the methods of the class `Node` are proved to leave in the
    store. For a sync as a whole see `Liveness.SyncCompletesExactlyWhenItFits`. */
module Refinement {
  import opened Wrappers
  import opened Model
  import opened Crypto
  import opened EventLog
  import opened Tables
  import opened Protocol
  import F = Frames
  import opened Nodes
  import opened Network
  import opened Replication
  import opened ReplicationSteps

  /** The receiving loop run to its end in one go. */
  ghost function Drain(
    prim: Primitives, me: Identity, t: Tables, peer: PublicIdentity, rest: seq<EventEnvelope>,
    saving: Option<FileManifest>): (Tables, bool)
    decreases |rest|, if saving.Some? then 1 else 0
  {
    if saving.None? && rest == [] then (t, true)
    else
      var r := ReceiveNext(prim, me, t, peer, rest, saving);
      if r.ok then Drain(prim, me, r.t, peer, r.rest, r.saving) else (r.t, false)
  }

  lemma {:induction false} DrainIsAdmitAll(
    prim: Primitives, me: Identity, t: Tables, peer: PublicIdentity, es: seq<EventEnvelope>)
    ensures Drain(prim, me, t, peer, es, None) == AdmitAll(prim, me, t, peer, es)
    decreases es
  {
    hide SaveManifest, OpenItem;
    if es != [] {
      var r := ReceiveNext(prim, me, t, peer, es, None);
      if es[0].author != peer.deviceId {
        DrainIsAdmitAll(prim, me, t, peer, es[1..]);
      } else if r.ok {
        var payload := OpenItem(prim, me, peer, es[0]).value.payload;
        var next := Admit(t, peer.deviceId, es[0], payload);
        if es[0].id in t.events {
          assert r.t == t;
        } else if r.saving.Some? {
          var s := ReceiveNext(prim, me, r.t, peer, r.rest, r.saving);
          assert s == Receipt(next, es[1..], None, true);
        }
        DrainIsAdmitAll(prim, me, next, peer, es[1..]);
      }
    }
  }

  /** A pushed event or a sync request that is served without interference leaves the store, and is
      answered, exactly as the handler says. */
  lemma ServedAloneIsHandled(
    prim: Primitives, me: Identity, t: Tables, sender: PublicIdentity, body: Message, now: int, nonces: nat -> Bytes)
    requires Sound(prim, t) && Trusts(t, sender)
    requires (body.PushEvent? && body.event.author == sender.deviceId)
          || (body.SyncExchange? && body.stream == DirectStreamId(me.public.deviceId, sender.deviceId))
    ensures
      var (t', ok) := Drain(prim, me, t, sender, EventsIn(body), None);
      var o := Handle(prim, me, t, sender, body, now, nonces);
      && o.t == t' && (ok <==> !o.body.Error?)
      && (ok ==> KeyedById(t'.events) && o.body == Reply(me.public.deviceId, t', body))
  {
    hide Sound, OpenItem, OwnEvents, Admit;
    var es := EventsIn(body);
    DrainIsAdmitAll(prim, me, t, sender, es);
    AdmitAllSound(prim, me, t, sender, es);
    SoundIsKeyed(prim, AdmitAll(prim, me, t, sender, es).0);
    if body.PushEvent? {
      OnlyOne(prim, me, t, sender, body.event);
    }
  }

  lemma OnlyOne(prim: Primitives, me: Identity, t: Tables, sender: PublicIdentity, e: EventEnvelope)
    requires e.author == sender.deviceId
    ensures var r := OpenItem(prim, me, sender, e);
      AdmitAll(prim, me, t, sender, [e])
        == (if r.Ok? then (Admit(t, sender.deviceId, e, r.value.payload), true) else (t, false))
  {
    hide OpenItem, Admit;
    assert [e][1..] == [];
  }

  /** Likewise for a pair request. */
  lemma PairedAloneIsHandled(c: Config, w: World, k: nat, call: Call, now: int, nonces: nat -> Bytes)
    requires Inv(c, w) && Enabled(c, w, ServePair(k, call)) && call.src in c.ids && call.dst in c.ids
    ensures Sound(c.prim, w.nodes[call.dst])
    ensures
      var read := Take(c, w, ServePair(k, call));
      var o := Handle(c.prim, c.ids[call.dst], w.nodes[call.dst], c.ids[call.src].public, call.body, now, nonces);
      && Enabled(c, read, ServePairWrite(k, now))
      && Take(c, read, ServePairWrite(k, now)).nodes == w.nodes[call.dst := o.t]
      && o.body == PairResponse(true)
  {
    hide Inv, RecordsOk, NodesOk, OpsOk, Sound, UpsertPeer;
    DeviceKeys(c, w);
    NodeHas(c, w, call.dst);
  }

  // ---------- Client operations ----------

  /** A text message: the store that `Node.SendText` leaves, and the event it pushes. */
  lemma TextAloneIsSent(
    c: Config, w: World, k: nat, me: DeviceId, to: DeviceId, text: string, id: string, time: int, nonce: Bytes)
    requires Inv(c, w) && Enabled(c, w, WriteText(k, me, to, text, id, time, nonce))
    ensures me in c.ids && to in w.nodes[me].peers && c.ids[me].public.deviceId == me
    ensures
      var t := w.nodes[me];
      var w' := Take(c, w, WriteText(k, me, to, text, id, time, nonce));
      var e := SealEvent(c.prim, c.ids[me], t.peers[to].identity, DirectStreamId(me, to), TextKind, TextPayload(text),
        id, time, nonce);
      && w'.nodes == w.nodes[me := t.(events := Insert(t.events, e))]
      && (F.FitsFrame(c.ids[me].public, PushEvent(e)) ==> Call(k, me, to, PushEvent(e), w.clock, w.clock) in w'.calls)
  {
    hide Inv, Sound, SealEvent, F.FitsFrame, CanTalk, Insert, PeersOk, ManifestsOk;
    TalksToDevice(c, w, me, to);
    DeviceKeys(c, w);
    NodeHas(c, w, me);
  }

  /** A file: the store that `Node.SendFile` leaves once the chunks have been ingested. */
  lemma FileAloneIsKept(
    c: Config, w: World, k: nat, me: DeviceId, to: DeviceId, m: FileManifest, id: string, time: int, nonce: Bytes)
    requires Inv(c, w) && Enabled(c, w, SaveFile(k, me, to, m)) && id !in w.minted
    ensures me in c.ids && to in w.nodes[me].peers && c.ids[me].public.deviceId == me
    ensures
      var t := w.nodes[me];
      var saved := Take(c, w, SaveFile(k, me, to, m));
      var e := SealEvent(c.prim, c.ids[me], t.peers[to].identity, DirectStreamId(me, to), ManifestKind,
        ManifestPayload(m), id, time, nonce);
      && Enabled(c, saved, WriteFile(k, id, time, nonce))
      && var w' := Take(c, saved, WriteFile(k, id, time, nonce));
      && me in w'.nodes && w'.nodes == w.nodes[me := w'.nodes[me]] && FileKept(t, w'.nodes[me], to, m, e)
  {
    hide Inv, Sound, SealEvent, Fills, SaveManifest, Enabled, Take, NodesOk, RecordsOk, ManifestsOk;
    SaveEffect(c, w, k, me, to, m);
    DeviceKeys(c, w);
    NodeHas(c, w, me);
    FillsReflexive(w.nodes[me]);
    var saved := Take(c, w, SaveFile(k, me, to, m));
    WriteEffect(c, saved, k, id, time, nonce);
    var t := w.nodes[me];
    var e := SealEvent(c.prim, c.ids[me], t.peers[to].identity, DirectStreamId(me, to), ManifestKind,
      ManifestPayload(m), id, time, nonce);
    assert KeptVia(t, t, Take(c, saved, WriteFile(k, id, time, nonce)).nodes[me], to, m, e);
  }

  lemma SaveEffect(c: Config, w: World, k: nat, me: DeviceId, to: DeviceId, m: FileManifest)
    requires Inv(c, w) && Enabled(c, w, SaveFile(k, me, to, m))
    ensures me in c.ids && to in c.ids && Holding(w, me, to) && HashesOf(m.chunks) <= w.nodes[me].blobs.Keys
    ensures var w' := Take(c, w, SaveFile(k, me, to, m));
      && w'.nodes == w.nodes[me := SaveManifest(w.nodes[me], to, m)] && w'.minted == w.minted
      && k in w'.clients && w'.clients[k] == FileSaved(me, to, m)
  {
    hide Inv, SaveManifest, CanTalk;
    TalksToDevice(c, w, me, to);
  }

  lemma WriteEffect(c: Config, w: World, k: nat, id: string, time: int, nonce: Bytes)
    requires k in w.clients && w.clients[k].FileSaved? && id !in w.minted
    requires var op := w.clients[k]; op.me in c.ids && op.to in c.ids && op.me in w.nodes
    ensures Enabled(c, w, WriteFile(k, id, time, nonce))
    ensures
      var op := w.clients[k];
      var e := NewEvent(c, op.me, op.to, ManifestKind, ManifestPayload(op.manifest), id, time, nonce);
      Take(c, w, WriteFile(k, id, time, nonce)).nodes
        == w.nodes[op.me := w.nodes[op.me].(events := Insert(w.nodes[op.me].events, e))]
  {
    hide NewEvent;
  }

  /** The end of a pairing: the tables that `Node.Pair` goes on to sync with. */
  lemma PairedAloneIsRecorded(c: Config, w: World, k: nat, a: Answer, now: int)
    requires Inv(c, w) && Enabled(c, w, FinishPair(k, a, now))
    ensures Take(c, w, FinishPair(k, a, now)).nodes
         == w.nodes[a.call.src := PairedTables(w.nodes[a.call.src], c.ids[a.call.dst].public, w.clients[k].reachedAt,
           now)]
  {
    hide Inv, UpsertPeer;
  }

  /** An announcement: the store that `Node.RememberPeer` leaves. */
  lemma LearntAloneIsRemembered(c: Config, w: World, k: nat, me: DeviceId, peer: DeviceId, endpoint: Endpoint, now: int)
    requires Inv(c, w) && Enabled(c, w, Learn(k, me, peer, endpoint))
    ensures
      var t := w.nodes[me];
      var read := Take(c, w, Learn(k, me, peer, endpoint));
      && Enabled(c, read, LearnWrite(k, now))
      && Take(c, read, LearnWrite(k, now)).nodes
         == w.nodes[me := t.(peers := UpsertPeer(t.peers,
           Peer(c.ids[peer].public, Some(endpoint), IsPaired(t, peer), now)))]
  {
    hide Inv, UpsertPeer;
  }
}
