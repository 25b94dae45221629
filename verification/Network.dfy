/** Any number of devices and the network between them, as a step machine.

    Requests and answers, once sent, stay in a set: one that is never picked up was lost, one that
    is picked up twice was duplicated. Operations of one device interleave with each other and with
    everything else between any two accesses to its store; a step is one such access, computed by
    the same table functions that the classes are proved against. Where an operation begins by
    reading whether the peer is reachable and paired, that belongs to its first step: the answer
    can only turn from no to yes (`RunLaws.TalkLasts`). A message that does not fit a frame is not sent:
    a request then ends its operation, an answer is simply missing. */
module Network {
  import opened Wrappers
  import Text
  import opened Model
  import opened Crypto
  import opened ChunkRows
  import opened EventLog
  import opened Tables
  import opened Protocol
  import F = Frames
  import opened Nodes

  /** The devices of a run, with keys that do not change. */
  datatype Config = Config(prim: Primitives, ids: map<DeviceId, Identity>)

  /** A request on its own connection; `at` is the number of the state in which it was sent, `since` of the one in
      which its operation began to read what it says. */
  datatype Call = Call(conn: nat, src: DeviceId, dst: DeviceId, body: Message, at: nat, since: nat)

  datatype Answer = Answer(call: Call, body: Message, at: nat)

  /** What was passed to `create_event`, kept for every event ever created. */
  datatype Minted = Minted(event: EventEnvelope, to: DeviceId, payload: Payload)

  /** Client operations: what has been read or is being waited for. */
  datatype Client =
    | Learning(me: DeviceId, peer: PublicIdentity, endpoint: Endpoint, paired: bool)
    | FileSaved(me: DeviceId, to: DeviceId, manifest: FileManifest)
    | KnownRead(me: DeviceId, to: DeviceId, known: set<string>, at: nat)
    | Waiting(call: Call, reachedAt: Option<Endpoint>)
    | Merging(answer: Answer, rest: seq<EventEnvelope>, saving: Option<FileManifest>)
    | Done(answer: Answer)

  /** Server operations. */
  datatype Server =
    | PairRead(call: Call, endpoint: Option<Endpoint>)
    | PairWritten(call: Call)
    | Receiving(call: Call, rest: seq<EventEnvelope>, saving: Option<FileManifest>)

  datatype World = World(
    nodes: map<DeviceId, Tables>,
    clients: map<nat, Client>,
    servers: map<nat, Server>,
    calls: set<Call>,
    answers: set<Answer>,
    minted: map<string, Minted>,          // by event id
    catalog: map<string, FileManifest>,   // by manifest id
    handled: set<Call>,                   // pair requests whose sender has been recorded
    clock: nat)

  datatype Step =
    | Learn(k: nat, me: DeviceId, peer: DeviceId, endpoint: Endpoint)
    | LearnWrite(k: nat, now: int)
    | AskPair(k: nat, me: DeviceId, to: DeviceId, pairingNonce: string)
    | ServePair(k: nat, call: Call)
    | ServePairWrite(k: nat, now: int)
    | ServePairAnswer(k: nat)
    | FinishPair(k: nat, answer: Answer, now: int)
    | WriteText(k: nat, me: DeviceId, to: DeviceId, text: string, id: string, time: int, nonce: Bytes)
    | SaveFile(k: nat, me: DeviceId, to: DeviceId, manifest: FileManifest)
    | WriteFile(k: nat, id: string, time: int, nonce: Bytes)
    | FinishPush(k: nat, answer: Answer)
    | ReadKnown(k: nat, me: DeviceId, to: DeviceId)
    | SendSync(k: nat)
    | Serve(k: nat, call: Call)
    | ServeNext(k: nat)
    | ServeAnswer(k: nat)
    | BeginMerge(k: nat, answer: Answer)
    | MergeNext(k: nat)
    | FinishMerge(k: nat)
    | DropClient(k: nat)
    | DropServer(k: nat)
    | FileTraffic(me: DeviceId, t: Tables)

  // ---------- Parts of steps ----------

  /** Position of the loop over received events. `saving` is the manifest of the event just
      inserted, between `insert_event` and `save_manifest`. */
  datatype Receipt = Receipt(t: Tables, rest: seq<EventEnvelope>, saving: Option<FileManifest>, ok: bool)

  function ReceiveNext(
    prim: Primitives, me: Identity, t: Tables, peer: PublicIdentity, rest: seq<EventEnvelope>,
    saving: Option<FileManifest>): Receipt
  {
    match saving
    case Some(m) => Receipt(SaveManifest(t, peer.deviceId, m), rest, None, true)
    case None =>
      if rest == [] then Receipt(t, rest, None, true)
      else if rest[0].author != peer.deviceId then Receipt(t, rest[1..], None, true)
      else
        match OpenItem(prim, me, peer, rest[0])
        case Err(_) => Receipt(t, rest, None, false)
        case Ok(item) =>
          Receipt(t.(events := Insert(t.events, rest[0])), rest[1..],
                  if rest[0].id in t.events then None else ManifestIn(rest[0], item.payload), true)
  }

  /** The event created for `to`. */
  function NewEvent(
    c: Config, me: DeviceId, to: DeviceId, kind: EventKind, payload: Payload, id: string, time: int,
    nonce: Bytes): EventEnvelope
    requires me in c.ids && to in c.ids
  {
    SealEvent(c.prim, c.ids[me], c.ids[to].public, DirectStreamId(me, to), kind, payload, id, time, nonce)
  }

  /** Operation `k` sends a request and waits for the answer, unless the request is too large. */
  ghost function Post(c: Config, w: World, k: nat, call: Call, reachedAt: Option<Endpoint>): World
    requires call.src in c.ids
  {
    if F.FitsFrame(c.ids[call.src].public, call.body) then
      w.(calls := w.calls + {call}, clients := w.clients[k := Waiting(call, reachedAt)])
    else w.(clients := w.clients - {k})
  }

  /** The server operation `k` ends with an answer, unless that is too large. */
  ghost function SendAnswer(c: Config, w: World, k: nat, a: Answer): World
    requires a.call.dst in c.ids
  {
    if F.FitsFrame(c.ids[a.call.dst].public, a.body) then w.(answers := w.answers + {a}, servers := w.servers - {k})
    else w.(servers := w.servers - {k})
  }

  /** `me` creates an event for `to`, inserts it and sends it. */
  ghost function Publish(
    c: Config, w: World, k: nat, me: DeviceId, to: DeviceId, kind: EventKind, payload: Payload, id: string, time: int,
    nonce: Bytes): World
    requires me in c.ids && to in c.ids && me in w.nodes
  {
    var e := NewEvent(c, me, to, kind, payload, id, time, nonce);
    var noted := w.(nodes := w.nodes[me := w.nodes[me].(events := Insert(w.nodes[me].events, e))],
                    minted := w.minted[id := Minted(e, to, payload)]);
    Post(c, noted, k, Call(k, me, to, PushEvent(e), w.clock, w.clock), None)
  }

  predicate CanReach(w: World, me: DeviceId, to: DeviceId) {
    me in w.nodes && me != to && Reachable(w.nodes[me], to)
  }

  predicate CanTalk(w: World, me: DeviceId, to: DeviceId) {
    CanReach(w, me, to) && IsPaired(w.nodes[me], to)
  }

  predicate AwaitsAnswer(w: World, k: nat, a: Answer) {
    k in w.clients && w.clients[k].Waiting? && w.clients[k].call == a.call && a in w.answers
  }

  function Upsert(w: World, n: DeviceId, p: Peer): World
    requires n in w.nodes
  {
    w.(nodes := w.nodes[n := w.nodes[n].(peers := UpsertPeer(w.nodes[n].peers, p))])
  }

  /** The answer of the handler at `me` once it has taken in all events of the request. */
  ghost function Reply(me: DeviceId, t: Tables, body: Message): Message
    requires KeyedById(t.events)
  {
    match body
    case PushEvent(e) => Ack(e.id)
    case SyncExchange(stream, known, _) => SyncResult(Unknown(known, OwnEvents(me, t, stream)))
    case _ => Error("not a request that carries events")
  }

  ghost function ReplyTo(w: World, call: Call): Message
    requires call.dst in w.nodes && KeyedById(w.nodes[call.dst].events)
  {
    Reply(call.dst, w.nodes[call.dst], call.body)
  }

  // ---------- When a step can be taken ----------

  ghost predicate Enabled(c: Config, w: World, step: Step) {
    match step
    case Learn(k, me, peer, _) => k !in w.clients && me in w.nodes && peer in c.ids && peer != me
    case LearnWrite(k, _) => k in w.clients && w.clients[k].Learning? && w.clients[k].me in w.nodes
    case AskPair(k, me, to, _) => k !in w.clients && CanReach(w, me, to) && me in c.ids
    case ServePair(k, call) => k !in w.servers && call in w.calls && call.body.PairRequest? && call.dst in w.nodes
    case ServePairWrite(k, _) =>
      k in w.servers && w.servers[k].PairRead? && w.servers[k].call.src in c.ids && w.servers[k].call.dst in w.nodes
    case ServePairAnswer(k) => k in w.servers && w.servers[k].PairWritten? && w.servers[k].call.dst in c.ids
    case FinishPair(k, a, _) =>
      && AwaitsAnswer(w, k, a) && a.body == PairResponse(true)
      && a.call.src in w.nodes && a.call.dst in c.ids
    case WriteText(k, me, to, _, id, _, _) =>
      k !in w.clients && CanTalk(w, me, to) && me in c.ids && to in c.ids && id !in w.minted
    case SaveFile(k, me, to, m) =>
      && k !in w.clients && CanTalk(w, me, to) && m.id !in w.catalog && Increasing(m.chunks)
      && HashesOf(m.chunks) <= w.nodes[me].blobs.Keys   // the chunks were stored first
    case WriteFile(k, id, _, _) =>
      && k in w.clients && w.clients[k].FileSaved? && id !in w.minted
      && w.clients[k].me in c.ids && w.clients[k].to in c.ids && w.clients[k].me in w.nodes
    case FinishPush(k, a) =>
      AwaitsAnswer(w, k, a) && a.call.body.PushEvent?
    case ReadKnown(k, me, to) => k !in w.clients && CanTalk(w, me, to)
    case SendSync(k) =>
      && k in w.clients && w.clients[k].KnownRead? && w.clients[k].me in c.ids
      && w.clients[k].me in w.nodes && KeyedById(w.nodes[w.clients[k].me].events)
    case Serve(k, call) =>
      && k !in w.servers && call in w.calls && call.dst in w.nodes && call.src in c.ids
      && Trusts(w.nodes[call.dst], c.ids[call.src].public)
      && (|| (call.body.PushEvent? && call.body.event.author == call.src)
          || (call.body.SyncExchange? && call.body.stream == DirectStreamId(call.dst, call.src)))
    case ServeNext(k) =>
      && k in w.servers && w.servers[k].Receiving?
      && w.servers[k].call.src in c.ids && w.servers[k].call.dst in c.ids && w.servers[k].call.dst in w.nodes
    case ServeAnswer(k) =>
      && k in w.servers && w.servers[k].Receiving? && w.servers[k].rest == [] && w.servers[k].saving == None
      && w.servers[k].call.dst in c.ids
      && w.servers[k].call.dst in w.nodes && KeyedById(w.nodes[w.servers[k].call.dst].events)
    case BeginMerge(k, a) =>
      AwaitsAnswer(w, k, a) && a.body.SyncResult?
    case MergeNext(k) =>
      && k in w.clients && w.clients[k].Merging?
      && w.clients[k].answer.call.src in c.ids && w.clients[k].answer.call.dst in c.ids
      && w.clients[k].answer.call.src in w.nodes
    case FinishMerge(k) =>
      k in w.clients && w.clients[k].Merging? && w.clients[k].rest == [] && w.clients[k].saving == None
    case DropClient(k) => k in w.clients && (w.clients[k].Merging? ==> w.clients[k].saving == None)
    case DropServer(k) => k in w.servers && (w.servers[k].Receiving? ==> w.servers[k].saving == None)
    case FileTraffic(me, t) => me in w.nodes && Fills(w.nodes[me], t) && Sound(c.prim, t)
  }

  // ---------- What a step does ----------

  ghost function Effect(c: Config, w: World, step: Step): World
    requires Enabled(c, w, step)
  {
    match step
    case Learn(k, me, peer, endpoint) =>
      w.(clients := w.clients[k := Learning(me, c.ids[peer].public, endpoint, IsPaired(w.nodes[me], peer))])
    case LearnWrite(k, now) =>
      var op := w.clients[k];
      Upsert(w, op.me, Peer(op.peer, Some(op.endpoint), op.paired, now)).(clients := w.clients - {k})
    case AskPair(k, me, to, pairingNonce) =>
      Post(c, w, k, Call(k, me, to, PairRequest(pairingNonce), w.clock, w.clock),
           LookupPeer(w.nodes[me].peers, to).value.endpoint)
    case ServePair(k, call) =>
      var known := LookupPeer(w.nodes[call.dst].peers, call.src);
      w.(servers := w.servers[k := PairRead(call, if known.Some? then known.value.endpoint else None)])
    case ServePairWrite(k, now) =>
      var op := w.servers[k];
      Upsert(w, op.call.dst, Peer(c.ids[op.call.src].public, op.endpoint, true, now))
        .(servers := w.servers[k := PairWritten(op.call)], handled := w.handled + {op.call})
    case ServePairAnswer(k) => SendAnswer(c, w, k, Answer(w.servers[k].call, PairResponse(true), w.clock))
    case FinishPair(k, a, now) =>
      Upsert(w, a.call.src,
        Peer(c.ids[a.call.dst].public, w.clients[k].reachedAt, true, now)).(clients := w.clients[k := Done(a)])
    case WriteText(k, me, to, text, id, time, nonce) =>
      Publish(c, w, k, me, to, TextKind, TextPayload(text), id, time, nonce)
    case SaveFile(k, me, to, m) =>
      w.(nodes := w.nodes[me := SaveManifest(w.nodes[me], to, m)],
         catalog := w.catalog[m.id := m],
         clients := w.clients[k := FileSaved(me, to, m)])
    case WriteFile(k, id, time, nonce) =>
      var op := w.clients[k];
      Publish(c, w, k, op.me, op.to, ManifestKind, ManifestPayload(op.manifest), id, time, nonce)
    case FinishPush(k, a) => w.(clients := w.clients[k := Done(a)])
    case ReadKnown(k, me, to) =>
      w.(clients := w.clients[k := KnownRead(me, to, StreamIds(w.nodes[me], DirectStreamId(me, to)), w.clock)])
    case SendSync(k) =>
      var op := w.clients[k];
      var stream := DirectStreamId(op.me, op.to);
      var body := SyncExchange(stream, op.known, OwnEvents(op.me, w.nodes[op.me], stream));
      Post(c, w, k, Call(k, op.me, op.to, body, w.clock, op.at), None)
    case Serve(k, call) => w.(servers := w.servers[k := Receiving(call, EventsIn(call.body), None)])
    case ServeNext(k) =>
      var op := w.servers[k];
      var r := ReceiveNext(c.prim, c.ids[op.call.dst], w.nodes[op.call.dst], c.ids[op.call.src].public, op.rest,
        op.saving);
      w.(nodes := w.nodes[op.call.dst := r.t],
         servers := if r.ok then w.servers[k := Receiving(op.call, r.rest, r.saving)] else w.servers - {k})
    case ServeAnswer(k) =>
      SendAnswer(c, w, k, Answer(w.servers[k].call, ReplyTo(w, w.servers[k].call), w.clock))
    case BeginMerge(k, a) => w.(clients := w.clients[k := Merging(a, EventsIn(a.body), None)])
    case MergeNext(k) =>
      var op := w.clients[k];
      var call := op.answer.call;
      var r := ReceiveNext(c.prim, c.ids[call.src], w.nodes[call.src], c.ids[call.dst].public, op.rest, op.saving);
      w.(nodes := w.nodes[call.src := r.t],
         clients := if r.ok then w.clients[k := Merging(op.answer, r.rest, r.saving)] else w.clients - {k})
    case FinishMerge(k) => w.(clients := w.clients[k := Done(w.clients[k].answer)])
    case DropClient(k) => w.(clients := w.clients - {k})
    case DropServer(k) => w.(servers := w.servers - {k})
    case FileTraffic(me, t) => w.(nodes := w.nodes[me := t])
  }

  ghost function Take(c: Config, w: World, step: Step): World
    requires Enabled(c, w, step)
  {
    Effect(c, w, step).(clock := w.clock + 1)
  }

  ghost predicate Next(c: Config, w: World, w': World) {
    exists step :: Enabled(c, w, step) && w' == Take(c, w, step)
  }

  ghost predicate Init(c: Config, w: World) {
    && w.nodes.Keys == c.ids.Keys
    && (forall n :: n in w.nodes ==> w.nodes[n] == EMPTY)
    && w == World(w.nodes, map[], map[], {}, {}, map[], map[], {}, 0)
  }

  /** Honest devices: known keys, ids as `validate_public_identity` demands. */
  ghost predicate ConfigOk(c: Config) {
    && Ideal(c.prim)
    && (forall d :: d in c.ids ==> c.ids[d].public.deviceId == d && WellKeyed(c.prim, c.ids[d]) && Text.Free(':', d))
    && (forall d :: d in c.ids ==> c.prim.validIdentity(c.ids[d].public))
  }

  ghost predicate IsRun(c: Config, run: seq<World>) {
    && ConfigOk(c) && run != [] && Init(c, run[0])
    && forall i :: 0 <= i < |run| - 1 ==> Next(c, run[i], run[i + 1])
  }

  ghost function Last(run: seq<World>): World
    requires run != []
  {
    run[|run| - 1]
  }

  // ---------- What sending leaves as it is ----------

  /** Steps in which an operation sends its request. */
  predicate Posts(step: Step) {
    step.AskPair? || step.WriteText? || step.WriteFile? || step.SendSync?
  }

  /** At most requests, logs with their records and the operation `k`, which waits or has ended, differ. */
  ghost predicate OnlyPosted(w: World, w': World, k: nat) {
    && w'.servers == w.servers && w'.answers == w.answers && w'.catalog == w.catalog && w'.handled == w.handled
    && (forall j :: j in w.clients && j != k ==> j in w'.clients && w'.clients[j] == w.clients[j])
    && (forall j :: j in w'.clients && j !in w.clients ==> j == k) && (k in w'.clients ==> w'.clients[k].Waiting?)
    && w'.nodes.Keys == w.nodes.Keys
    && (forall n :: n in w.nodes ==> w'.nodes[n] == w.nodes[n].(events := w'.nodes[n].events))
  }

  lemma PostFrame(c: Config, w: World, k: nat, call: Call, reachedAt: Option<Endpoint>)
    requires call.src in c.ids
    ensures var w' := Post(c, w, k, call, reachedAt);
            OnlyPosted(w, w', k) && w'.nodes == w.nodes && w'.minted == w.minted && w'.clock == w.clock
  {
    hide F.FitsFrame;
  }

  lemma PublishFrame(
    c: Config, w: World, k: nat, me: DeviceId, to: DeviceId, kind: EventKind, payload: Payload, id: string, time: int,
    nonce: Bytes)
    requires me in c.ids && to in c.ids && me in w.nodes
    ensures var w' := Publish(c, w, k, me, to, kind, payload, id, time, nonce);
      && OnlyPosted(w, w', k)
      && (forall n, id' :: n in w.nodes && id' in w'.nodes[n].events && id' !in w.nodes[n].events ==>
            n == me && id' == id)
      && w'.minted == w.minted[id := Minted(NewEvent(c, me, to, kind, payload, id, time, nonce), to, payload)]
      && w'.minted[id].event.author == c.ids[me].public.deviceId
  {
    var e := NewEvent(c, me, to, kind, payload, id, time, nonce);
    hide NewEvent;
    var noted := w.(nodes := w.nodes[me := w.nodes[me].(events := Insert(w.nodes[me].events, e))],
                    minted := w.minted[id := Minted(e, to, payload)]);
    PostFrame(c, noted, k, Call(k, me, to, PushEvent(e), w.clock, w.clock), None);
    hide Post;
  }

  lemma PublishLogs(
    c: Config, w: World, k: nat, me: DeviceId, to: DeviceId, kind: EventKind, payload: Payload, id: string, time: int,
    nonce: Bytes)
    requires me in c.ids && to in c.ids && me in w.nodes
    ensures
      var e := NewEvent(c, me, to, kind, payload, id, time, nonce);
      Publish(c, w, k, me, to, kind, payload, id, time, nonce).nodes
        == w.nodes[me := w.nodes[me].(events := Insert(w.nodes[me].events, e))]
  {
    hide NewEvent, F.FitsFrame, Insert;
  }

  lemma PostingFrame(c: Config, w: World, step: Step)
    requires Enabled(c, w, step) && Posts(step)
    ensures OnlyPosted(w, Effect(c, w, step), step.k)
    ensures step.k in w.clients ==> w.clients[step.k].FileSaved? || w.clients[step.k].KnownRead?
    ensures step.AskPair? || step.SendSync? ==>
              Effect(c, w, step).nodes == w.nodes && Effect(c, w, step).minted == w.minted
  {
    hide OwnEvents, KeyedById, StreamIds, Post, Publish, OnlyPosted;
    match step {
      case AskPair(k, me, to, pairingNonce) =>
        PostFrame(c, w, k, Call(k, me, to, PairRequest(pairingNonce), w.clock, w.clock),
          LookupPeer(w.nodes[me].peers, to).value.endpoint);
      case WriteText(k, me, to, text, id, time, nonce) =>
        PublishFrame(c, w, k, me, to, TextKind, TextPayload(text), id, time, nonce);
      case WriteFile(k, id, time, nonce) =>
        var op := w.clients[k];
        PublishFrame(c, w, k, op.me, op.to, ManifestKind, ManifestPayload(op.manifest), id, time, nonce);
      case SendSync(k) =>
        var op := w.clients[k];
        var stream := DirectStreamId(op.me, op.to);
        var body := SyncExchange(stream, op.known, OwnEvents(op.me, w.nodes[op.me], stream));
        PostFrame(c, w, k, Call(k, op.me, op.to, body, w.clock, op.at), None);
    }
  }
}
