/** From every reachable state of the network, whatever has been lost so far, two devices that hold each
    other as paired can still be brought to the same conversation by one more sync, exactly when its two
    frames fit. */
module Liveness {
  import opened Wrappers
  import opened Model
  import opened Crypto
  import opened EventLog
  import opened Tables
  import opened Protocol
  import F = Frames
  import opened Nodes
  import opened Network
  import opened Replication
  import opened ReplicationSteps
  import opened Convergence
  import opened Refinement
  import SyncLaws
  import RunLaws
  import ManifestLaws

  // ---------- Receiving writes nothing of one's own ----------

  lemma ReceivedIsByPeer(
    prim: Primitives, me: Identity, t: Tables, peer: PublicIdentity, rest: seq<EventEnvelope>,
    saving: Option<FileManifest>)
    ensures var t' := ReceiveNext(prim, me, t, peer, rest, saving).t;
      || t'.events == t.events
      || (rest != [] && rest[0].author == peer.deviceId && t'.events == Insert(t.events, rest[0]))
  {
    hide OpenItem, SaveManifest;
  }

  lemma InsertOfAnother(t: Tables, t': Tables, e: EventEnvelope, n: DeviceId, stream: string)
    requires t'.events == t.events || (e.author != n && t'.events == Insert(t.events, e))
    ensures forall x :: x in Stream(t'.events, stream) && x.author == n <==>
      x in Stream(t.events, stream) && x.author == n
  {
    if t'.events != t.events {
      forall x | x in Stream(t.events, stream) && x.author == n
        ensures x in Stream(t'.events, stream)
      {
        var id :| id in t.events && t.events[id] == x;
        assert id in t'.events && t'.events[id] == x;
      }
    }
  }

  /** Only creating an event adds to what a device has written. */
  lemma OnlyWritersWrite(c: Config, w: World, step: Step, n: DeviceId, peer: DeviceId)
    requires Inv(c, w) && Enabled(c, w, step) && !step.WriteText? && !step.WriteFile? && n in w.nodes
    requires n in Take(c, w, step).nodes
    ensures Written(Take(c, w, step), n, peer) == Written(w, n, peer)
  {
    hide Inv, Enabled, Take;
    match step {
      case MergeNext(k) => MergeWritesNothing(c, w, k, n, peer);
      case ServeNext(k) => ServeWritesNothing(c, w, k, n, peer);
      case _ => ManifestLaws.OtherLogs(c, w, step, n);
    }
  }

  lemma MergeWritesNothing(c: Config, w: World, k: nat, n: DeviceId, peer: DeviceId)
    requires Inv(c, w) && Enabled(c, w, MergeNext(k)) && n in w.nodes && n in Take(c, w, MergeNext(k)).nodes
    ensures Written(Take(c, w, MergeNext(k)), n, peer) == Written(w, n, peer)
  {
    hide Inv, ReceiveNext, Written, LoopOk, AnswerOk;
    var op := w.clients[k];
    var call := op.answer.call;
    ClientFact(c, w, k);
    MergesFrom(c, w, op.answer);
    DeviceKeys(c, w);
    LoopWritesNothing(c, w, Take(c, w, MergeNext(k)), call.src, call.dst, op.rest, op.saving, n, peer);
  }

  lemma ServeWritesNothing(c: Config, w: World, k: nat, n: DeviceId, peer: DeviceId)
    requires Inv(c, w) && Enabled(c, w, ServeNext(k)) && n in w.nodes && n in Take(c, w, ServeNext(k)).nodes
    ensures Written(Take(c, w, ServeNext(k)), n, peer) == Written(w, n, peer)
  {
    hide Inv, ReceiveNext, Written, ServerOk, CallOk, UpsertPeer, Sound, Fills, CanTalk;
    var op := w.servers[k];
    ServerFact(c, w, k);
    CallEnds(c, w, op.call);
    DeviceKeys(c, w);
    LoopWritesNothing(c, w, Take(c, w, ServeNext(k)), op.call.dst, op.call.src, op.rest, op.saving, n, peer);
  }

  lemma LoopWritesNothing(
    c: Config, w: World, w': World, me: DeviceId, src: DeviceId, rest: seq<EventEnvelope>, saving: Option<FileManifest>,
    n: DeviceId, peer: DeviceId)
    requires me in c.ids && src in c.ids && me != src && me in w.nodes && c.ids[src].public.deviceId == src
    requires w'.nodes == w.nodes[me := ReceiveNext(c.prim, c.ids[me], w.nodes[me], c.ids[src].public, rest, saving).t]
    requires n in w.nodes
    ensures Written(w', n, peer) == Written(w, n, peer)
  {
    hide ReceiveNext, Stream;
    ReceivedIsByPeer(c.prim, c.ids[me], w.nodes[me], c.ids[src].public, rest, saving);
    var t' := w'.nodes[n];
    if n == me && t'.events != w.nodes[n].events {
      InsertOfAnother(w.nodes[n], t', rest[0], n, DirectStreamId(n, peer));
    }
  }

  // ---------- Continuing a run ----------

  /** `longer` continues `run` without `A` or `B` writing anything for each other. */
  ghost predicate Continues(c: Config, run: seq<World>, longer: seq<World>, A: DeviceId, B: DeviceId) {
    && run != [] && IsRun(c, longer) && |run| <= |longer| && longer[..|run|] == run
    && A in Last(run).nodes && B in Last(run).nodes
    && forall i :: |run| - 1 <= i < |longer| ==> SameWritings(Last(run), longer[i], A, B)
  }

  ghost predicate SameWritings(w: World, w': World, A: DeviceId, B: DeviceId) {
    && A in w.nodes && B in w.nodes && A in w'.nodes && B in w'.nodes
    && Written(w', A, B) == Written(w, A, B) && Written(w', B, A) == Written(w, B, A)
  }

  lemma ContinuesItself(c: Config, run: seq<World>, A: DeviceId, B: DeviceId)
    requires IsRun(c, run) && A in Last(run).nodes && B in Last(run).nodes
    ensures Continues(c, run, run, A, B)
  {
  }

  lemma Go(
    c: Config, run: seq<World>, now: seq<World>, A: DeviceId, B: DeviceId, step: Step) returns (longer: seq<World>)
    requires Continues(c, run, now, A, B) && Enabled(c, Last(now), step) && !step.WriteText? && !step.WriteFile?
    ensures |longer| == |now| + 1 && Last(longer) == Take(c, Last(now), step)
    ensures Continues(c, run, longer, A, B) && Inv(c, Last(longer)) && Grows(Last(now), Last(longer))
    ensures Last(now).clock == |now| - 1 && |run| <= |now|
  {
    hide Inv, Enabled, Take, Written, Grows, Init;
    var w := Last(now);
    longer := now + [Take(c, w, step)];
    RunKeepsInv(c, now);
    StepKeepsInv(c, w, step);
    assert Next(c, w, Take(c, w, step)) by { StepIsNext(c, w, step); }
    hide Next;
    assert SameWritings(Last(run), w, A, B);
    DevicesStay(w, Take(c, w, step));
    OnlyWritersWrite(c, w, step, A, B);
    OnlyWritersWrite(c, w, step, B, A);
    assert longer[..|run|] == now[..|run|];
    assert forall i :: 0 <= i < |now| ==> longer[i] == now[i];
  }

  lemma StepIsNext(c: Config, w: World, step: Step)
    requires Enabled(c, w, step)
    ensures Next(c, w, Take(c, w, step))
  {
  }

  lemma DevicesStay(w: World, w': World)
    requires Grows(w, w')
    ensures w'.nodes.Keys == w.nodes.Keys
  {
  }

  lemma FreshKey<T>(m: map<nat, T>) returns (k: nat)
    ensures k !in m
  {
    k := 0;
    var below: set<nat> := {};
    while k in m
      invariant forall i :: i in below ==> i < k
      invariant below <= m.Keys && |below| == k <= |m.Keys|
      decreases |m.Keys| - k
    {
      below := below + {k};
      k := k + 1;
      SubsetSize(below, m.Keys);
    }
  }

  lemma {:induction false} SubsetSize(a: set<nat>, b: set<nat>)
    requires a <= b
    ensures |a| <= |b|
  {
    if a != {} {
      var x :| x in a;
      SubsetSize(a - {x}, b - {x});
    }
  }

  // ---------- The parts of a sync ----------

  function Left(rest: seq<EventEnvelope>, saving: Option<FileManifest>): nat {
    2 * |rest| + if saving.Some? then 1 else 0
  }

  lemma ReceiveShrinks(
    prim: Primitives, me: Identity, t: Tables, peer: PublicIdentity, rest: seq<EventEnvelope>,
    saving: Option<FileManifest>)
    requires Left(rest, saving) > 0 && ReceiveNext(prim, me, t, peer, rest, saving).ok
    ensures var r := ReceiveNext(prim, me, t, peer, rest, saving); Left(r.rest, r.saving) < Left(rest, saving)
  {
    hide OpenItem, SaveManifest;
  }

  lemma ReadBegins(c: Config, w: World, k: nat, A: DeviceId, B: DeviceId)
    requires k !in w.clients && CanTalk(w, A, B)
    ensures Enabled(c, w, ReadKnown(k, A, B))
    ensures var w' := Take(c, w, ReadKnown(k, A, B));
      && w'.servers == w.servers && w'.nodes == w.nodes
      && k in w'.clients && w'.clients[k] == KnownRead(A, B, StreamIds(w.nodes[A], DirectStreamId(A, B)), w.clock)
  {
    hide CanTalk, StreamIds;
  }

  lemma SendBegins(c: Config, w: World, k: nat)
    requires k in w.clients && w.clients[k].KnownRead? && w.clients[k].me in w.nodes
    requires KeyedById(w.nodes[w.clients[k].me].events) && w.clients[k].me in c.ids
    requires
      var op := w.clients[k];
      var stream := DirectStreamId(op.me, op.to);
      F.FitsFrame(
        c.ids[op.me].public, SyncExchange(stream, op.known, OwnEvents(op.me, w.nodes[op.me], stream)))
    ensures Enabled(c, w, SendSync(k))
    ensures var w' := Take(c, w, SendSync(k));
      && w'.servers == w.servers && w'.nodes == w.nodes
      && k in w'.clients && w'.clients[k].Waiting? && w'.clients[k].reachedAt == None
      && var call := w'.clients[k].call;
      && call in w'.calls && call.at == w.clock && call.since == w.clients[k].at
      && call.src == w.clients[k].me && call.dst == w.clients[k].to
      && var stream := DirectStreamId(call.src, call.dst);
      call.body == SyncExchange(stream, w.clients[k].known, OwnEvents(call.src, w.nodes[call.src], stream))
  {
    hide OwnEvents, KeyedById, F.FitsFrame;
  }

  /** The request goes out. */
  lemma Ask(c: Config, run: seq<World>, A: DeviceId, B: DeviceId, k: nat) returns (now: seq<World>, call: Call)
    requires IsRun(c, run) && CanTalk(Last(run), A, B) && B in Last(run).nodes && k !in Last(run).clients
    requires A in c.ids && KeyedById(Last(run).nodes[A].events)
    requires
      var a, S := Last(run).nodes[A], DirectStreamId(A, B);
      F.FitsFrame(c.ids[A].public, SyncExchange(S, StreamIds(a, S), OwnEvents(A, a, S)))
    ensures now != [] && Continues(c, run, now, A, B) && Inv(c, Last(now)) && Grows(Last(run), Last(now))
    ensures Last(now).servers == Last(run).servers
    ensures k in Last(now).clients && Last(now).clients[k] == Waiting(call, None) && call in Last(now).calls
    ensures call.src == A && call.dst == B && call.since == |run| - 1 <= call.at
    ensures Last(now).nodes == Last(run).nodes && A in Last(run).nodes && KeyedById(Last(run).nodes[A].events)
    ensures
      var a, S := Last(run).nodes[A], DirectStreamId(A, B);
      call.body == SyncExchange(S, StreamIds(a, S), OwnEvents(A, a, S))
  {
    hide Inv, Continues, Grows, CanTalk, KeyedById, Enabled, Take, Next, Init, F.FitsFrame, OwnEvents, StreamIds;
    RunKeepsInv(c, run);
    TalksToDevice(c, Last(run), A, B);
    DeviceKeys(c, Last(run));
    ContinuesItself(c, run, A, B);
    ReadBegins(c, Last(run), k, A, B);
    var read := Go(c, run, run, A, B, ReadKnown(k, A, B));
    DeviceKeys(c, Last(read));
    KeyedFact(c, Last(read), A);
    KeyedFact(c, Last(run), A);
    SendBegins(c, Last(read), k);
    now := Go(c, run, read, A, B, SendSync(k));
    GrowsTransitive(Last(run), Last(read), Last(now));
    call := Last(now).clients[k].call;
  }

  lemma CanServe(c: Config, w: World, s: nat, call: Call)
    requires Inv(c, w) && call in w.calls && call.body.SyncExchange? && Holding(w, call.dst, call.src)
    requires s !in w.servers
    ensures Enabled(c, w, Serve(s, call))
  {
    hide Inv, RecordsOk, NodesOk, OpsOk, Sound, ManifestsOk;
    DeviceKeys(c, w);
    CallFact(c, w, call);
    NodeHas(c, w, call.dst);
    StreamIdSymmetric(call.src, call.dst);
  }

  /** The receiving loop of the server runs to its end. */
  lemma {:induction false} ServeAll(
    c: Config, run: seq<World>, now: seq<World>, A: DeviceId, B: DeviceId, s: nat) returns (longer: seq<World>)
    requires now != [] && Continues(c, run, now, A, B) && Inv(c, Last(now)) && s in Last(now).servers
    requires Last(now).servers[s].Receiving?
    ensures longer != [] && Continues(c, run, longer, A, B) && Inv(c, Last(longer))
    ensures Last(longer).clients == Last(now).clients
    ensures s in Last(longer).servers && Last(longer).servers[s] == Receiving(Last(now).servers[s].call, [], None)
    ensures
      var op := Last(now).servers[s];
      && op.call.src in c.ids && op.call.dst in c.ids && op.call.dst in Last(now).nodes
      && var t := Drain(c.prim, c.ids[op.call.dst], Last(now).nodes[op.call.dst], c.ids[op.call.src].public, op.rest,
         op.saving);
      t.1 && Last(longer).nodes == Last(now).nodes[op.call.dst := t.0]
    decreases Left(Last(now).servers[s].rest, Last(now).servers[s].saving)
  {
    hide Inv, Continues, Grows, Enabled, Take, Next, Init;
    var op := Last(now).servers[s];
    ServeDevices(c, Last(now), s);
    if Left(op.rest, op.saving) == 0 {
      longer := now;
      DrainNothing(c.prim, c.ids[op.call.dst], Last(now).nodes[op.call.dst], c.ids[op.call.src].public);
    } else {
      ServeTurn(c, Last(now), s);
      longer := Go(c, run, now, A, B, ServeNext(s));
      longer := ServeAll(c, run, longer, A, B, s);
    }
  }

  lemma ServeDevices(c: Config, w: World, s: nat)
    requires Inv(c, w) && s in w.servers && w.servers[s].Receiving?
    ensures
      var call := w.servers[s].call;
      call.src in c.ids && call.dst in c.ids && call.dst in w.nodes && call.src != call.dst
  {
    hide Inv, LoopOk, NodesOk, RecordsOk;
    ServerFact(c, w, s);
    DeviceKeys(c, w);
    CallEnds(c, w, w.servers[s].call);
  }

  lemma DrainNothing(prim: Primitives, me: Identity, t: Tables, peer: PublicIdentity)
    ensures Drain(prim, me, t, peer, [], None) == (t, true)
  {
  }

  lemma ServeTurn(c: Config, w: World, s: nat)
    requires Inv(c, w) && s in w.servers && w.servers[s].Receiving? && Left(w.servers[s].rest, w.servers[s].saving) > 0
    ensures Enabled(c, w, ServeNext(s))
    ensures var w' := Take(c, w, ServeNext(s));
      && w'.clients == w.clients && s in w'.servers && w'.servers[s].Receiving?
      && w'.servers[s].call == w.servers[s].call
      && var op := w.servers[s];
      && op.call.src in c.ids && op.call.dst in c.ids && op.call.dst in w.nodes
      && var r := ReceiveNext(
           c.prim, c.ids[op.call.dst], w.nodes[op.call.dst], c.ids[op.call.src].public, op.rest, op.saving);
      && r.ok && w'.nodes == w.nodes[op.call.dst := r.t] && w'.servers[s] == Receiving(op.call, r.rest, r.saving)
      && Left(w'.servers[s].rest, w'.servers[s].saving) < Left(w.servers[s].rest, w.servers[s].saving)
  {
    hide Inv, ReceiveNext, LoopOk, Grows, NodesOk, RecordsOk;
    var op := w.servers[s];
    var call := op.call;
    ServerFact(c, w, s);
    DeviceKeys(c, w);
    ServesFrom(c, w, call);
    hide CallOk, FromTo;
    ReceiveKept(c, w, call.dst, call.src, EventsIn(call.body), op.rest, op.saving);
    ReceiveShrinks(c.prim, c.ids[call.dst], w.nodes[call.dst], c.ids[call.src].public, op.rest, op.saving);
  }

  lemma AnswerBegins(c: Config, w: World, s: nat)
    requires s in w.servers && w.servers[s].Receiving? && w.servers[s].rest == [] && w.servers[s].saving == None
    requires w.servers[s].call.dst in w.nodes && KeyedById(w.nodes[w.servers[s].call.dst].events)
    requires w.servers[s].call.dst in c.ids
    requires F.FitsFrame(c.ids[w.servers[s].call.dst].public, ReplyTo(w, w.servers[s].call))
    ensures Enabled(c, w, ServeAnswer(s))
    ensures var w' := Take(c, w, ServeAnswer(s));
      && w'.clients == w.clients && w'.nodes == w.nodes
      && var call := w.servers[s].call;
      && Answer(call, ReplyTo(w, call), w.clock) in w'.answers
      && (call.body.SyncExchange? ==>
          ReplyTo(w, call)
          == SyncResult(Unknown(call.body.known, OwnEvents(call.dst, w.nodes[call.dst], call.body.stream))))
  {
    hide OwnEvents, KeyedById, F.FitsFrame;
  }

  /** The server answers. */
  lemma Respond(c: Config, run: seq<World>, now: seq<World>, A: DeviceId, B: DeviceId, s: nat, call: Call)
    returns (longer: seq<World>, a: Answer)
    requires now != [] && Continues(c, run, now, A, B) && Inv(c, Last(now)) && call.body.SyncExchange?
    requires s in Last(now).servers && Last(now).servers[s] == Receiving(call, [], None)
    requires call.dst in c.ids && call.dst in Last(now).nodes && KeyedById(Last(now).nodes[call.dst].events)
    requires F.FitsFrame(c.ids[call.dst].public,
      SyncResult(Unknown(call.body.known, OwnEvents(call.dst, Last(now).nodes[call.dst], call.body.stream))))
    ensures longer != [] && Continues(c, run, longer, A, B) && Inv(c, Last(longer))
    ensures Last(longer).clients == Last(now).clients
    ensures a in Last(longer).answers && a.call == call && |run| - 1 <= a.at
    ensures Last(longer).nodes == Last(now).nodes && call.dst in Last(now).nodes
    ensures KeyedById(Last(now).nodes[call.dst].events)
    ensures a.body
         == SyncResult(Unknown(call.body.known, OwnEvents(call.dst, Last(now).nodes[call.dst], call.body.stream)))
  {
    hide Inv, Continues, Grows, Enabled, Take, KeyedById, F.FitsFrame, OwnEvents;
    AnswerBegins(c, Last(now), s);
    longer := Go(c, run, now, A, B, ServeAnswer(s));
    a := Answer(call, ReplyTo(Last(now), call), Last(now).clock);
  }

  /** The receiving loop of the client runs to its end. */
  lemma {:induction false} MergeAll(
    c: Config, run: seq<World>, now: seq<World>, A: DeviceId, B: DeviceId, k: nat) returns (longer: seq<World>)
    requires now != [] && Continues(c, run, now, A, B) && Inv(c, Last(now)) && k in Last(now).clients
    requires Last(now).clients[k].Merging?
    ensures longer != [] && Continues(c, run, longer, A, B) && Inv(c, Last(longer))
    ensures k in Last(longer).clients && Last(longer).clients[k] == Merging(Last(now).clients[k].answer, [], None)
    ensures
      var op := Last(now).clients[k];
      var call := op.answer.call;
      && call.src in c.ids && call.dst in c.ids && call.src in Last(now).nodes
      && var t := Drain(c.prim, c.ids[call.src], Last(now).nodes[call.src], c.ids[call.dst].public, op.rest, op.saving);
      t.1 && Last(longer).nodes == Last(now).nodes[call.src := t.0]
    decreases Left(Last(now).clients[k].rest, Last(now).clients[k].saving)
  {
    hide Inv, Continues, Grows, Enabled, Take, Next, Init;
    var op := Last(now).clients[k];
    MergeDevices(c, Last(now), k);
    if Left(op.rest, op.saving) == 0 {
      longer := now;
      DrainNothing(
        c.prim, c.ids[op.answer.call.src], Last(now).nodes[op.answer.call.src], c.ids[op.answer.call.dst].public);
    } else {
      MergeTurn(c, Last(now), k);
      longer := Go(c, run, now, A, B, MergeNext(k));
      longer := MergeAll(c, run, longer, A, B, k);
    }
  }

  lemma MergeDevices(c: Config, w: World, k: nat)
    requires Inv(c, w) && k in w.clients && w.clients[k].Merging?
    ensures
      var call := w.clients[k].answer.call;
      call.src in c.ids && call.dst in c.ids && call.src in w.nodes && call.src != call.dst
  {
    hide Inv, LoopOk, NodesOk, RecordsOk;
    ClientFact(c, w, k);
    DeviceKeys(c, w);
    MergesFrom(c, w, w.clients[k].answer);
  }

  lemma MergeTurn(c: Config, w: World, k: nat)
    requires Inv(c, w) && k in w.clients && w.clients[k].Merging? && Left(w.clients[k].rest, w.clients[k].saving) > 0
    ensures Enabled(c, w, MergeNext(k))
    ensures var w' := Take(c, w, MergeNext(k));
      && k in w'.clients && w'.clients[k].Merging? && w'.clients[k].answer == w.clients[k].answer
      && var op := w.clients[k];
      var call := op.answer.call;
      && call.src in c.ids && call.dst in c.ids && call.src in w.nodes
      && var r := ReceiveNext(c.prim, c.ids[call.src], w.nodes[call.src], c.ids[call.dst].public, op.rest, op.saving);
      && r.ok && w'.nodes == w.nodes[call.src := r.t] && w'.clients[k] == Merging(op.answer, r.rest, r.saving)
      && Left(w'.clients[k].rest, w'.clients[k].saving) < Left(w.clients[k].rest, w.clients[k].saving)
  {
    hide Inv, ReceiveNext, LoopOk, Grows, NodesOk, RecordsOk;
    var op := w.clients[k];
    var call := op.answer.call;
    ClientFact(c, w, k);
    DeviceKeys(c, w);
    MergesFrom(c, w, op.answer);
    hide FromTo;
    ReceiveKept(c, w, call.src, call.dst, op.answer.body.events, op.rest, op.saving);
    ReceiveShrinks(c.prim, c.ids[call.src], w.nodes[call.src], c.ids[call.dst].public, op.rest, op.saving);
  }

  /** The client takes in the answer and is done. */
  lemma Conclude(
    c: Config, run: seq<World>, now: seq<World>, A: DeviceId, B: DeviceId, k: nat, a: Answer)
    returns (longer: seq<World>)
    requires now != [] && Continues(c, run, now, A, B) && Inv(c, Last(now)) && a in Last(now).answers
    requires a.body.SyncResult?
    requires k in Last(now).clients && Last(now).clients[k].Waiting? && Last(now).clients[k].call == a.call
    requires a.call.body.SyncExchange?
    ensures longer != [] && Continues(c, run, longer, A, B) && SyncDone(Last(longer), k, a)
    ensures a.call.src in c.ids && a.call.dst in c.ids && a.call.src in Last(now).nodes
    ensures
      var t := Drain(c.prim, c.ids[a.call.src], Last(now).nodes[a.call.src], c.ids[a.call.dst].public, a.body.events,
        None);
      t.1 && Last(longer).nodes == Last(now).nodes[a.call.src := t.0]
  {
    hide Inv, Continues, Grows, Enabled, Take;
    MergeBegins(c, Last(now), k, a);
    longer := Go(c, run, now, A, B, BeginMerge(k, a));
    longer := MergeAll(c, run, longer, A, B, k);
    MergeEnds(c, Last(longer), k);
    longer := Go(c, run, longer, A, B, FinishMerge(k));
  }

  lemma MergeBegins(c: Config, w: World, k: nat, a: Answer)
    requires a in w.answers && a.body.SyncResult? && k in w.clients && w.clients[k].Waiting?
    requires w.clients[k].call == a.call
    ensures Enabled(c, w, BeginMerge(k, a))
    ensures var w' := Take(c, w, BeginMerge(k, a));
      w'.nodes == w.nodes && k in w'.clients && w'.clients[k] == Merging(a, a.body.events, None)
  {
  }

  lemma MergeEnds(c: Config, w: World, k: nat)
    requires k in w.clients && w.clients[k].Merging? && w.clients[k].rest == [] && w.clients[k].saving == None
    ensures Enabled(c, w, FinishMerge(k))
    ensures var w' := Take(c, w, FinishMerge(k));
      w'.nodes == w.nodes && k in w'.clients && w'.clients[k] == Done(w.clients[k].answer)
  {
  }

  // ---------- Main result ----------

  /** The client asks, the server takes in the events and answers, all undisturbed. */
  lemma AskAndAnswer(
    c: Config, run: seq<World>, A: DeviceId, B: DeviceId, k: nat, s: nat) returns (longer: seq<World>, a: Answer)
    requires IsRun(c, run) && CanTalk(Last(run), A, B) && Holding(Last(run), B, A)
    requires A in Last(run).nodes && B in Last(run).nodes
    requires k !in Last(run).clients && s !in Last(run).servers && A in c.ids && B in c.ids
    requires SyncLaws.Coherent(c.prim, c.ids[A], c.ids[B], Last(run).nodes[A], Last(run).nodes[B])
    requires c.ids[A].public.deviceId == A && c.ids[B].public.deviceId == B
    requires KeyedById(Last(run).nodes[A].events) && KeyedById(Last(run).nodes[B].events)
    requires SyncLaws.ExchangeFits(c.ids[A], c.ids[B], Last(run).nodes[A], Last(run).nodes[B])
    ensures longer != [] && Continues(c, run, longer, A, B) && Inv(c, Last(longer))
    ensures a in Last(longer).answers && a.call.src == A && a.call.dst == B
    ensures a.call.since == |run| - 1 <= a.call.at && |run| - 1 <= a.at
    ensures k in Last(longer).clients && Last(longer).clients[k].Waiting? && Last(longer).clients[k].call == a.call
    ensures var S := DirectStreamId(A, B);
      a.call.body == SyncExchange(S, StreamIds(Last(run).nodes[A], S), OwnEvents(A, Last(run).nodes[A], S))
    ensures
      var (b', served) := Drain(c.prim, c.ids[B], Last(run).nodes[B], c.ids[A].public, a.call.body.events, None);
      && served && KeyedById(b'.events) && Last(longer).nodes == Last(run).nodes[B := b']
      && a.body == SyncResult(Unknown(a.call.body.known, OwnEvents(B, b', a.call.body.stream)))
  {
    hide Inv, Next, Init, Continues, Grows, CanTalk, Holding, Enabled, Take, Drain, OwnEvents, StreamIds, KeyedById;
    hide F.FitsFrame, SyncLaws.Coherent;
    RequestFits(c, Last(run), A, B);
    var call;
    longer, call := Ask(c, run, A, B, k);
    HoldingGrows(Last(run), Last(longer), B, A);
    CanServe(c, Last(longer), s, call);
    var asked := Last(longer);
    longer := Go(c, run, longer, A, B, Serve(s, call));
    ServeBegins(c, asked, s, call);
    longer := ServeAll(c, run, longer, A, B, s);
    AnswerFits(c, Last(run), Last(longer), A, B, call);
    longer, a := Respond(c, run, longer, A, B, s, call);
  }

  lemma RequestFits(c: Config, w: World, A: DeviceId, B: DeviceId)
    requires A in c.ids && B in c.ids && c.ids[A].public.deviceId == A && c.ids[B].public.deviceId == B
    requires A in w.nodes && B in w.nodes && KeyedById(w.nodes[A].events) && KeyedById(w.nodes[B].events)
    requires SyncLaws.ExchangeFits(c.ids[A], c.ids[B], w.nodes[A], w.nodes[B])
    ensures
      var a, S := w.nodes[A], DirectStreamId(A, B);
      F.FitsFrame(c.ids[A].public, SyncExchange(S, StreamIds(a, S), OwnEvents(A, a, S)))
  {
    hide F.FitsFrame, OwnEvents, StreamIds;
  }

  /** What the server answers after it has taken in the events is what it would have answered before. */
  lemma AnswerFits(c: Config, w: World, w': World, A: DeviceId, B: DeviceId, call: Call)
    requires A in c.ids && B in c.ids && c.ids[A].public.deviceId == A && c.ids[B].public.deviceId == B
    requires A in w.nodes && B in w.nodes && B in w'.nodes
    requires KeyedById(w.nodes[A].events) && KeyedById(w.nodes[B].events)
    requires SyncLaws.Coherent(c.prim, c.ids[A], c.ids[B], w.nodes[A], w.nodes[B])
    requires SyncLaws.ExchangeFits(c.ids[A], c.ids[B], w.nodes[A], w.nodes[B])
    requires
      var S := DirectStreamId(A, B);
      call.body == SyncExchange(S, StreamIds(w.nodes[A], S), OwnEvents(A, w.nodes[A], S))
    requires w'.nodes[B] == Drain(c.prim, c.ids[B], w.nodes[B], c.ids[A].public, call.body.events, None).0
    ensures KeyedById(w'.nodes[B].events)
    ensures F.FitsFrame(c.ids[B].public,
      SyncResult(Unknown(call.body.known, OwnEvents(B, w'.nodes[B], call.body.stream))))
  {
    hide F.FitsFrame, OwnEvents, StreamIds, Drain, AdmitAll, SyncLaws.Coherent;
    DrainIsAdmitAll(c.prim, c.ids[B], w.nodes[B], c.ids[A].public, call.body.events);
    SyncLaws.AnsweredBefore(c.prim, c.ids[A], c.ids[B], w.nodes[A], w.nodes[B]);
  }

  /** A sync of `A` with `B` that lies in the continuation `longer` of `run`, while neither writes anything for the
      other and until whose start nothing of their conversation arrives at `A`. */
  ghost predicate Undisturbed(
    c: Config, run: seq<World>, longer: seq<World>, A: DeviceId, B: DeviceId, k: nat, a: Answer)
  {
    && Continues(c, run, longer, A, B) && longer != [] && SyncDone(Last(longer), k, a)
    && a.call.src == A && a.call.dst == B
    && |run| - 1 <= a.call.since < |longer| && |run| - 1 <= a.call.at < |longer| && |run| - 1 <= a.at < |longer|
    && A in longer[a.call.since].nodes && A in Last(run).nodes
    && var S := DirectStreamId(A, B);
    StreamIds(longer[a.call.since].nodes[A], S) == StreamIds(Last(run).nodes[A], S)
  }

  /** From every reachable state in which `A` can talk to `B`, `B` holds `A` as paired and the two frames fit, the
      run has a continuation in which a sync of `A` with `B` completes and leaves the two logs equal. It is the
      one in which the steps of the sync follow each other, and then they amount to an `Exchange`. */
  lemma FittingSyncConverges(c: Config, run: seq<World>, A: DeviceId, B: DeviceId)
    returns (longer: seq<World>, k: nat, a: Answer)
    requires IsRun(c, run) && CanTalk(Last(run), A, B) && Holding(Last(run), B, A)
    requires SyncFits(c, Last(run), A, B)
    ensures Undisturbed(c, run, longer, A, B, k, a)
    ensures A in Last(longer).nodes && B in Last(longer).nodes
    ensures Stream(Last(longer).nodes[A].events, DirectStreamId(A, B))
         == Stream(Last(longer).nodes[B].events, DirectStreamId(A, B))
    ensures A in c.ids && B in c.ids && A in Last(run).nodes && B in Last(run).nodes
    ensures Sound(c.prim, Last(run).nodes[A]) && Sound(c.prim, Last(run).nodes[B])
    ensures
      var (a', b', ok) := SyncLaws.Exchange(c.prim, c.ids[A], c.ids[B], Last(run).nodes[A], Last(run).nodes[B]);
      ok && Last(longer).nodes == Last(run).nodes[A := a'][B := b']
  {
    hide Inv, CanTalk, Holding, Next, Init, Drain, OwnEvents, StreamIds, Stream, SyncLaws.Exchange, Continues;
    hide SyncLaws.ExchangeFits, SyncLaws.Coherent;
    k := FreshKey(Last(run).clients);
    var s := FreshKey(Last(run).servers);
    RunKeepsInv(c, run);
    TalksToDevice(c, Last(run), A, B);
    DeviceKeys(c, Last(run));
    KeyedFact(c, Last(run), A);
    KeyedFact(c, Last(run), B);
    RunLaws.PairIsCoherent(c, run, A, B);
    hide IsRun, Sound, KeyedById;
    longer, a := AskAndAnswer(c, run, A, B, k, s);
    longer := Conclude(c, run, longer, A, B, k, a);
    TurnsAreExchange(c, Last(run), Last(longer), A, B, a);
    ContinuesMeans(c, run, longer, A, B);
    AllDelivered(c, run, longer, A, B, k, a);
    LiesWithin(c, run, longer, A, B, k, a);
  }

  /** The two frames of a sync of `A` with `B` fit, as computed from the two stores. */
  ghost predicate SyncFits(c: Config, w: World, A: DeviceId, B: DeviceId) {
    && A in c.ids && B in c.ids && A in w.nodes && B in w.nodes
    && KeyedById(w.nodes[A].events) && KeyedById(w.nodes[B].events)
    && SyncLaws.ExchangeFits(c.ids[A], c.ids[B], w.nodes[A], w.nodes[B])
  }

  lemma LiesWithin(c: Config, run: seq<World>, longer: seq<World>, A: DeviceId, B: DeviceId, k: nat, a: Answer)
    requires Continues(c, run, longer, A, B) && longer != [] && SyncDone(Last(longer), k, a)
    requires a.call.src == A && a.call.dst == B && |run| - 1 == a.call.since <= a.call.at && |run| - 1 <= a.at
    ensures Undisturbed(c, run, longer, A, B, k, a)
  {
    hide SameWritings, IsRun, StreamIds;
    SyncDelivers(c, longer, k, a);
    assert longer[|run| - 1] == longer[..|run|][|run| - 1];
  }

  /** A sync that is not disturbed completes only if its frames, computed from the stores at its start, fit. */
  lemma UndisturbedFits(c: Config, run: seq<World>, longer: seq<World>, A: DeviceId, B: DeviceId, k: nat, a: Answer)
    requires Undisturbed(c, run, longer, A, B, k, a)
    ensures SyncFits(c, Last(run), A, B)
    ensures A in Last(longer).nodes && B in Last(longer).nodes
    ensures Stream(Last(longer).nodes[A].events, DirectStreamId(A, B))
         == Stream(Last(longer).nodes[B].events, DirectStreamId(A, B))
  {
    hide IsRun, Inv, OwnEvents, StreamIds, F.FitsFrame, Stamped, Stream, KeyedById;
    RunKeepsInv(c, longer);
    RunStamped(c, longer);
    ClientFact(c, Last(longer), k);
    AnswerFact(c, Last(longer), a);
    CallEnds(c, Last(longer), a.call);
    FullStamp(c, longer, a);
    PrefixInv(c, run, longer, A, B);
    KeyedFact(c, Last(run), A);
    KeyedFact(c, Last(run), B);
    DeviceKeys(c, Last(run));
    SameOwn(Last(run), longer[a.call.at], A, B);
    SameOwn(Last(run), longer[a.at], B, A);
    StreamIdSymmetric(A, B);
    AllDelivered(c, run, longer, A, B, k, a);
  }

  lemma FullStamp(c: Config, run: seq<World>, a: Answer)
    requires run != [] && Stamped(c, run, Last(run)) && a in Last(run).answers && a.call in Last(run).calls
    ensures CallStamped(c, run, a.call) && AnswerStamped(c, run, a)
  {
  }

  lemma PrefixInv(c: Config, run: seq<World>, longer: seq<World>, A: DeviceId, B: DeviceId)
    requires Continues(c, run, longer, A, B)
    ensures run != [] && Inv(c, Last(run)) && A in Last(run).nodes && B in Last(run).nodes
    ensures forall i :: |run| - 1 <= i < |longer| ==> SameWritings(Last(run), longer[i], A, B)
  {
    hide Inv, Next, Init, SameWritings;
    RunKeepsInv(c, longer[..|run|]);
  }

  /** The listing of what a device has written depends on what it has written alone. */
  lemma SameOwn(w: World, w': World, n: DeviceId, peer: DeviceId)
    requires n in w.nodes && n in w'.nodes && KeyedById(w.nodes[n].events) && KeyedById(w'.nodes[n].events)
    requires Written(w', n, peer) == Written(w, n, peer)
    ensures OwnEvents(n, w'.nodes[n], DirectStreamId(n, peer)) == OwnEvents(n, w.nodes[n], DirectStreamId(n, peer))
  {
    hide OwnEvents, Stream;
    var S := DirectStreamId(n, peer);
    SyncLaws.OwnEventsMembers(n, w.nodes[n], S);
    SyncLaws.OwnEventsMembers(n, w'.nodes[n], S);
    InWritten(w, n, peer);
    InWritten(w', n, peer);
    hide Written;
    assert forall e :: e in OwnEvents(n, w'.nodes[n], S) <==> e in OwnEvents(n, w.nodes[n], S);
    ListingUnique(OwnEvents(n, w'.nodes[n], S), OwnEvents(n, w.nodes[n], S));
  }

  /** Main result: in a reachable state in which `A` can talk to `B` and `B` holds `A` as paired, an undisturbed sync
      can complete if and only if its two frames fit; and if it does, it leaves the logs equal. */
  lemma SyncCompletesExactlyWhenItFits(c: Config, run: seq<World>, A: DeviceId, B: DeviceId)
    requires IsRun(c, run) && CanTalk(Last(run), A, B) && Holding(Last(run), B, A)
    ensures (exists longer, k: nat, a :: Undisturbed(c, run, longer, A, B, k, a)) <==> SyncFits(c, Last(run), A, B)
    ensures forall longer, k: nat, a :: Undisturbed(c, run, longer, A, B, k, a) ==>
      && longer != [] && A in Last(longer).nodes && B in Last(longer).nodes
      && Stream(Last(longer).nodes[A].events, DirectStreamId(A, B))
         == Stream(Last(longer).nodes[B].events, DirectStreamId(A, B))
  {
    hide Next, Init, Undisturbed, SyncFits, Stream, CanTalk, Holding;
    if SyncFits(c, Last(run), A, B) {
      var longer, k, a := FittingSyncConverges(c, run, A, B);
    }
    forall longer, k: nat, a | Undisturbed(c, run, longer, A, B, k, a)
      ensures SyncFits(c, Last(run), A, B)
      ensures longer != [] && A in Last(longer).nodes && B in Last(longer).nodes
      ensures Stream(Last(longer).nodes[A].events, DirectStreamId(A, B))
           == Stream(Last(longer).nodes[B].events, DirectStreamId(A, B))
    {
      UndisturbedIsRun(c, run, longer, A, B, k, a);
      UndisturbedFits(c, run, longer, A, B, k, a);
    }
  }

  lemma UndisturbedIsRun(c: Config, run: seq<World>, longer: seq<World>, A: DeviceId, B: DeviceId, k: nat, a: Answer)
    requires Undisturbed(c, run, longer, A, B, k, a)
    ensures longer != []
  {
  }

  lemma ServeBegins(c: Config, w: World, s: nat, call: Call)
    requires Enabled(c, w, Serve(s, call))
    ensures var w' := Take(c, w, Serve(s, call));
      && w'.nodes == w.nodes && w'.clients == w.clients
      && s in w'.servers && w'.servers[s] == Receiving(call, EventsIn(call.body), None)
  {
  }

  lemma TurnsAreExchange(c: Config, w: World, w': World, A: DeviceId, B: DeviceId, a: Answer)
    requires A in c.ids && B in c.ids && A in w.nodes && B in w.nodes && A != B
    requires c.ids[A].public.deviceId == A && c.ids[B].public.deviceId == B
    requires Sound(c.prim, w.nodes[A]) && Sound(c.prim, w.nodes[B]) && KeyedById(w.nodes[A].events)
    requires a.call.src == A && a.call.dst == B && a.body.SyncResult?
    requires
      var S := DirectStreamId(A, B);
      a.call.body == SyncExchange(S, StreamIds(w.nodes[A], S), OwnEvents(A, w.nodes[A], S))
    requires
      var (b', served) := Drain(c.prim, c.ids[B], w.nodes[B], c.ids[A].public, a.call.body.events, None);
      var (a', merged) := Drain(c.prim, c.ids[A], w.nodes[A], c.ids[B].public, a.body.events, None);
      && served && merged && KeyedById(b'.events) && w'.nodes == w.nodes[B := b'][A := a']
      && a.body == SyncResult(Unknown(a.call.body.known, OwnEvents(B, b', a.call.body.stream)))
    ensures
      var (a', b', ok) := SyncLaws.Exchange(c.prim, c.ids[A], c.ids[B], w.nodes[A], w.nodes[B]);
      ok && w'.nodes == w.nodes[A := a'][B := b']
  {
    hide Sound, OwnEvents, AdmitAll, Drain;
    DrainIsAdmitAll(c.prim, c.ids[B], w.nodes[B], c.ids[A].public, a.call.body.events);
    DrainIsAdmitAll(c.prim, c.ids[A], w.nodes[A], c.ids[B].public, a.body.events);
  }

  lemma ContinuesMeans(c: Config, run: seq<World>, longer: seq<World>, A: DeviceId, B: DeviceId)
    requires Continues(c, run, longer, A, B)
    ensures IsRun(c, longer) && 0 < |run| <= |longer| && longer[..|run|] == run && A in Last(longer).nodes
    ensures B in Last(longer).nodes
  {
  }

  lemma AllDelivered(c: Config, run: seq<World>, longer: seq<World>, A: DeviceId, B: DeviceId, k: nat, a: Answer)
    requires Continues(c, run, longer, A, B) && SyncDone(Last(longer), k, a)
    requires a.call.src == A && a.call.dst == B && A in c.ids && B in c.ids && A != B
    requires |run| - 1 <= a.call.at && |run| - 1 <= a.at
    ensures A in Last(longer).nodes && B in Last(longer).nodes
    ensures Stream(Last(longer).nodes[A].events, DirectStreamId(A, B))
         == Stream(Last(longer).nodes[B].events, DirectStreamId(A, B))
  {
    hide Written, Stored, Stream, IsRun;
    SyncDelivers(c, longer, k, a);
    assert SameWritings(Last(run), longer[a.call.at], A, B) && SameWritings(Last(run), longer[a.at], A, B);
    assert SameWritings(Last(run), Last(longer), A, B);
    LogsEqualExactlyWhenDelivered(c, longer, A, B);
  }
}
