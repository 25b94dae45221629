/** What the frame limit does to a conversation: once a device's log makes its sync request too large for a frame, no
    later sync that it starts completes; and an event too long for a frame never leaves its author and stops the
    syncs of both directions. */
module FrameLaws {
  import opened Wrappers
  import opened Model
  import opened Crypto
  import opened EventLog
  import opened Tables
  import opened Protocol
  import F = Frames
  import opened Nodes
  import SyncLaws
  import opened Network
  import opened Replication
  import opened ReplicationSteps
  import opened Convergence
  import opened RunLaws
  import opened Liveness
  import ManifestLaws
  import Refinement

  // ---------- Long events stay at their author ----------

  /** The ciphertext alone is as long as a frame may be. */
  predicate TooLong(e: EventEnvelope) {
    |e.ciphertext| >= F.MAX_FRAME
  }

  ghost predicate LongAtHome(w: World) {
    forall n, id :: n in w.nodes && id in w.nodes[n].events && TooLong(w.nodes[n].events[id]) ==>
      w.nodes[n].events[id].author == n
  }

  lemma SentIsNotTooLong(c: Config, run: seq<World>, call: Call)
    requires run != [] && Stamped(c, run, Last(run)) && call in Last(run).calls
    ensures forall e :: e in EventsIn(call.body) ==> !TooLong(e)
  {
    hide F.FitsFrame, CallReads, KnownFrom, AnswerStamped, ClientStamped;
    assert CallStamped(c, run, call);
    forall e | e in EventsIn(call.body)
      ensures !TooLong(e)
    {
      if TooLong(e) { F.LongEventNeverFits(c.ids[call.src].public, call.body, e); }
    }
  }

  lemma AnsweredIsNotTooLong(c: Config, run: seq<World>, a: Answer)
    requires run != [] && Stamped(c, run, Last(run)) && a in Last(run).answers
    ensures forall e :: e in EventsIn(a.body) ==> !TooLong(e)
  {
    hide F.FitsFrame, AnswerReads, CallStamped, ClientStamped;
    assert AnswerStamped(c, run, a);
    forall e | e in EventsIn(a.body)
      ensures !TooLong(e)
    {
      if TooLong(e) { F.LongEventNeverFits(c.ids[a.call.dst].public, a.body, e); }
    }
  }

  /** A turn of a receiving loop over events that are not too long stores none that is. */
  lemma ReceivedIsNotTooLong(
    prim: Primitives, me: Identity, t: Tables, peer: PublicIdentity, rest: seq<EventEnvelope>,
    saving: Option<FileManifest>, id: string)
    requires forall e :: e in rest ==> !TooLong(e)
    requires id in ReceiveNext(prim, me, t, peer, rest, saving).t.events && id !in t.events
    ensures !TooLong(ReceiveNext(prim, me, t, peer, rest, saving).t.events[id])
  {
    hide TooLong;
    ReceivedIsByPeer(prim, me, t, peer, rest, saving);
    hide ReceiveNext;
    if rest != [] { assert rest[0] in rest; }
  }

  lemma MergedIsNotTooLong(c: Config, run: seq<World>, k: nat, n: DeviceId, id: string)
    requires run != [] && Inv(c, Last(run)) && Stamped(c, run, Last(run)) && Enabled(c, Last(run), MergeNext(k))
    requires n in Last(run).nodes && n in Take(c, Last(run), MergeNext(k)).nodes
    requires id in Take(c, Last(run), MergeNext(k)).nodes[n].events && id !in Last(run).nodes[n].events
    ensures !TooLong(Take(c, Last(run), MergeNext(k)).nodes[n].events[id])
  {
    hide Inv, Stamped, ReceiveNext, TooLong, Stored, AnswerOk, CallOk;
    var op := Last(run).clients[k];
    ClientFact(c, Last(run), k);
    AnsweredIsNotTooLong(c, run, op.answer);
    ReceivedIsNotTooLong(c.prim, c.ids[op.answer.call.src], Last(run).nodes[op.answer.call.src],
                         c.ids[op.answer.call.dst].public, op.rest, op.saving, id);
  }

  lemma ServedIsNotTooLong(c: Config, run: seq<World>, k: nat, n: DeviceId, id: string)
    requires run != [] && Inv(c, Last(run)) && Stamped(c, run, Last(run)) && Enabled(c, Last(run), ServeNext(k))
    requires n in Last(run).nodes && n in Take(c, Last(run), ServeNext(k)).nodes
    requires id in Take(c, Last(run), ServeNext(k)).nodes[n].events && id !in Last(run).nodes[n].events
    ensures !TooLong(Take(c, Last(run), ServeNext(k)).nodes[n].events[id])
  {
    hide Inv, Stamped, ReceiveNext, TooLong, Stored, CallOk;
    var op := Last(run).servers[k];
    ServerFact(c, Last(run), k);
    SentIsNotTooLong(c, run, op.call);
    ReceivedIsNotTooLong(c.prim, c.ids[op.call.dst], Last(run).nodes[op.call.dst],
                         c.ids[op.call.src].public, op.rest, op.saving, id);
  }

  lemma TextIsPublished(
    c: Config, w: World, k: nat, me: DeviceId, to: DeviceId, text: string, id: string, time: int, nonce: Bytes)
    requires Enabled(c, w, WriteText(k, me, to, text, id, time, nonce))
    ensures me in c.ids && to in c.ids && me in w.nodes
    ensures Take(c, w, WriteText(k, me, to, text, id, time, nonce)).nodes
         == Publish(c, w, k, me, to, TextKind, TextPayload(text), id, time, nonce).nodes
  {
    hide Publish, IsPaired, Reachable;
  }

  lemma FileIsPublished(c: Config, w: World, k: nat, id: string, time: int, nonce: Bytes)
    requires Enabled(c, w, WriteFile(k, id, time, nonce))
    ensures k in w.clients && w.clients[k].FileSaved?
    ensures w.clients[k].me in c.ids && w.clients[k].to in c.ids && w.clients[k].me in w.nodes
    ensures
      var op := w.clients[k];
      Take(c, w, WriteFile(k, id, time, nonce)).nodes
        == Publish(c, w, k, op.me, op.to, ManifestKind, ManifestPayload(op.manifest), id, time, nonce).nodes
  {
    hide Publish;
  }

  lemma TextIsOwn(
    c: Config, w: World, k: nat, me: DeviceId, to: DeviceId, text: string, eventId: string, time: int, nonce: Bytes,
    n: DeviceId, id: string)
    requires Inv(c, w) && Enabled(c, w, WriteText(k, me, to, text, eventId, time, nonce)) && n in w.nodes
    requires
      var w' := Take(c, w, WriteText(k, me, to, text, eventId, time, nonce));
      n in w'.nodes && id in w'.nodes[n].events && id !in w.nodes[n].events
    ensures Take(c, w, WriteText(k, me, to, text, eventId, time, nonce)).nodes[n].events[id].author == n
  {
    hide Inv, Publish, Enabled, Take;
    DeviceKeys(c, w);
    TextIsPublished(c, w, k, me, to, text, eventId, time, nonce);
    PublishedIsOwn(c, w, k, me, to, TextKind, TextPayload(text), eventId, time, nonce, n, id);
  }

  lemma FileIsOwn(c: Config, w: World, k: nat, eventId: string, time: int, nonce: Bytes, n: DeviceId, id: string)
    requires Inv(c, w) && Enabled(c, w, WriteFile(k, eventId, time, nonce)) && n in w.nodes
    requires
      var w' := Take(c, w, WriteFile(k, eventId, time, nonce));
      n in w'.nodes && id in w'.nodes[n].events && id !in w.nodes[n].events
    ensures Take(c, w, WriteFile(k, eventId, time, nonce)).nodes[n].events[id].author == n
  {
    hide Inv, Publish, Enabled, Take;
    DeviceKeys(c, w);
    FileIsPublished(c, w, k, eventId, time, nonce);
    var op := w.clients[k];
    PublishedIsOwn(c, w, k, op.me, op.to, ManifestKind, ManifestPayload(op.manifest), eventId, time, nonce, n, id);
  }

  lemma PublishedIsOwn(
    c: Config, w: World, k: nat, me: DeviceId, to: DeviceId, kind: EventKind, payload: Payload, eventId: string,
    time: int, nonce: Bytes, n: DeviceId, id: string)
    requires me in c.ids && to in c.ids && me in w.nodes && n in w.nodes && c.ids[me].public.deviceId == me
    requires
      var w' := Publish(c, w, k, me, to, kind, payload, eventId, time, nonce);
      n in w'.nodes && id in w'.nodes[n].events && id !in w.nodes[n].events
    ensures Publish(c, w, k, me, to, kind, payload, eventId, time, nonce).nodes[n].events[id].author == n
  {
    hide F.FitsFrame;
  }

  lemma StepKeepsLongAtHome(c: Config, run: seq<World>, step: Step)
    requires run != [] && Inv(c, Last(run)) && Stamped(c, run, Last(run)) && LongAtHome(Last(run))
    requires Enabled(c, Last(run), step)
    ensures LongAtHome(Take(c, Last(run), step))
  {
    hide Inv, Enabled, Take, Grows, Stamped, TooLong;
    var w, w' := Last(run), Take(c, Last(run), step);
    StepKeepsInv(c, w, step);
    forall n, id | n in w'.nodes && id in w'.nodes[n].events && TooLong(w'.nodes[n].events[id])
      ensures w'.nodes[n].events[id].author == n
    {
      ManifestLaws.NodesStay(w, w', n);
      if id in w.nodes[n].events {
        EventStays(w, w', n, id);
      } else {
        match step {
          case MergeNext(k) => MergedIsNotTooLong(c, run, k, n, id);
          case ServeNext(k) => ServedIsNotTooLong(c, run, k, n, id);
          case WriteText(k, me, to, text, eventId, time, nonce) =>
            TextIsOwn(c, w, k, me, to, text, eventId, time, nonce, n, id);
          case WriteFile(k, eventId, time, nonce) => FileIsOwn(c, w, k, eventId, time, nonce, n, id);
          case _ => ManifestLaws.OtherLogs(c, w, step, n);
        }
      }
    }
  }

  lemma EventStays(w: World, w': World, n: DeviceId, id: string)
    requires Grows(w, w') && n in w.nodes && id in w.nodes[n].events && n in w'.nodes
    ensures id in w'.nodes[n].events && w'.nodes[n].events[id] == w.nodes[n].events[id]
  {
    assert TablesGrow(w.nodes[n], w'.nodes[n]);
  }

  lemma {:induction false} RunKeepsLongAtHome(c: Config, run: seq<World>)
    requires IsRun(c, run)
    ensures LongAtHome(Last(run))
  {
    hide Inv, Enabled, Take, Stamped, TooLong;
    if |run| > 1 {
      var before := run[..|run| - 1];
      RunKeepsLongAtHome(c, before);
      RunKeepsInv(c, before);
      RunStamped(c, before);
      assert Next(c, run[|run| - 2], run[|run| - 1]);
      var step :| Enabled(c, Last(before), step) && Last(run) == Take(c, Last(before), step);
      StepKeepsLongAtHome(c, before, step);
    }
  }

  // ---------- What that means for the conversation ----------

  /** `A` had written an event for `B` by state `i` that is too long. */
  ghost predicate Stuck(c: Config, run: seq<World>, i: nat, A: DeviceId, B: DeviceId, e: EventEnvelope) {
    && i < |run| && A in c.ids && B in c.ids && A != B && Stored(run[i], A, e)
    && e.author == A && e.stream == DirectStreamId(A, B) && TooLong(e)
  }

  lemma StuckLasts(c: Config, run: seq<World>, i: nat, j: nat, A: DeviceId, B: DeviceId, e: EventEnvelope)
    requires IsRun(c, run) && Stuck(c, run, i, A, B, e) && i <= j < |run|
    ensures Stored(run[j], A, e) && A in run[j].nodes && B in run[j].nodes && !Stored(run[j], B, e)
    ensures Inv(c, run[j]) && e.id !in run[j].nodes[B].events
  {
    hide IsRun, Inv, Grows, LongAtHome, TooLong;
    BetweenMoments(c, run, i, j);
    StoredGrows(run[i], run[j], A, e);
    AtMoment(c, run, j);
    DeviceKeys(c, run[j]);
    LongNotElsewhere(c, run[j], A, B, e);
  }

  lemma AtMoment(c: Config, run: seq<World>, j: nat)
    requires IsRun(c, run) && j < |run|
    ensures Inv(c, run[j]) && LongAtHome(run[j])
  {
    hide Inv, Next, Init, LongAtHome;
    RunKeepsInv(c, run[..j + 1]);
    RunKeepsLongAtHome(c, run[..j + 1]);
  }

  lemma LongNotElsewhere(c: Config, w: World, A: DeviceId, B: DeviceId, e: EventEnvelope)
    requires Inv(c, w) && LongAtHome(w) && Stored(w, A, e) && e.author == A && A != B && B in w.nodes && TooLong(e)
    ensures e.id !in w.nodes[B].events
  {
    hide Inv, TooLong;
    LogFact(c, w, A, e.id);
    if e.id in w.nodes[B].events {
      LogFact(c, w, B, e.id);
    }
  }

  lemma NotAskedSince(c: Config, run: seq<World>, i: nat, A: DeviceId, B: DeviceId, e: EventEnvelope, call: Call)
    requires IsRun(c, run) && Stuck(c, run, i, A, B, e)
    requires call in Last(run).calls && call.src == A && call.dst == B && call.body.SyncExchange?
    ensures call.at < i
  {
    hide Inv, Next, Init, Stamped, TooLong, OwnEvents, F.FitsFrame, StreamIds;
    RunStamped(c, run);
    SentIsNotTooLong(c, run, call);
    CallStamp(c, run, call);
    if i <= call.at {
      StuckLasts(c, run, i, call.at, A, B, e);
      SyncLaws.OwnEventsMembers(A, run[call.at].nodes[A], call.body.stream);
      InStream(run[call.at], A, call.body.stream);
    }
  }

  lemma CallStamp(c: Config, run: seq<World>, call: Call)
    requires run != [] && Stamped(c, run, Last(run)) && call in Last(run).calls
    ensures CallStamped(c, run, call)
  {
  }

  lemma NotAnsweredSince(c: Config, run: seq<World>, i: nat, A: DeviceId, B: DeviceId, e: EventEnvelope, a: Answer)
    requires IsRun(c, run) && Stuck(c, run, i, A, B, e)
    requires a in Last(run).answers && a.call in Last(run).calls
    requires a.call.src == B && a.call.dst == A && a.call.body.SyncExchange?
    ensures a.at < i
  {
    hide Inv, Next, Init, Stamped, TooLong, OwnEvents, F.FitsFrame;
    RunStamped(c, run);
    AnsweredIsNotTooLong(c, run, a);
    FullStamp(c, run, a);
    if i <= a.at {
      StuckLasts(c, run, i, a.at, A, B, e);
      NeverKnown(c, run, i, A, B, e, a.call.since);
      StreamIdSymmetric(A, B);
      var own := OwnEvents(A, run[a.at].nodes[A], a.call.body.stream);
      SyncLaws.OwnEventsMembers(A, run[a.at].nodes[A], a.call.body.stream);
      InStream(run[a.at], A, a.call.body.stream);
      UnknownMembers(a.call.body.known, own);
    }
  }

  lemma NeverKnown(c: Config, run: seq<World>, i: nat, A: DeviceId, B: DeviceId, e: EventEnvelope, j: nat)
    requires IsRun(c, run) && Stuck(c, run, i, A, B, e) && j < |run| && B in run[j].nodes
    ensures e.id !in run[j].nodes[B].events
  {
    hide Inv, Next, Init, Grows, Stored, TooLong;
    StuckLasts(c, run, i, |run| - 1, A, B, e);
    RunGrows(c, run, j);
    if e.id in run[j].nodes[B].events {
      EventStays(run[j], Last(run), B, e.id);
    }
  }

  /** Main result: once `A` has written an event for `B` that is too long for a frame, the two logs are never equal
      again, and no sync of the two devices, whichever of them starts it, completes that has read `A`'s events
      since. */
  lemma TooLongBlocksSync(c: Config, run: seq<World>, i: nat, A: DeviceId, B: DeviceId, e: EventEnvelope)
    requires IsRun(c, run) && Stuck(c, run, i, A, B, e)
    ensures A in Last(run).nodes && B in Last(run).nodes
    ensures Stream(Last(run).nodes[A].events, DirectStreamId(A, B))
         != Stream(Last(run).nodes[B].events, DirectStreamId(A, B))
    ensures forall k, a :: SyncDone(Last(run), k, a) && a.call.src == A && a.call.dst == B ==> a.call.at < i
    ensures forall k, a :: SyncDone(Last(run), k, a) && a.call.src == B && a.call.dst == A ==> a.at < i
  {
    hide Inv, Next, Init, TooLong, Stream;
    StuckLasts(c, run, i, |run| - 1, A, B, e);
    InStream(Last(run), A, DirectStreamId(A, B));
    NotInStream(Last(run), B, e, DirectStreamId(A, B), c);
    hide Stored, Stuck;
    forall k, a | SyncDone(Last(run), k, a) && a.call.src == A && a.call.dst == B
      ensures a.call.at < i
    {
      ClientFact(c, Last(run), k);
      AnswerFact(c, Last(run), a);
      NotAskedSince(c, run, i, A, B, e, a.call);
    }
    forall k, a | SyncDone(Last(run), k, a) && a.call.src == B && a.call.dst == A
      ensures a.at < i
    {
      ClientFact(c, Last(run), k);
      AnswerFact(c, Last(run), a);
      NotAnsweredSince(c, run, i, A, B, e, a);
    }
  }

  /** The request with which `A` would start a sync with `B` if it read its store now fits a frame. */
  ghost predicate RequestFits(c: Config, w: World, A: DeviceId, B: DeviceId) {
    var S := DirectStreamId(A, B);
    && A in c.ids && A in w.nodes && KeyedById(w.nodes[A].events)
    && F.FitsFrame(c.ids[A].public, SyncExchange(S, StreamIds(w.nodes[A], S), OwnEvents(A, w.nodes[A], S)))
  }

  /** Logs only grow, and with them the request: if it does not fit at some moment, no sync that `A` starts and that
      reads its log from then on completes, now or in any continuation. No single event needs to be long for that:
      what all known ids and all own events take adds up. */
  lemma FullLogStopsSync(c: Config, run: seq<World>, i: nat, A: DeviceId, B: DeviceId)
    requires IsRun(c, run) && i < |run| && A in c.ids && !RequestFits(c, run[i], A, B)
    ensures forall j :: i <= j < |run| ==> !RequestFits(c, run[j], A, B)
    ensures forall k, a :: SyncDone(Last(run), k, a) && a.call.src == A && a.call.dst == B ==>
      a.call.since < i || a.call.at < i
  {
    hide Inv, Next, Init, Stamped, F.FitsFrame, OwnEvents, StreamIds;
    forall j | i <= j < |run|
      ensures !RequestFits(c, run[j], A, B)
    {
      if RequestFits(c, run[j], A, B) { RequestFitted(c, run, i, j, j, A, B); }
    }
    forall k, a | SyncDone(Last(run), k, a) && a.call.src == A && a.call.dst == B
      ensures a.call.since < i || a.call.at < i
    {
      RunKeepsInv(c, run);
      ClientFact(c, Last(run), k);
      AnswerFact(c, Last(run), a);
      RunStamped(c, run);
      CallStamp(c, run, a.call);
      if i <= a.call.since && i <= a.call.at {
        RequestFitted(c, run, i, a.call.since, a.call.at, A, B);
      }
    }
  }

  lemma RequestFitted(c: Config, run: seq<World>, i: nat, since: nat, at: nat, A: DeviceId, B: DeviceId)
    requires IsRun(c, run) && i <= since < |run| && i <= at < |run| && A in c.ids
    requires A in run[since].nodes && A in run[at].nodes && KeyedById(run[at].nodes[A].events)
    requires
      var S := DirectStreamId(A, B);
      F.FitsFrame(c.ids[A].public,
        SyncExchange(S, StreamIds(run[since].nodes[A], S), OwnEvents(A, run[at].nodes[A], S)))
    ensures RequestFits(c, run[i], A, B)
  {
    hide Inv, Next, Init, F.FitsFrame, OwnEvents, KeyedById;
    var S := DirectStreamId(A, B);
    BetweenMoments(c, run, i, since);
    BetweenMoments(c, run, i, at);
    DeviceKeys(c, run[i]);
    KeyedFact(c, run[i], A);
    MoreIds(run[i], run[since], A, S);
    MoreOwn(run[i], run[at], A, S);
    F.MoreTakesMore(c.ids[A].public, S, StreamIds(run[i].nodes[A], S), OwnEvents(A, run[i].nodes[A], S),
      StreamIds(run[since].nodes[A], S), OwnEvents(A, run[at].nodes[A], S));
  }

  lemma MoreIds(w: World, w': World, n: DeviceId, stream: string)
    requires Grows(w, w') && n in w.nodes && n in w'.nodes
    ensures StreamIds(w.nodes[n], stream) <= StreamIds(w'.nodes[n], stream)
  {
    assert TablesGrow(w.nodes[n], w'.nodes[n]);
  }

  lemma MoreOwn(w: World, w': World, n: DeviceId, stream: string)
    requires Grows(w, w') && n in w.nodes && n in w'.nodes
    requires KeyedById(w.nodes[n].events) && KeyedById(w'.nodes[n].events)
    ensures var es := OwnEvents(n, w.nodes[n], stream);
      && (forall i, j :: 0 <= i < j < |es| ==> es[i] != es[j])
      && forall e :: e in es ==> e in OwnEvents(n, w'.nodes[n], stream)
  {
    SyncLaws.OwnEventsMembers(n, w.nodes[n], stream);
    SyncLaws.OwnEventsMembers(n, w'.nodes[n], stream);
    hide OwnEvents;
    SortedOnce(OwnEvents(n, w.nodes[n], stream));
    hide StrictlySorted;
    assert TablesGrow(w.nodes[n], w'.nodes[n]);
  }

  lemma SortedOnce(es: seq<EventEnvelope>)
    requires StrictlySorted(es)
    ensures forall i, j :: 0 <= i < j < |es| ==> es[i] != es[j]
  {
    forall i, j | 0 <= i < j < |es|
      ensures es[i] != es[j]
    {
      assert Before(es[i], es[j]);
      BeforeAsymmetric(es[i], es[j]);
    }
  }

  lemma NotInStream(w: World, n: DeviceId, e: EventEnvelope, stream: string, c: Config)
    requires n in w.nodes && Inv(c, w) && e.id !in w.nodes[n].events
    ensures e !in Stream(w.nodes[n].events, stream)
  {
    hide RecordsOk, NodesOk, OpsOk;
    KeyedFact(c, w, n);
  }

  // ---------- A conversation that is stuck ----------

  /** What is assumed of the sizes that encryption and encoding produce. */
  ghost predicate KeepsLength(prim: Primitives) {
    && (forall k: Bytes, n: Bytes, a: string, m: Bytes :: |prim.seal(k, n, a, m)| == |m| + F.TAG)
    && (forall t: string :: |prim.encode(TextPayload(t))| >= |t|)
  }

  lemma FirstState(c: Config) returns (run: seq<World>)
    requires ConfigOk(c)
    ensures IsRun(c, run) && Idle(Last(run))
    ensures Last(run).nodes.Keys == c.ids.Keys
  {
    hide ConfigOk, Next;
    var nodes := map n | n in c.ids :: EMPTY;
    run := [World(nodes, map[], map[], {}, {}, map[], map[], {}, 0)];
  }

  /** A chain of steps that leaves nothing running but what it says. */
  ghost predicate Idle(w: World) {
    w.clients == map[] && w.servers == map[] && w.minted == map[]
  }

  lemma MeetLeavesIdle(c: Config, w: World, me: DeviceId, peer: DeviceId, endpoint: Endpoint)
    requires Idle(w) && me in w.nodes && peer in c.ids && me != peer
    ensures Enabled(c, w, Learn(0, me, peer, endpoint))
    ensures
      var read := Take(c, w, Learn(0, me, peer, endpoint));
      Enabled(c, read, LearnWrite(0, 0)) && Idle(Take(c, read, LearnWrite(0, 0)))
  {
    hide UpsertPeer, IsPaired;
  }

  /** `me` hears of `peer`. */
  lemma Meet(c: Config, w: World, me: DeviceId, peer: DeviceId, endpoint: Endpoint)
    requires Inv(c, w) && Idle(w) && me in c.ids && peer in c.ids && me != peer
    ensures Enabled(c, w, Learn(0, me, peer, endpoint))
    ensures
      var read := Take(c, w, Learn(0, me, peer, endpoint));
      && Enabled(c, read, LearnWrite(0, 0))
      && var w' := Take(c, read, LearnWrite(0, 0));
      Idle(w') && CanReach(w', me, peer)
  {
    hide Inv, Idle, UpsertPeer, LookupPeer, Enabled, Take, Sound;
    DeviceKeys(c, w);
    NodeHas(c, w, me);
    SoundEndpoints(c.prim, w.nodes[me]);
    MeetLeavesIdle(c, w, me, peer, endpoint);
    Refinement.LearntAloneIsRemembered(c, w, 0, me, peer, endpoint, 0);
    UpsertThenLookup(w.nodes[me].peers, Peer(c.ids[peer].public, Some(endpoint), IsPaired(w.nodes[me], peer), 0));
  }

  lemma ReachGrows(w: World, w': World, me: DeviceId, to: DeviceId)
    requires Grows(w, w') && CanReach(w, me, to)
    ensures CanReach(w', me, to)
  {
    hide ChunksRise, Holds;
    assert TablesGrow(w.nodes[me], w'.nodes[me]);
  }

  /** Both devices hear of each other. */
  lemma Acquaint(c: Config, A: DeviceId, B: DeviceId, endpoint: Endpoint) returns (first: seq<World>, run: seq<World>)
    requires ConfigOk(c) && A in c.ids && B in c.ids && A != B
    ensures run != [] && Continues(c, first, run, A, B) && Inv(c, Last(run)) && Idle(Last(run))
    ensures CanReach(Last(run), A, B) && CanReach(Last(run), B, A)
  {
    hide Inv, Continues, Next, Init, Enabled, Take, Grows, CanReach, Idle, ConfigOk;
    first := FirstState(c);
    RunKeepsInv(c, first);
    ContinuesItself(c, first, A, B);
    hide IsRun;
    run := first;
    Meet(c, Last(run), A, B, endpoint);
    run := Go(c, first, run, A, B, Learn(0, A, B, endpoint));
    run := Go(c, first, run, A, B, LearnWrite(0, 0));
    var met := Last(run);
    Meet(c, Last(run), B, A, endpoint);
    run := Go(c, first, run, A, B, Learn(0, B, A, endpoint));
    GrowsTransitive(met, Last(run), Last(run)) by { GrowsReflexive(Last(run)); }
    var heard := Last(run);
    run := Go(c, first, run, A, B, LearnWrite(0, 0));
    GrowsTransitive(met, heard, Last(run));
    ReachGrows(met, Last(run), A, B);
  }

  lemma AskEffect(c: Config, w: World, A: DeviceId, B: DeviceId, pairingNonce: string)
    requires Idle(w) && CanReach(w, A, B) && A in c.ids
    requires F.FitsFrame(c.ids[A].public, PairRequest(pairingNonce))
    ensures Enabled(c, w, AskPair(0, A, B, pairingNonce))
    ensures
      var w' := Take(c, w, AskPair(0, A, B, pairingNonce));
      var call := Call(0, A, B, PairRequest(pairingNonce), w.clock, w.clock);
      && call in w'.calls && w'.servers == map[] && w'.minted == map[]
      && 0 in w'.clients && w'.clients[0].Waiting? && w'.clients[0].call == call && w'.clients.Keys == {0}
  {
    hide F.FitsFrame;
  }

  lemma ServeEffect(c: Config, w: World, call: Call)
    requires w.servers == map[] && call in w.calls && call.body.PairRequest?
    requires call.src in c.ids && call.dst in c.ids && call.dst in w.nodes
    ensures Enabled(c, w, ServePair(0, call))
    ensures
      var read := Take(c, w, ServePair(0, call));
      && Enabled(c, read, ServePairWrite(0, 0))
      && var w' := Take(c, read, ServePairWrite(0, 0));
      && w'.clients == w.clients && w'.minted == w.minted && w'.servers == map[0 := PairWritten(call)]
  {
    hide UpsertPeer, LookupPeer;
  }

  lemma AnswerEffect(c: Config, w: World, call: Call)
    requires w.servers == map[0 := PairWritten(call)] && call.dst in c.ids
    requires F.FitsFrame(c.ids[call.dst].public, PairResponse(true))
    ensures Enabled(c, w, ServePairAnswer(0))
    ensures
      var w' := Take(c, w, ServePairAnswer(0));
      && w'.clients == w.clients && w'.minted == w.minted && Answer(call, PairResponse(true), w.clock) in w'.answers
  {
    hide F.FitsFrame;
  }

  lemma FinishEffect(c: Config, w: World, a: Answer)
    requires 0 in w.clients && w.clients[0].Waiting? && w.clients[0].call == a.call && w.clients.Keys == {0}
    requires a in w.answers && a.body == PairResponse(true) && a.call.src in w.nodes && a.call.dst in c.ids
    ensures Enabled(c, w, FinishPair(0, a, 0))
    ensures
      var w' := Take(c, w, FinishPair(0, a, 0));
      w'.minted == w.minted && w'.clients.Keys == {0} && w'.clients[0] == Done(a)
  {
    hide UpsertPeer;
  }

  /** `A` pairs with `B`. */
  lemma PairUp(c: Config, A: DeviceId, B: DeviceId, endpoint: Endpoint, pairingNonce: string) returns (run: seq<World>)
    requires ConfigOk(c) && A in c.ids && B in c.ids && A != B
    requires F.FitsFrame(c.ids[A].public, PairRequest(pairingNonce)) && F.FitsFrame(c.ids[B].public, PairResponse(true))
    ensures IsRun(c, run) && Inv(c, Last(run)) && Last(run).minted == map[] && Last(run).clients.Keys == {0}
    ensures CanTalk(Last(run), A, B) && CanTalk(Last(run), B, A)
  {
    hide Inv, Continues, Next, Init, Enabled, Take, Grows, CanReach, Idle, ConfigOk, F.FitsFrame, IsRun;
    var first;
    first, run := Acquaint(c, A, B, endpoint);
    var w0 := Last(run);
    DeviceKeys(c, w0);
    AskEffect(c, w0, A, B, pairingNonce);
    run := Go(c, first, run, A, B, AskPair(0, A, B, pairingNonce));
    var call := Last(run).clients[0].call;
    var w1 := Last(run);
    DeviceKeys(c, w1);
    ServeEffect(c, w1, call);
    run := Go(c, first, run, A, B, ServePair(0, call));
    var w2 := Last(run);
    run := Go(c, first, run, A, B, ServePairWrite(0, 0));
    var w3 := Last(run);
    AnswerEffect(c, w3, call);
    var a := Answer(call, PairResponse(true), w3.clock);
    run := Go(c, first, run, A, B, ServePairAnswer(0));
    var w4 := Last(run);
    DeviceKeys(c, w4);
    FinishEffect(c, w4, a);
    run := Go(c, first, run, A, B, FinishPair(0, a, 0));
    FiveStepsGrow(w0, w1, w2, w3, w4, Last(run));
    ReachGrows(w0, Last(run), A, B);
    ReachGrows(w0, Last(run), B, A);
    PairedNow(c, Last(run), a);
    ContinuesMeans(c, first, run, A, B);
  }

  lemma FiveStepsGrow(w0: World, w1: World, w2: World, w3: World, w4: World, w5: World)
    requires Grows(w0, w1) && Grows(w1, w2) && Grows(w2, w3) && Grows(w3, w4) && Grows(w4, w5)
    ensures Grows(w0, w5)
  {
    hide Grows;
    GrowsTransitive(w0, w1, w2);
    GrowsTransitive(w0, w2, w3);
    GrowsTransitive(w0, w3, w4);
    GrowsTransitive(w0, w4, w5);
  }

  lemma PairedNow(c: Config, w: World, a: Answer)
    requires Inv(c, w) && 0 in w.clients && w.clients[0] == Done(a) && a.call.body.PairRequest?
    ensures Holding(w, a.call.src, a.call.dst) && Holding(w, a.call.dst, a.call.src)
  {
    hide Inv;
    ClientFact(c, w, 0);
    AnswerFact(c, w, a);
  }

  lemma TextStored(c: Config, w: World, A: DeviceId, B: DeviceId, text: string, id: string, time: int, nonce: Bytes)
    requires Inv(c, w) && Enabled(c, w, WriteText(1, A, B, text, id, time, nonce))
    ensures A in c.ids && B in c.ids && c.ids[A].public.deviceId == A
    ensures Stored(Take(c, w, WriteText(1, A, B, text, id, time, nonce)), A,
                   NewEvent(c, A, B, TextKind, TextPayload(text), id, time, nonce))
  {
    hide Inv, Enabled, Take, NewEvent, Publish;
    TextIsPublished(c, w, 1, A, B, text, id, time, nonce);
    PublishLogs(c, w, 1, A, B, TextKind, TextPayload(text), id, time, nonce);
    DeviceKeys(c, w);
    FreshId(c, w, 1, A, B, text, id, time, nonce);
    NotInLog(c, w, A, id);
    SealedId(c, A, B, text, id, time, nonce);
  }

  lemma FreshId(
    c: Config, w: World, k: nat, A: DeviceId, B: DeviceId, text: string, id: string, time: int, nonce: Bytes)
    requires Enabled(c, w, WriteText(k, A, B, text, id, time, nonce))
    ensures id !in w.minted && CanTalk(w, A, B) && A in c.ids && B in c.ids
  {
    hide CanTalk;
  }

  lemma SealedId(c: Config, A: DeviceId, B: DeviceId, text: string, id: string, time: int, nonce: Bytes)
    requires A in c.ids && B in c.ids
    ensures
      var e := NewEvent(c, A, B, TextKind, TextPayload(text), id, time, nonce);
      e.id == id && e.author == c.ids[A].public.deviceId && e.stream == DirectStreamId(A, B)
    ensures KeepsLength(c.prim) ==>
      |NewEvent(c, A, B, TextKind, TextPayload(text), id, time, nonce).ciphertext| >= |text|
  {
  }

  /** Such an event does occur: two devices pair, and one sends a text as long as a frame. It stays in its log, both
      devices can still reach each other and hold each other as paired, and `TooLongBlocksSync` applies to every
      continuation. */
  lemma LongTextGetsStuck(
    c: Config, A: DeviceId, B: DeviceId, endpoint: Endpoint, pairingNonce: string, text: string, id: string, time: int,
    nonce: Bytes)
    returns (run: seq<World>, e: EventEnvelope)
    requires ConfigOk(c) && KeepsLength(c.prim) && A in c.ids && B in c.ids && A != B && |text| >= F.MAX_FRAME
    requires F.FitsFrame(c.ids[A].public, PairRequest(pairingNonce)) && F.FitsFrame(c.ids[B].public, PairResponse(true))
    ensures IsRun(c, run) && Stuck(c, run, |run| - 1, A, B, e)
    ensures CanTalk(Last(run), A, B) && CanTalk(Last(run), B, A)
  {
    hide Inv, Next, Init, Enabled, Take, CanTalk, F.FitsFrame, KeepsLength, ConfigOk, NewEvent;
    run := PairUp(c, A, B, endpoint, pairingNonce);
    var w := Last(run);
    DeviceKeys(c, w);
    TextCanBeWritten(c, w, A, B, text, id, time, nonce);
    e := NewEvent(c, A, B, TextKind, TextPayload(text), id, time, nonce);
    TextStored(c, w, A, B, text, id, time, nonce);
    SealedId(c, A, B, text, id, time, nonce);
    run := Then(c, run, WriteText(1, A, B, text, id, time, nonce));
    TalkLasts(c, run, |run| - 2, A, B);
    TalkLasts(c, run, |run| - 2, B, A);
  }

  lemma TextCanBeWritten(
    c: Config, w: World, A: DeviceId, B: DeviceId, text: string, id: string, time: int, nonce: Bytes)
    requires w.clients.Keys == {0} && w.minted == map[] && CanTalk(w, A, B) && A in c.ids && B in c.ids
    ensures Enabled(c, w, WriteText(1, A, B, text, id, time, nonce))
  {
    hide CanTalk;
  }

  lemma Then(c: Config, run: seq<World>, step: Step) returns (longer: seq<World>)
    requires IsRun(c, run) && Enabled(c, Last(run), step)
    ensures IsRun(c, longer) && |longer| == |run| + 1 && longer[|run| - 1] == Last(run)
    ensures Last(longer) == Take(c, Last(run), step)
  {
    hide Enabled, Take, ConfigOk, Init;
    longer := run + [Take(c, Last(run), step)];
    assert Next(c, Last(run), Take(c, Last(run), step)) by { StepIsNext(c, Last(run), step); }
    hide Next;
    assert forall i :: 0 <= i < |run| ==> longer[i] == run[i];
  }
}
