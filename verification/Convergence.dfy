/** What holds of every run of the network of module `Network`, whatever is lost, delivered twice
    or interleaved. */
module Convergence {
  import opened Wrappers
  import Text
  import opened Model
  import opened Crypto
  import opened EventLog
  import opened Tables
  import opened Protocol
  import F = Frames
  import opened Nodes
  import SyncLaws
  import opened Network
  import opened Replication
  import opened ReplicationSteps

  // ---------- When the two sides of a sync read their logs ----------

  /** The events of a sync request are what its sender had written when it was sent. */
  ghost predicate CallReads(w: World, call: Call) {
    call.body.SyncExchange? ==>
      && call.src in w.nodes && KeyedById(w.nodes[call.src].events)
      && call.body.events == OwnEvents(call.src, w.nodes[call.src], call.body.stream)
  }

  /** The events of its answer are what the server had written by then, without those known. */
  ghost predicate AnswerReads(w: World, a: Answer) {
    a.call.body.SyncExchange? ==>
      && a.call.dst in w.nodes && KeyedById(w.nodes[a.call.dst].events)
      && a.body
         == SyncResult(Unknown(a.call.body.known, OwnEvents(a.call.dst, w.nodes[a.call.dst], a.call.body.stream)))
  }

  /** The known ids it names were all that the sender knew when its operation began. */
  ghost predicate KnownFrom(w: World, call: Call) {
    call.body.SyncExchange? ==>
      && call.src in w.nodes && call.body.stream == DirectStreamId(call.src, call.dst)
      && call.body.known == StreamIds(w.nodes[call.src], call.body.stream)
  }

  ghost predicate KnownWas(w: World, client: Client)
    requires client.KnownRead?
  {
    && client.me in w.nodes
    && client.known == StreamIds(w.nodes[client.me], DirectStreamId(client.me, client.to))
  }

  /** The request that an operation posts. */
  ghost predicate Posted(c: Config, w: World, call: Call) {
    && call.at == w.clock && call.src in c.ids && F.FitsFrame(c.ids[call.src].public, call.body) && CallReads(w, call)
    && (call.body.SyncExchange? ==>
        && call.conn in w.clients && call.body.stream == DirectStreamId(call.src, call.dst)
        && w.clients[call.conn] == KnownRead(call.src, call.dst, call.body.known, call.since))
  }

  lemma CallsOfStep(c: Config, w: World, step: Step)
    requires Enabled(c, w, step)
    ensures forall call :: call in Take(c, w, step).calls && call !in w.calls ==> Posted(c, w, call)
  {
    hide F.FitsFrame, OwnEvents, KeyedById, StreamIds, CanTalk, CanReach, SealEvent, Insert;
    if !(step.SendSync? || step.AskPair? || step.WriteText? || step.WriteFile?) {
      OtherCalls(c, w, step);
    }
  }

  lemma OtherCalls(c: Config, w: World, step: Step)
    requires Enabled(c, w, step) && !step.SendSync? && !step.AskPair? && !step.WriteText? && !step.WriteFile?
    ensures Take(c, w, step).calls == w.calls
  {
    hide ReceiveNext, SaveManifest, OwnEvents, KeyedById, CanTalk, CanReach, UpsertPeer, Sound;
    hide Fills, ReplyTo, Trusts, IsPaired, F.FitsFrame, LookupPeer, StreamIds, EventsIn;
  }

  lemma AnswersOfStep(c: Config, w: World, step: Step)
    requires Enabled(c, w, step) && Inv(c, w)
    ensures forall a :: a in Take(c, w, step).answers && a !in w.answers ==>
      a.at == w.clock && AnswerReads(w, a) && a.call.dst in c.ids && F.FitsFrame(c.ids[a.call.dst].public, a.body)
  {
    hide Inv, AnswerReads, ReplyTo, OwnEvents, F.FitsFrame;
    if step.ServePairAnswer? {
      PairAnswerReadsNothing(c, w, step.k);
    } else if step.ServeAnswer? {
      ReplyReads(w, w.servers[step.k].call);
    } else {
      OtherAnswers(c, w, step);
    }
  }

  lemma OtherAnswers(c: Config, w: World, step: Step)
    requires Enabled(c, w, step) && !step.ServePairAnswer? && !step.ServeAnswer?
    ensures Take(c, w, step).answers == w.answers
  {
    hide ReceiveNext, SaveManifest, OwnEvents, KeyedById, CanTalk, CanReach, UpsertPeer, Sound, Fills, ReplyTo;
    hide Trusts, IsPaired, LookupPeer, StreamIds, EventsIn, F.FitsFrame, Post, Publish, AwaitsAnswer;
    if Posts(step) {
      hide Enabled, Effect;
      PostingFrame(c, w, step);
    }
  }

  lemma PairAnswerReadsNothing(c: Config, w: World, k: nat)
    requires Inv(c, w) && k in w.servers && w.servers[k].PairWritten?
    ensures AnswerReads(w, Answer(w.servers[k].call, PairResponse(true), w.clock))
  {
    ServerFact(c, w, k);
  }

  lemma ReplyReads(w: World, call: Call)
    requires call.dst in w.nodes && KeyedById(w.nodes[call.dst].events)
    ensures AnswerReads(w, Answer(call, ReplyTo(w, call), w.clock))
  {
  }

  lemma KnownOfStep(c: Config, w: World, step: Step, k: nat)
    requires Enabled(c, w, step) && k in Take(c, w, step).clients && Take(c, w, step).clients[k].KnownRead?
    ensures
      var client := Take(c, w, step).clients[k];
      (k in w.clients && w.clients[k] == client) || (client.at == w.clock && KnownWas(w, client))
  {
    hide OwnEvents, KeyedById, IsPaired, StreamIds, F.FitsFrame;
    if !(step.ReadKnown? && step.k == k) {
      OtherKnown(c, w, step, k);
    }
  }

  lemma OtherKnown(c: Config, w: World, step: Step, k: nat)
    requires Enabled(c, w, step) && k in Take(c, w, step).clients && Take(c, w, step).clients[k].KnownRead?
    requires !(step.ReadKnown? && step.k == k)
    ensures k in w.clients && w.clients[k] == Take(c, w, step).clients[k]
  {
    hide ReceiveNext, SaveManifest, OwnEvents, KeyedById, CanTalk, CanReach, UpsertPeer, Sound, Fills, ReplyTo;
    hide Trusts, IsPaired, LookupPeer, StreamIds, EventsIn, F.FitsFrame, Post, Publish, AwaitsAnswer;
    if Posts(step) {
      hide Enabled, Effect;
      PostingFrame(c, w, step);
    }
  }

  ghost predicate CallStamped(c: Config, run: seq<World>, call: Call) {
    && call.at < |run| && call.since < |run| && CallReads(run[call.at], call) && KnownFrom(run[call.since], call)
    && call.src in c.ids && F.FitsFrame(c.ids[call.src].public, call.body)
  }

  ghost predicate AnswerStamped(c: Config, run: seq<World>, a: Answer) {
    && a.at < |run| && AnswerReads(run[a.at], a)
    && a.call.dst in c.ids && F.FitsFrame(c.ids[a.call.dst].public, a.body)
  }

  ghost predicate ClientStamped(run: seq<World>, client: Client) {
    client.KnownRead? ==> client.at < |run| && KnownWas(run[client.at], client)
  }

  /** Every request and every answer of a run fits a frame, and says what was read when it says so. */
  ghost predicate Stamped(c: Config, run: seq<World>, w: World) {
    && (forall call :: call in w.calls ==> CallStamped(c, run, call))
    && (forall a :: a in w.answers ==> AnswerStamped(c, run, a))
    && (forall k :: k in w.clients ==> ClientStamped(run, w.clients[k]))
  }

  lemma PostedIsStamped(c: Config, before: seq<World>, run: seq<World>, call: Call)
    requires before != [] && |run| == |before| + 1 && run[..|before|] == before && Last(before).clock == |before| - 1
    requires Posted(c, Last(before), call) && Stamped(c, before, Last(before))
    requires call.body.SyncExchange? || call.since == call.at
    ensures CallStamped(c, run, call)
  {
    hide F.FitsFrame, CallReads;
    if call.body.SyncExchange? {
      assert ClientStamped(before, Last(before).clients[call.conn]);
      assert run[call.since] == before[call.since];
    }
  }

  lemma {:induction false} RunStamped(c: Config, run: seq<World>)
    requires IsRun(c, run)
    ensures Stamped(c, run, Last(run))
  {
    hide Inv, Enabled, Take, CallReads, AnswerReads, KnownFrom, KnownWas, Posted, F.FitsFrame;
    if |run| > 1 {
      var before := run[..|run| - 1];
      RunStamped(c, before);
      RunKeepsInv(c, before);
      assert Next(c, run[|run| - 2], run[|run| - 1]);
      var step :| Enabled(c, Last(before), step) && Last(run) == Take(c, Last(before), step);
      StepStamped(c, before, run, step);
    }
  }

  lemma StepStamped(c: Config, before: seq<World>, run: seq<World>, step: Step)
    requires before != [] && |run| == |before| + 1 && run[..|before|] == before && Last(before).clock == |before| - 1
    requires Inv(c, Last(before)) && Stamped(c, before, Last(before))
    requires Enabled(c, Last(before), step) && Last(run) == Take(c, Last(before), step)
    ensures Stamped(c, run, Last(run))
  {
    hide Inv, Enabled, Take, CallReads, AnswerReads, KnownFrom, KnownWas, Posted, F.FitsFrame;
    var w, w' := Last(before), Last(run);
    assert forall i :: 0 <= i < |before| ==> run[i] == before[i];
    CallsOfStep(c, w, step);
    AnswersOfStep(c, w, step);
    forall call | call in w'.calls
      ensures CallStamped(c, run, call)
    {
      if call !in w.calls {
        if !call.body.SyncExchange? { OthersReadAtOnce(c, w, step, call); }
        PostedIsStamped(c, before, run, call);
      }
    }
    forall k | k in w'.clients
      ensures ClientStamped(run, w'.clients[k])
    {
      if w'.clients[k].KnownRead? { KnownOfStep(c, w, step, k); }
    }
  }

  lemma OthersReadAtOnce(c: Config, w: World, step: Step, call: Call)
    requires Enabled(c, w, step) && call in Take(c, w, step).calls && call !in w.calls && !call.body.SyncExchange?
    ensures call.since == call.at
  {
    hide F.FitsFrame, OwnEvents, KeyedById, StreamIds, CanTalk, CanReach, SealEvent, Insert;
    if !(step.SendSync? || step.AskPair? || step.WriteText? || step.WriteFile?) {
      OtherCalls(c, w, step);
    }
  }

  // ---------- Main result: what a completed sync has delivered ----------

  /** Operation `k` is a sync of `A` with `B` that has run to its end. */
  ghost predicate SyncDone(w: World, k: nat, a: Answer) {
    k in w.clients && w.clients[k] == Done(a) && a.call.body.SyncExchange?
  }

  /** Events of their stream that `author` had written in state `w`. */
  ghost function Written(w: World, author: DeviceId, peer: DeviceId): set<EventEnvelope>
    requires author in w.nodes
  {
    set e | e in Stream(w.nodes[author].events, DirectStreamId(author, peer)) && e.author == author
  }

  /** When a sync of `A` with `B` has completed, everything `A` had written when it sent its request
      is stored at `B`, and everything `B` had written when it answered is stored at `A`. */
  lemma SyncDelivers(c: Config, run: seq<World>, k: nat, a: Answer)
    requires IsRun(c, run) && SyncDone(Last(run), k, a)
    ensures var w, A, B := Last(run), a.call.src, a.call.dst;
            && a.call.at < |run| && a.at < |run| && A in run[a.call.at].nodes && B in run[a.at].nodes
            && (forall e :: e in Written(run[a.call.at], A, B) ==> Stored(w, B, e))
            && (forall e :: e in Written(run[a.at], B, A) ==> Stored(w, A, e))
  {
    hide IsRun, Stamped;
    RunKeepsInv(c, run);
    RunStamped(c, run);
    var w := Last(run);
    ClientFact(c, w, k);
    AnswerFact(c, w, a);
    StampFact(c, run, a);
    SentIsStored(c, run, k, a);
    forall e | e in Written(run[a.at], a.call.dst, a.call.src)
      ensures Stored(w, a.call.src, e)
    {
      AnsweredIsStored(c, run, k, a, e);
    }
  }

  lemma StampFact(c: Config, run: seq<World>, a: Answer)
    requires run != [] && Stamped(c, run, Last(run)) && a in Last(run).answers && a.call in Last(run).calls
    ensures a.call.at < |run| && a.at < |run| && CallReads(run[a.call.at], a.call) && AnswerReads(run[a.at], a)
  {
  }

  lemma SentIsStored(c: Config, run: seq<World>, k: nat, a: Answer)
    requires run != [] && Inv(c, Last(run)) && SyncDone(Last(run), k, a)
    requires a.call.at < |run| && CallReads(run[a.call.at], a.call)
    ensures forall e :: e in Written(run[a.call.at], a.call.src, a.call.dst) ==> Stored(Last(run), a.call.dst, e)
  {
    hide RecordsOk, NodesOk, OpsOk, Stored, OwnEvents;
    var w, w0 := Last(run), run[a.call.at];
    ClientFact(c, w, k);
    AnswerFact(c, w, a);
    SyncLaws.OwnEventsMembers(a.call.src, w0.nodes[a.call.src], a.call.body.stream);
  }

  lemma AnsweredIsStored(c: Config, run: seq<World>, k: nat, a: Answer, e: EventEnvelope)
    requires IsRun(c, run) && Inv(c, Last(run)) && SyncDone(Last(run), k, a)
    requires a.at < |run| && AnswerReads(run[a.at], a) && e in Written(run[a.at], a.call.dst, a.call.src)
    ensures Stored(Last(run), a.call.src, e)
  {
    hide RecordsOk, NodesOk, OpsOk, OwnEvents, IsRun, Grows;
    var w, w0, A, B := Last(run), run[a.at], a.call.src, a.call.dst;
    ClientFact(c, w, k);
    AnswerFact(c, w, a);
    StreamIdSymmetric(A, B);
    var own := OwnEvents(B, w0.nodes[B], a.call.body.stream);
    SyncLaws.OwnEventsMembers(B, w0.nodes[B], a.call.body.stream);
    UnknownMembers(a.call.body.known, own);
    RunGrows(c, run, a.at);
    StoredGrows(w0, w, B, e);
    if e.id in a.call.body.known {
      LogFact(c, w, A, e.id);
      LogFact(c, w, B, e.id);
    }
  }

  /** What has been delivered stays delivered. */
  lemma DeliveredForGood(c: Config, run: seq<World>, i: nat, k: nat, a: Answer)
    requires IsRun(c, run) && i < |run| && SyncDone(run[i], k, a)
    ensures a.call.at <= i && a.at <= i && a.call.src in run[a.call.at].nodes && a.call.dst in run[a.at].nodes
    ensures forall e :: e in Written(run[a.call.at], a.call.src, a.call.dst) ==> Stored(Last(run), a.call.dst, e)
    ensures forall e :: e in Written(run[a.at], a.call.dst, a.call.src) ==> Stored(Last(run), a.call.src, e)
  {
    hide Stored, Grows, Next, Init;
    var prefix := run[..i + 1];
    SyncDelivers(c, prefix, k, a);
    RunGrows(c, run, i);
    forall n, e | Stored(run[i], n, e)
      ensures Stored(Last(run), n, e)
    {
      StoredGrows(run[i], Last(run), n, e);
    }
  }

  // ---------- Convergence ----------

  /** An event of a conversation is stored at `n` by either of its two ends, and always at its author. */
  lemma WrittenByEither(c: Config, w: World, n: DeviceId, peer: DeviceId)
    requires Inv(c, w) && n in w.nodes && peer in c.ids && n != peer
    ensures forall e :: e in Stream(w.nodes[n].events, DirectStreamId(n, peer)) ==>
      (e.author == n || e.author == peer) && Stored(w, e.author, e) && Stored(w, n, e)
  {
    hide RecordsOk, NodesOk, OpsOk, Stored;
    DeviceKeys(c, w);
    forall e | e in Stream(w.nodes[n].events, DirectStreamId(n, peer))
      ensures (e.author == n || e.author == peer) && Stored(w, e.author, e) && Stored(w, n, e)
    {
      var id :| id in w.nodes[n].events && w.nodes[n].events[id] == e;
      LogFact(c, w, n, id);
      StreamIdInjective(n, peer, e.author, w.minted[id].to);
      assert Stored(w, n, e) by { StoredHere(w, n, id); }
    }
  }

  lemma StoredHere(w: World, n: DeviceId, id: string)
    requires n in w.nodes && id in w.nodes[n].events && w.nodes[n].events[id].id == id
    ensures Stored(w, n, w.nodes[n].events[id])
  {
  }

  /** The two logs of a conversation are equal exactly when each end has what the other has written. */
  lemma LogsEqualExactlyWhenDelivered(c: Config, run: seq<World>, A: DeviceId, B: DeviceId)
    requires IsRun(c, run) && A in c.ids && B in c.ids && A != B
    ensures A in Last(run).nodes && B in Last(run).nodes
    ensures
      var w := Last(run);
      Stream(w.nodes[A].events, DirectStreamId(A, B)) == Stream(w.nodes[B].events, DirectStreamId(A, B)) <==>
        && (forall e :: e in Written(w, A, B) ==> Stored(w, B, e))
        && (forall e :: e in Written(w, B, A) ==> Stored(w, A, e))
  {
    hide Inv, Stored, Written, Stream, Next, Init;
    var w := Last(run);
    RunKeepsInv(c, run);
    DeviceKeys(c, w);
    StreamIdSymmetric(A, B);
    var S := DirectStreamId(A, B);
    WrittenByEither(c, w, A, B);
    WrittenByEither(c, w, B, A);
    InWritten(w, A, B);
    InWritten(w, B, A);
    InStream(w, A, S);
    InStream(w, B, S);
    Mutual(A, B, Stream(w.nodes[A].events, S), Stream(w.nodes[B].events, S));
  }

  lemma Mutual(A: DeviceId, B: DeviceId, a: set<EventEnvelope>, b: set<EventEnvelope>)
    requires forall e :: e in a + b ==> (e.author == A && e in a) || (e.author == B && e in b)
    ensures a == b <==>
      (forall e :: e in a && e.author == A ==> e in b) && (forall e :: e in b && e.author == B ==> e in a)
  {
  }

  lemma InWritten(w: World, author: DeviceId, peer: DeviceId)
    requires author in w.nodes
    ensures forall e :: e in Written(w, author, peer) <==>
      e in Stream(w.nodes[author].events, DirectStreamId(author, peer)) && e.author == author
    ensures forall e :: e in Written(w, author, peer) ==> e.stream == DirectStreamId(author, peer)
  {
  }

  lemma InStream(w: World, n: DeviceId, stream: string)
    requires n in w.nodes
    ensures forall e: EventEnvelope :: e.stream == stream && Stored(w, n, e) ==> e in Stream(w.nodes[n].events, stream)
    ensures forall e :: e in Stream(w.nodes[n].events, stream) ==> e.stream == stream
  {
  }

  /** Main result: after a completed sync the two logs are equal exactly when every event that either
      end has written since it read its log for that sync has reached the other end too. */
  lemma SyncConverges(c: Config, run: seq<World>, i: nat, k: nat, a: Answer)
    requires IsRun(c, run) && i < |run| && SyncDone(run[i], k, a)
    ensures var w, A, B := Last(run), a.call.src, a.call.dst;
      && A in w.nodes && B in w.nodes && a.call.at < |run| && a.at < |run| && A in run[a.call.at].nodes
      && B in run[a.at].nodes
      && (Stream(w.nodes[A].events, DirectStreamId(A, B)) == Stream(w.nodes[B].events, DirectStreamId(A, B)) <==>
           && (forall e :: e in Written(w, A, B) - Written(run[a.call.at], A, B) ==> Stored(w, B, e))
           && (forall e :: e in Written(w, B, A) - Written(run[a.at], B, A) ==> Stored(w, A, e)))
  {
    hide IsRun, Stored, Written;
    var w, A, B := Last(run), a.call.src, a.call.dst;
    DeliveredForGood(c, run, i, k, a);
    RunKeepsInv(c, run);
    SyncEnds(c, run, i, k, a);
    LogsEqualExactlyWhenDelivered(c, run, A, B);
  }

  lemma SyncEnds(c: Config, run: seq<World>, i: nat, k: nat, a: Answer)
    requires IsRun(c, run) && i < |run| && SyncDone(run[i], k, a)
    ensures a.call.src in c.ids && a.call.dst in c.ids && a.call.src != a.call.dst
  {
    hide Next, Init, Inv;
    RunKeepsInv(c, run[..i + 1]);
    ClientFact(c, run[i], k);
    AnswerFact(c, run[i], a);
  }

  /** With nothing written since, and as far as later pushes were acknowledged, the logs are equal
      and both devices show the same conversation, which opens without an error. */
  lemma QuietSyncConverges(c: Config, run: seq<World>, i: nat, k: nat, a: Answer)
    requires IsRun(c, run) && i < |run| && SyncDone(run[i], k, a)
    requires var w, A, B := Last(run), a.call.src, a.call.dst;
      && A in w.nodes && B in w.nodes && a.call.at < |run| && a.at < |run| && A in run[a.call.at].nodes
      && B in run[a.at].nodes
      && (forall e :: e in Written(w, A, B) - Written(run[a.call.at], A, B) ==> Acknowledged(w, A, B, e))
      && (forall e :: e in Written(w, B, A) - Written(run[a.at], B, A) ==> Acknowledged(w, B, A, e))
    ensures var w, A, B := Last(run), a.call.src, a.call.dst;
      && KeyedById(w.nodes[A].events) && KeyedById(w.nodes[B].events) && A in c.ids && B in c.ids
      && Events(w.nodes[A].events, DirectStreamId(A, B)) == Events(w.nodes[B].events, DirectStreamId(B, A))
      && Conversation(c, w, A, B) == Conversation(c, w, B, A) && Conversation(c, w, A, B).Ok?
  {
    hide IsRun, Written, Stored, Acknowledged;
    var w, A, B := Last(run), a.call.src, a.call.dst;
    RunKeepsInv(c, run);
    SyncEnds(c, run, i, k, a);
    forall e | Acknowledged(w, A, B, e)
      ensures Stored(w, B, e)
    {
      AcknowledgedIsStored(c, run, A, B, e);
    }
    forall e | Acknowledged(w, B, A, e)
      ensures Stored(w, A, e)
    {
      AcknowledgedIsStored(c, run, B, A, e);
    }
    SyncConverges(c, run, i, k, a);
    SameConversation(c, w, A, B);
  }

  /** The push of `e` has been answered. */
  ghost predicate Acknowledged(w: World, src: DeviceId, dst: DeviceId, e: EventEnvelope) {
    exists a :: a in w.answers && a.call.src == src && a.call.dst == dst && a.call.body == PushEvent(e)
  }

  /** Once the push of an event has been answered, its receiver stores it. */
  lemma AcknowledgedIsStored(c: Config, run: seq<World>, src: DeviceId, dst: DeviceId, e: EventEnvelope)
    requires IsRun(c, run) && Acknowledged(Last(run), src, dst, e)
    ensures Stored(Last(run), dst, e)
  {
    hide Inv, Next, Init;
    var w := Last(run);
    RunKeepsInv(c, run);
    var a :| a in w.answers && a.call.src == src && a.call.dst == dst && a.call.body == PushEvent(e);
    AnswerFact(c, w, a);
  }

  // ---------- Any two devices, at any time ----------

  /** What `chat` returns at `n`. */
  ghost function Conversation(c: Config, w: World, n: DeviceId, peer: DeviceId): Result<seq<ChatItem>>
    requires n in w.nodes && n in c.ids && peer in c.ids && KeyedById(w.nodes[n].events)
  {
    Items(c.prim, c.ids[n], c.ids[peer].public, Events(w.nodes[n].events, DirectStreamId(n, peer)))
  }

  lemma MintedIsGenuine(c: Config, w: World, id: string, A: DeviceId, B: DeviceId)
    requires ConfigOk(c) && id in w.minted && MintedOk(c, w, id) && A in c.ids && B in c.ids && A != B
    requires w.minted[id].event.stream == DirectStreamId(A, B)
    ensures SyncLaws.Genuine(c.prim, c.ids[A], c.ids[B], w.minted[id].event, w.minted[id].payload)
  {
    var e := w.minted[id].event;
    StreamIdInjective(A, B, e.author, w.minted[id].to);
    StreamIdSymmetric(A, B);
    assert SyncLaws.Between(c.ids[A], c.ids[B]) == DirectStreamId(A, B);
  }

  lemma StreamIsGenuine(c: Config, w: World, n: DeviceId, A: DeviceId, B: DeviceId)
    requires Inv(c, w) && n in w.nodes && A in c.ids && B in c.ids && A != B && (n == A || n == B)
    ensures forall e :: e in Stream(w.nodes[n].events, DirectStreamId(A, B)) ==>
      e.id in w.minted && SyncLaws.Genuine(c.prim, c.ids[A], c.ids[B], e, w.minted[e.id].payload)
    ensures SyncLaws.StreamGenuine(c.prim, c.ids[A], c.ids[B], w.nodes[n])
  {
    hide RecordsOk, NodesOk, OpsOk, SealEvent;
    DeviceKeys(c, w);
    StreamIdSymmetric(A, B);
    forall e | e in Stream(w.nodes[n].events, DirectStreamId(A, B))
      ensures e.id in w.minted && SyncLaws.Genuine(c.prim, c.ids[A], c.ids[B], e, w.minted[e.id].payload)
    {
      var id :| id in w.nodes[n].events && w.nodes[n].events[id] == e;
      LogFact(c, w, n, id);
      MintedIsGenuine(c, w, id, A, B);
    }
  }

  lemma SameConversation(c: Config, w: World, A: DeviceId, B: DeviceId)
    requires Inv(c, w) && A in c.ids && B in c.ids && A != B && A in w.nodes && B in w.nodes
    requires Stream(w.nodes[A].events, DirectStreamId(A, B)) == Stream(w.nodes[B].events, DirectStreamId(A, B))
    ensures KeyedById(w.nodes[A].events) && KeyedById(w.nodes[B].events)
    ensures Events(w.nodes[A].events, DirectStreamId(A, B)) == Events(w.nodes[B].events, DirectStreamId(B, A))
    ensures Conversation(c, w, A, B) == Conversation(c, w, B, A) && Conversation(c, w, A, B).Ok?
  {
    DeviceKeys(c, w);
    KeyedFact(c, w, A);
    KeyedFact(c, w, B);
    StreamIsGenuine(c, w, A, A, B);
    SyncLaws.ChatsAgree(c.prim, c.ids[A], c.ids[B], w.nodes[A], w.nodes[B]);
    ListingUnique(Events(w.nodes[A].events, DirectStreamId(A, B)), Events(w.nodes[B].events, DirectStreamId(B, A)));
  }

  lemma KeyedFact(c: Config, w: World, n: DeviceId)
    requires Inv(c, w) && n in w.nodes
    ensures Sound(c.prim, w.nodes[n]) && KeyedById(w.nodes[n].events)
  {
    NodeHas(c, w, n);
  }
}
