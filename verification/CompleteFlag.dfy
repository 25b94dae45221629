/** What the `complete` flag says while calls on one store interleave, and when it is out of date: the
    refresh counts the missing rows and writes the flag in two separate sections. */
module CompleteFlag {
  import opened Wrappers
  import opened Model
  import opened Crypto
  import opened ChunkRows
  import opened Tables
  import opened StoreRaces

  // ---------- Rows only rise ----------

  /** The manifest is stored and none of its rows is missing. */
  ghost predicate Full(s: State, id: string) {
    id in s.t.manifests && MissingChunks(s.t, id) == []
  }

  ghost predicate Complete(s: State, id: string) {
    id in s.t.manifests && s.t.manifests[id].complete
  }

  lemma SameRows(s: State, s': State, id: string)
    requires s'.t.chunks == s.t.chunks
    ensures Raised(RowsOf(s.t, id), RowsOf(s'.t, id))
  {
  }

  lemma MarkedRows(s: State, s': State, h: string, id: string)
    requires s'.t == MarkPresent(s.t, h)
    ensures Raised(RowsOf(s.t, id), RowsOf(s'.t, id))
  {
    MarkRaises(RowsOf(s.t, id), h);
    assert id in s.t.chunks ==> s'.t.chunks[id] == Mark(s.t.chunks[id], h);
  }

  lemma CommittedRows(prim: Primitives, catalog: string -> FileManifest, s: State, i: nat, id: string)
    requires Inv(prim, catalog, s) && i in s.ops && s.ops[i].SaveRow? && id in s.t.manifests
    ensures Raised(RowsOf(s.t, id), RowsOf(Advance(s, i).t, id))
  {
    hide Sound, Covers, MarkPending, Sorted, FlagsHonest;
    assert OpOk(prim, catalog, s, i);
    assert RowsOf(Advance(s, i).t, id) == RowsOf(s.t, id);
  }

  lemma AdvanceRaises(prim: Primitives, catalog: string -> FileManifest, s: State, i: nat, id: string)
    requires Inv(prim, catalog, s) && i in s.ops && id in s.t.manifests
    ensures id in Advance(s, i).t.manifests && Raised(RowsOf(s.t, id), RowsOf(Advance(s, i).t, id))
  {
    hide Inv, Raised, MarkPresent, RowsOf;
    match s.ops[i] {
      case PutMark(h) =>
        MarkedRows(s, Advance(s, i), h, id);
        MarkKeepsManifests(s.t, h);
      case SaveRow(_, _, _, _) => CommittedRows(prim, catalog, s, i, id);
      case _ => SameRows(s, Advance(s, i), id);
    }
  }

  lemma MarkKeepsManifests(t: Tables, h: string)
    ensures MarkPresent(t, h).manifests == t.manifests
  {
  }

  /** No step of any call takes a row away, renames one or unmarks one. */
  lemma RowsRise(prim: Primitives, catalog: string -> FileManifest, s: State, s': State, id: string)
    requires Inv(prim, catalog, s) && Next(prim, catalog, s, s') && id in s.t.manifests
    ensures id in s'.t.manifests && Raised(RowsOf(s.t, id), RowsOf(s'.t, id))
  {
    hide Inv, Advance;
    if i :| Enabled(s, i) && s' == Advance(s, i) {
      AdvanceRaises(prim, catalog, s, i, id);
    }
  }

  lemma RaisedStaysFull(before: seq<ChunkRow>, after: seq<ChunkRow>)
    requires Raised(before, after) && Missing(before) == []
    ensures Missing(after) == []
  {
    NothingMissing(before);
    NothingMissing(after);
    forall r | r in after
      ensures r.present
    {
      var k :| 0 <= k < |after| && after[k] == r;
      assert before[k] in before;
    }
  }

  // ---------- Writing the flag ----------

  /** The step from `s` to `s'` is the last section of a refresh of `id`, run by call `i`. */
  ghost predicate WritesBy(s: State, s': State, id: string, i: nat) {
    && i in s.ops && s.ops[i].WriteComplete? && s.ops[i].id == id
    && Enabled(s, i) && s' == Advance(s, i)
  }

  ghost predicate Writes(s: State, s': State, id: string) {
    exists i :: WritesBy(s, s', id, i)
  }

  /** Nothing but that section changes the flag. */
  lemma OnlyWritesChangeFlag(prim: Primitives, catalog: string -> FileManifest, s: State, s': State, id: string)
    requires Next(prim, catalog, s, s') && !Writes(s, s', id)
    ensures Complete(s', id) == Complete(s, id)
  {
    hide Advance, Complete;
    if i :| Enabled(s, i) && s' == Advance(s, i) {
      assert !WritesBy(s, s', id, i);
      OtherAdvance(s, i, id);
    } else {
      StartOrCrash(prim, catalog, s, s', id);
    }
  }

  lemma OtherAdvance(s: State, i: nat, id: string)
    requires i in s.ops && !(s.ops[i].WriteComplete? && s.ops[i].id == id)
    ensures Complete(Advance(s, i), id) == Complete(s, id)
  {
    hide MarkPresent;
    if s.ops[i].PutMark? { MarkKeepsManifests(s.t, s.ops[i].hash); }
  }

  lemma WriteSetsFlag(prim: Primitives, catalog: string -> FileManifest, s: State, s': State, id: string, i: nat)
    requires Inv(prim, catalog, s) && WritesBy(s, s', id, i)
    ensures id in s'.t.manifests && Complete(s', id) == s.ops[i].complete
  {
    assert OpOk(prim, catalog, s, i);
  }

  // ---------- Settled for good ----------

  /** Nothing is missing, and no refresh that still counted missing rows is about to write. */
  ghost predicate Settled(s: State, id: string) {
    Full(s, id) && forall i :: i in s.ops ==> s.ops[i] != WriteComplete(id, false)
  }

  lemma AdvanceKeepsSettled(prim: Primitives, catalog: string -> FileManifest, s: State, i: nat, id: string)
    requires Inv(prim, catalog, s) && i in s.ops && Settled(s, id) && Full(Advance(s, i), id)
    ensures Settled(Advance(s, i), id)
    ensures Complete(s, id) ==> Complete(Advance(s, i), id)
  {
    hide Inv;
  }

  lemma NextKeepsSettled(prim: Primitives, catalog: string -> FileManifest, s: State, s': State, id: string)
    requires Inv(prim, catalog, s) && Next(prim, catalog, s, s') && Settled(s, id)
    ensures Settled(s', id)
    ensures Complete(s, id) || Writes(s, s', id) ==> Complete(s', id)
  {
    RowsRise(prim, catalog, s, s', id);
    RaisedStaysFull(RowsOf(s.t, id), RowsOf(s'.t, id));
    hide Advance, Complete;
    if i :| WritesBy(s, s', id, i) {
      WriteSetsFlag(prim, catalog, s, s', id, i);
    }
    hide Inv;
    if i :| Enabled(s, i) && s' == Advance(s, i) {
      AdvanceKeepsSettled(prim, catalog, s, i, id);
    } else {
      assert Complete(s', id) == Complete(s, id) by { StartOrCrash(prim, catalog, s, s', id); }
    }
  }

  lemma StartOrCrash(prim: Primitives, catalog: string -> FileManifest, s: State, s': State, id: string)
    requires Next(prim, catalog, s, s') && !exists i :: Enabled(s, i) && s' == Advance(s, i)
    ensures s'.t == s.t && Complete(s', id) == Complete(s, id)
  {
  }

  lemma InvAt(prim: Primitives, catalog: string -> FileManifest, run: seq<State>, k: nat)
    requires IsRun(prim, catalog, run) && k < |run|
    ensures Inv(prim, catalog, run[k])
    ensures k + 1 < |run| ==> Next(prim, catalog, run[k], run[k + 1])
  {
    hide Inv, Next, Init;
    RunKeepsInv(prim, catalog, run[..k + 1]);
  }

  /** Main result: once settled, a manifest stays settled whatever calls are made or die, its flag never
      falls again, and any refresh that finishes leaves it set. */
  lemma {:induction false} SettledForGood(
    prim: Primitives, catalog: string -> FileManifest, run: seq<State>, id: string, a: nat, b: nat)
    requires IsRun(prim, catalog, run) && a <= b < |run| && Settled(run[a], id)
    ensures Settled(run[b], id)
    ensures Complete(run[a], id) || (exists j :: a <= j < b && Writes(run[j], run[j + 1], id)) ==> Complete(run[b], id)
    decreases b
  {
    hide Settled, Complete, Writes, IsRun, Inv, Next;
    if a < b {
      SettledForGood(prim, catalog, run, id, a, b - 1);
      InvAt(prim, catalog, run, b - 1);
      NextKeepsSettled(prim, catalog, run[b - 1], run[b], id);
    }
  }

  /** So a stale flag is repaired by the next refresh: with no call in flight and nothing missing, any
      refresh that finishes later leaves the flag set for the rest of the run. */
  lemma RefreshRepairs(
    prim: Primitives, catalog: string -> FileManifest, run: seq<State>, id: string, a: nat, j: nat, b: nat)
    requires IsRun(prim, catalog, run) && a <= j < b < |run|
    requires run[a].ops == map[] && Full(run[a], id) && Writes(run[j], run[j + 1], id)
    ensures Full(run[b], id) && Complete(run[b], id)
  {
    hide IsRun, Writes, Complete;
    assert Settled(run[a], id);
    SettledForGood(prim, catalog, run, id, a, b);
  }

  // ---------- When exactly the flag is out of date ----------

  lemma {:induction false} FullForGood(
    prim: Primitives, catalog: string -> FileManifest, run: seq<State>, id: string, a: nat, b: nat)
    requires IsRun(prim, catalog, run) && a <= b < |run| && Full(run[a], id)
    ensures Full(run[b], id)
    decreases b
  {
    hide IsRun, Inv, Next;
    if a < b {
      FullForGood(prim, catalog, run, id, a, b - 1);
      InvAt(prim, catalog, run, b - 1);
      RowsRise(prim, catalog, run[b - 1], run[b], id);
      RaisedStaysFull(RowsOf(run[b - 1].t, id), RowsOf(run[b].t, id));
    }
  }

  lemma {:induction false} FlagBetween(
    prim: Primitives, catalog: string -> FileManifest, run: seq<State>, id: string, a: nat, b: nat)
    requires IsRun(prim, catalog, run) && a <= b < |run|
    requires forall j :: a <= j < b ==> !Writes(run[j], run[j + 1], id)
    ensures Complete(run[b], id) == Complete(run[a], id)
    decreases b
  {
    hide IsRun, Inv, Next, Writes, Complete;
    if a < b {
      FlagBetween(prim, catalog, run, id, a, b - 1);
      InvAt(prim, catalog, run, b - 1);
      OnlyWritesChangeFlag(prim, catalog, run[b - 1], run[b], id);
    }
  }

  /** Call `i` counts the missing rows of `id` in state `t`. */
  ghost predicate Counts(run: seq<State>, id: string, i: nat, t: nat) {
    && t + 1 < |run| && i in run[t].ops && run[t].ops[i] == CountMissing(id)
    && Enabled(run[t], i) && run[t + 1] == Advance(run[t], i)
  }

  /** Call `i` counts in state `t` and has its answer still to write in state `n`. */
  ghost predicate Pends(run: seq<State>, id: string, i: nat, t: nat, n: nat) {
    && t < n < |run| && Counts(run, id, i, t)
    && forall k :: t < k <= n ==>
         i in run[k].ops && run[k].ops[i] == WriteComplete(id, MissingChunks(run[t].t, id) == [])
  }

  /** A whole refresh of `id` by call `i`: it counts in state `t` and writes in the step from state `j`. */
  ghost predicate Refreshes(run: seq<State>, id: string, i: nat, t: nat, j: nat) {
    j + 1 < |run| && Pends(run, id, i, t, j) && WritesBy(run[j], run[j + 1], id, i)
  }

  ghost predicate LastWrite(run: seq<State>, id: string, j: nat) {
    && j + 1 < |run| && Writes(run[j], run[j + 1], id)
    && forall k :: j < k < |run| - 1 ==> !Writes(run[k], run[k + 1], id)
  }

  lemma PendsNext(prim: Primitives, catalog: string -> FileManifest, s: State, s': State, i: nat)
    requires Next(prim, catalog, s, s') && i in s'.ops && s'.ops[i].WriteComplete?
    ensures i in s.ops
    ensures s.ops[i] == s'.ops[i] ||
      (Enabled(s, i) && s' == Advance(s, i) && s.ops[i] == CountMissing(s'.ops[i].id)
       && s'.ops[i] == WriteComplete(s'.ops[i].id, MissingChunks(s.t, s'.ops[i].id) == []))
  {
    hide Advance, MissingChunks;
    if x :| Enabled(s, x) && s' == Advance(s, x) { AdvancePends(s, x, i); }
  }

  lemma AdvancePends(s: State, x: nat, i: nat)
    requires x in s.ops && i in Advance(s, x).ops && Advance(s, x).ops[i].WriteComplete?
    ensures var op := Advance(s, x).ops[i];
            i in s.ops && (s.ops[i] == op ||
              (x == i && s.ops[i] == CountMissing(op.id)
               && op == WriteComplete(op.id, MissingChunks(s.t, op.id) == [])))
  {
    hide MissingChunks, MarkPresent, Commit, SetComplete, RowsOf;
  }

  lemma {:induction false} PendingWasCounted(
    prim: Primitives, catalog: string -> FileManifest, run: seq<State>, id: string, i: nat, n: nat)
    requires IsRun(prim, catalog, run) && n < |run|
    requires i in run[n].ops && run[n].ops[i].WriteComplete? && run[n].ops[i].id == id
    ensures exists t :: Pends(run, id, i, t, n)
  {
    hide Next, Advance, Inv, MissingChunks;
    if n > 0 {
      InvAt(prim, catalog, run, n - 1);
      PendsNext(prim, catalog, run[n - 1], run[n], i);
      if run[n - 1].ops[i] == run[n].ops[i] {
        PendingWasCounted(prim, catalog, run, id, i, n - 1);
        var t :| Pends(run, id, i, t, n - 1);
        assert Pends(run, id, i, t, n);
      } else {
        assert Counts(run, id, i, n - 1);
        assert Pends(run, id, i, n - 1, n);
      }
    }
  }

  /** The flag is what the last refresh to write had counted. */
  lemma LastWriteDecides(
    prim: Primitives, catalog: string -> FileManifest, run: seq<State>, id: string, i: nat, t: nat, j: nat)
    requires IsRun(prim, catalog, run) && Refreshes(run, id, i, t, j) && LastWrite(run, id, j)
    ensures Complete(run[|run| - 1], id) == Full(run[t], id)
  {
    hide Inv, Next, Writes, Complete, Advance, MissingChunks;
    InvAt(prim, catalog, run, j);
    WriteSetsFlag(prim, catalog, run[j], run[j + 1], id, i);
    FlagBetween(prim, catalog, run, id, j + 1, |run| - 1);
    InvAt(prim, catalog, run, t);
    CountedIsStored(prim, catalog, run[t], i);
  }

  lemma CountedIsStored(prim: Primitives, catalog: string -> FileManifest, s: State, i: nat)
    requires Inv(prim, catalog, s) && i in s.ops && s.ops[i].CountMissing?
    ensures s.ops[i].id in s.t.manifests
  {
    assert OpOk(prim, catalog, s, i);
  }

  /** The last row of `id` rose in the step to state `d`. */
  ghost predicate LastRise(run: seq<State>, id: string, d: nat) {
    0 < d < |run| && Full(run[d], id) && !Full(run[d - 1], id)
  }

  lemma {:induction false} LastRiseExists(
    prim: Primitives, catalog: string -> FileManifest, run: seq<State>, id: string, n: nat) returns (d: nat)
    requires IsRun(prim, catalog, run) && n < |run| && Full(run[n], id)
    ensures LastRise(run, id, d)
  {
    hide Next;
    if Full(run[n - 1], id) { d := LastRiseExists(prim, catalog, run, id, n - 1); } else { d := n; }
  }

  lemma NotCompleteAtRise(prim: Primitives, catalog: string -> FileManifest, run: seq<State>, id: string, d: nat)
    requires IsRun(prim, catalog, run) && LastRise(run, id, d)
    ensures !Complete(run[d], id)
  {
    hide Next, Advance, Inv, IsRun;
    InvAt(prim, catalog, run, d - 1);
    FlagNeedsFull(prim, catalog, run[d - 1], id);
    if Writes(run[d - 1], run[d], id) {
      WriteKeepsRows(run[d - 1], run[d], id);
    } else {
      OnlyWritesChangeFlag(prim, catalog, run[d - 1], run[d], id);
    }
  }

  lemma FlagNeedsFull(prim: Primitives, catalog: string -> FileManifest, s: State, id: string)
    requires Inv(prim, catalog, s)
    ensures Complete(s, id) ==> Full(s, id)
  {
  }

  lemma WriteKeepsRows(s: State, s': State, id: string)
    requires Writes(s, s', id)
    ensures Full(s', id) == Full(s, id)
  {
    assert RowsOf(s'.t, id) == RowsOf(s.t, id);
  }

  lemma {:induction false} LastWriteExists(run: seq<State>, id: string, j: nat) returns (l: nat)
    requires j + 1 < |run| && Writes(run[j], run[j + 1], id)
    ensures LastWrite(run, id, l) && j <= l
    decreases |run| - j
  {
    hide Writes;
    l := j;
    if k :| j < k < |run| - 1 && Writes(run[k], run[k + 1], id) { l := LastWriteExists(run, id, k); }
  }

  /** Some refresh of `id` has written in state `d` or later. */
  ghost predicate WroteSince(run: seq<State>, id: string, d: nat) {
    exists j: nat :: d <= j < |run| - 1 && Writes(run[j], run[j + 1], id)
  }

  /** The last refresh of `id` to write had counted before state `d`. */
  ghost predicate LastCountedBefore(run: seq<State>, id: string, d: nat) {
    exists i: nat, t: nat, j: nat :: t < d && Refreshes(run, id, i, t, j) && LastWrite(run, id, j)
  }

  /** Main result: of a manifest with nothing missing the flag is unset exactly when no refresh of it has
      written since its last row rose, in the step to state `d`, or the last one to write had counted before. */
  lemma StaleExactlyWhen(prim: Primitives, catalog: string -> FileManifest, run: seq<State>, id: string)
    returns (d: nat)
    requires IsRun(prim, catalog, run) && Full(run[|run| - 1], id)
    ensures LastRise(run, id, d)
    ensures !Complete(run[|run| - 1], id) <==> !WroteSince(run, id, d) || LastCountedBefore(run, id, d)
  {
    hide Full, Complete, LastRise, WroteSince, LastCountedBefore, Inv, Next, Init;
    d := LastRiseExists(prim, catalog, run, id, |run| - 1);
    StaleSince(prim, catalog, run, id, d);
  }

  lemma StaleSince(prim: Primitives, catalog: string -> FileManifest, run: seq<State>, id: string, d: nat)
    requires IsRun(prim, catalog, run) && LastRise(run, id, d)
    ensures Full(run[|run| - 1], id)
    ensures !Complete(run[|run| - 1], id) <==> !WroteSince(run, id, d) || LastCountedBefore(run, id, d)
  {
    hide IsRun, Writes, Refreshes, Complete, Full, Inv, LastWrite;
    var n := |run| - 1;
    SinceRise(prim, catalog, run, id, d);
    if WroteSince(run, id, d) {
      var j: nat :| d <= j < n && Writes(run[j], run[j + 1], id);
      var l := LastWriteExists(run, id, j);
      var i, t := WriteWasCounted(prim, catalog, run, id, l);
      LastWriteDecides(prim, catalog, run, id, i, t, l);
      if LastCountedBefore(run, id, d) {
        var i': nat, t': nat, l': nat :| t' < d && Refreshes(run, id, i', t', l') && LastWrite(run, id, l');
        LastWriteDecides(prim, catalog, run, id, i', t', l');
      }
    } else {
      NotCompleteAtRise(prim, catalog, run, id, d);
      FlagBetween(prim, catalog, run, id, d, n);
    }
  }

  /** From the last rise on, and only from then on, nothing is missing. */
  lemma SinceRise(prim: Primitives, catalog: string -> FileManifest, run: seq<State>, id: string, d: nat)
    requires IsRun(prim, catalog, run) && LastRise(run, id, d)
    ensures forall k :: 0 <= k < |run| ==> (Full(run[k], id) <==> d <= k)
  {
    hide IsRun, Full;
    forall k | 0 <= k < |run|
      ensures Full(run[k], id) <==> d <= k
    {
      if d <= k {
        FullForGood(prim, catalog, run, id, d, k);
      } else if Full(run[k], id) {
        FullForGood(prim, catalog, run, id, k, d - 1);
      }
    }
  }

  lemma WriteWasCounted(prim: Primitives, catalog: string -> FileManifest, run: seq<State>, id: string, j: nat)
    returns (i: nat, t: nat)
    requires IsRun(prim, catalog, run) && LastWrite(run, id, j)
    ensures Refreshes(run, id, i, t, j) && t < |run|
  {
    hide IsRun, Advance;
    i :| WritesBy(run[j], run[j + 1], id, i);
    PendingWasCounted(prim, catalog, run, id, i, j);
    t :| Pends(run, id, i, t, j);
  }

  // ---------- A run that ends with a stale flag ----------

  lemma Begin(
    prim: Primitives, catalog: string -> FileManifest, run: seq<State>, i: nat, op: Op) returns (longer: seq<State>)
    requires IsRun(prim, catalog, run)
    requires i !in run[|run| - 1].ops && Startable(prim, catalog, run[|run| - 1], op)
    ensures IsRun(prim, catalog, longer) && |longer| == |run| + 1 && longer[..|run|] == run
    ensures longer[|run|] == Become(run[|run| - 1], i, op)
  {
    longer := run + [Become(run[|run| - 1], i, op)];
    hide Advance;
    assert Next(prim, catalog, run[|run| - 1], longer[|run|]);
    assert forall k :: 0 <= k < |run| ==> longer[k] == run[k];
    hide Next, Init;
  }

  lemma Move(prim: Primitives, catalog: string -> FileManifest, run: seq<State>, i: nat) returns (longer: seq<State>)
    requires IsRun(prim, catalog, run) && Enabled(run[|run| - 1], i)
    ensures IsRun(prim, catalog, longer) && |longer| == |run| + 1 && longer[..|run|] == run
    ensures longer[|run|] == Advance(run[|run| - 1], i)
  {
    longer := run + [Advance(run[|run| - 1], i)];
    hide Advance;
    assert Next(prim, catalog, run[|run| - 1], longer[|run|]);
    assert forall k :: 0 <= k < |run| ==> longer[k] == run[k];
    hide Next, Init;
  }

  /** A file of one chunk with content `bytes`. */
  function OneChunk(prim: Primitives, id: string, bytes: Bytes): FileManifest {
    FileManifest(id, "", "", |bytes|, FILE_CHUNK_SIZE, [ChunkDescriptor(0, prim.hash(bytes), |bytes|)],
      prim.hash(bytes))
  }

  /** The tables of a store that knows this file alone. */
  function Known(prim: Primitives, peer: DeviceId, id: string, bytes: Bytes, stored: bool, complete: bool): Tables {
    EMPTY.(manifests := map[id := ManifestRow(peer, OneChunk(prim, id, bytes), complete)],
           chunks := map[id := [ChunkRow(0, prim.hash(bytes), stored)]],
           blobs := if stored then map[prim.hash(bytes) := bytes] else map[])
  }

  /** The file is announced; the save has counted its missing chunk and not yet written. */
  lemma Announce(
    prim: Primitives, catalog: string -> FileManifest, peer: DeviceId, id: string, bytes: Bytes)
    returns (run: seq<State>)
    requires catalog(id) == OneChunk(prim, id, bytes)
    ensures IsRun(prim, catalog, run) && run != []
    ensures run[|run| - 1]
         == State(Known(prim, peer, id, bytes, false, false), map[], None, map[0 := WriteComplete(id, false)], false)
  {
    hide IsRun, Next, Init, Sound;
    var m := OneChunk(prim, id, bytes);
    run := Start(prim, catalog);
    run := Begin(prim, catalog, run, 0, SaveStart(peer, m));
    run := Move(prim, catalog, run, 0);
    run := Move(prim, catalog, run, 0);
    assert run[|run| - 1].ops[0] == SaveRow(peer, m, 1, [ChunkRow(0, prim.hash(bytes), false)]);
    run := Move(prim, catalog, run, 0);
    assert run[|run| - 1].t == Known(prim, peer, id, bytes, false, false);
    assert run[|run| - 1].ops == map[0 := CountMissing(id)];
    run := Move(prim, catalog, run, 0);
  }

  lemma Start(prim: Primitives, catalog: string -> FileManifest) returns (run: seq<State>)
    ensures IsRun(prim, catalog, run) && |run| == 1 && run[0] == State(EMPTY, map[], None, map[], false)
  {
    run := [State(EMPTY, map[], None, map[], false)];
  }

  /** A chunk is stored and its rows are about to be marked. */
  lemma Deliver(prim: Primitives, catalog: string -> FileManifest, bytes: Bytes, before: seq<State>)
    returns (run: seq<State>)
    requires IsRun(prim, catalog, before) && before != []
    requires var s := before[|before| - 1];
             s.lock == None && 1 !in s.ops && s.partial == map[] && s.t.blobs == map[]
    ensures IsRun(prim, catalog, run) && run != []
    ensures var s := before[|before| - 1];
            run[|run| - 1] == s.(t := s.t.(blobs := map[prim.hash(bytes) := bytes]),
                                 ops := s.ops[1 := PutMark(prim.hash(bytes))])
  {
    hide IsRun, Next, Init, Sound;
    var s := before[|before| - 1];
    var h := prim.hash(bytes);
    run := Begin(prim, catalog, before, 1, PutCheck(h, bytes));
    run := Move(prim, catalog, run, 1);
    assert run[|run| - 1] == s.(ops := s.ops[1 := PutWrite(h, bytes)]);
    run := Move(prim, catalog, run, 1);
    assert run[|run| - 1] == s.(partial := map[h := bytes], ops := s.ops[1 := PutRename(h, bytes)]);
    run := Move(prim, catalog, run, 1);
  }

  /** The chunk arrives meanwhile. */
  lemma Arrive(
    prim: Primitives, catalog: string -> FileManifest, peer: DeviceId, id: string, bytes: Bytes, before: seq<State>)
    returns (run: seq<State>)
    requires IsRun(prim, catalog, before) && before != []
    requires before[|before| - 1]
          == State(Known(prim, peer, id, bytes, false, false), map[], None, map[0 := WriteComplete(id, false)], false)
    ensures IsRun(prim, catalog, run) && run != []
    ensures run[|run| - 1]
         == State(Known(prim, peer, id, bytes, true, false), map[], None, map[0 := WriteComplete(id, false)], false)
  {
    hide IsRun, Next, Init, Sound;
    var h := prim.hash(bytes);
    run := Deliver(prim, catalog, bytes, before);
    var t := run[|run| - 1].t;
    assert t.chunks[id] == [ChunkRow(0, h, false)];
    run := Move(prim, catalog, run, 1);
    assert t.chunks.Keys == {id} && Mark([ChunkRow(0, h, false)], h) == [ChunkRow(0, h, true)];
    assert MarkPresent(t, h).chunks == map[id := [ChunkRow(0, h, true)]];
    assert run[|run| - 1].t == Known(prim, peer, id, bytes, true, false);
  }

  /** A stale flag does occur: a file is announced, its chunk arrives between the two sections of the
      save's own refresh, another refresh sets the flag, and the first one then writes its old count.
      No call is in flight, none has crashed, nothing is missing, and the flag is unset. */
  lemma StaleCompleteIsPossible(prim: Primitives, peer: DeviceId, id: string, bytes: Bytes)
    returns (catalog: string -> FileManifest, run: seq<State>)
    ensures IsRun(prim, catalog, run)
    ensures run[|run| - 1].ops == map[] && !run[|run| - 1].crashed
    ensures Full(run[|run| - 1], id) && !Complete(run[|run| - 1], id)
    ensures exists k :: 0 <= k < |run| && Complete(run[k], id)
  {
    hide IsRun, Next, Init, Sound;
    catalog := (x: string) => OneChunk(prim, x, bytes);
    run := Announce(prim, catalog, peer, id, bytes);
    run := Arrive(prim, catalog, peer, id, bytes, run);
    run := Begin(prim, catalog, run, 2, CountMissing(id));
    assert RowsOf(run[|run| - 1].t, id) == [ChunkRow(0, prim.hash(bytes), true)];
    NothingMissing([ChunkRow(0, prim.hash(bytes), true)]);
    run := Move(prim, catalog, run, 2);
    assert run[|run| - 1].ops[2] == WriteComplete(id, true);
    run := Move(prim, catalog, run, 2);
    assert run[|run| - 1].t == Known(prim, peer, id, bytes, true, true);
    var k := |run| - 1;
    run := Move(prim, catalog, run, 0);
    assert run[|run| - 1].t == Known(prim, peer, id, bytes, true, false);
    assert Complete(run[k], id);
  }
}
