/** Concurrent use of one store: any number of `put_blob`, `save_manifest` and
    `refresh_manifest_complete` calls, interleaved between their locked sections and file-system
    steps, with a crash possible at any point.

    `put_blob` tests for the file, writes a temporary, renames it and marks rows, and only the
    last of these holds the lock. `save_manifest` holds the lock for its transaction, during which
    files may still appear. A refresh counts under one lock and writes under another. */
module StoreRaces {
  import opened Wrappers
  import opened Model
  import opened Crypto
  import opened ChunkRows
  import opened Tables

  /** What a call still has to do. */
  datatype Op =
    | PutCheck(hash: string, bytes: Bytes)
    | PutWrite(hash: string, bytes: Bytes)
    | PutRename(hash: string, bytes: Bytes)
    | PutMark(hash: string)
    | SaveStart(peer: DeviceId, manifest: FileManifest)
    | SaveRow(peer: DeviceId, manifest: FileManifest, next: nat, rows: seq<ChunkRow>)
    | CountMissing(id: string)
    | WriteComplete(id: string, complete: bool)

  datatype State = State(
    t: Tables,
    partial: map<string, Bytes>,   // temporary files, by the hash they are meant for
    lock: Option<nat>,             // the call whose transaction is open
    ops: map<nat, Op>,
    crashed: bool)                 // whether a crash has happened at any time

  predicate NeedsLock(op: Op) {
    op.PutMark? || op.SaveStart? || op.CountMissing? || op.WriteComplete?
  }

  predicate Enabled(s: State, i: nat) {
    i in s.ops && (NeedsLock(s.ops[i]) ==> s.lock == None)
  }

  function Become(s: State, i: nat, op: Op): State {
    s.(ops := s.ops[i := op])
  }

  function Finish(s: State, i: nat): State {
    s.(ops := s.ops - {i})
  }

  /** The next step of call `i`. */
  function Advance(s: State, i: nat): State
    requires i in s.ops
  {
    match s.ops[i]
    case PutCheck(h, b) =>
      Become(s, i, if h in s.t.blobs then PutMark(h) else PutWrite(h, b))
    case PutWrite(h, b) =>
      Become(s.(partial := s.partial[h := b]), i, PutRename(h, b))
    case PutRename(h, b) =>
      if h in s.partial then
        var t := s.t.(blobs := s.t.blobs[h := s.partial[h]]);
        Become(s.(t := t, partial := s.partial - {h}), i, PutMark(h))
      else Finish(s, i)   // another writer took the temporary away: the call returns an error
    case PutMark(h) =>
      Finish(s.(t := MarkPresent(s.t, h)), i)
    case SaveStart(p, m) =>
      Become(s.(lock := Some(i)), i, SaveRow(p, m, 0, RowsOf(s.t, m.id)))
    case SaveRow(p, m, k, rows) =>
      if k < |m.chunks| then
        var c := m.chunks[k];
        Become(s, i, SaveRow(p, m, k + 1, InsertRow(rows, RowFor(c, c.hash in s.t.blobs))))
      else Become(s.(t := Commit(s.t, p, m, rows), lock := None), i, CountMissing(m.id))
    case CountMissing(id) =>
      Become(s, i, WriteComplete(id, MissingChunks(s.t, id) == []))
    case WriteComplete(id, c) =>
      Finish(s.(t := SetComplete(s.t, id, c)), i)
  }

  function Commit(t: Tables, p: DeviceId, m: FileManifest, rows: seq<ChunkRow>): Tables {
    t.(manifests := if m.id in t.manifests then t.manifests else t.manifests[m.id := ManifestRow(p, m, false)],
       chunks := t.chunks[m.id := rows])
  }

  /** All calls die; an open transaction is rolled back; files stay. */
  function Crash(s: State): State {
    s.(lock := None, ops := map[], crashed := true)
  }

  /** Calls that callers make: bytes already checked against their hash, a manifest that its id
      names, and a refresh only of a manifest that is stored. */
  predicate Startable(prim: Primitives, catalog: string -> FileManifest, s: State, op: Op) {
    match op
    case PutCheck(h, b) => prim.hash(b) == h
    case SaveStart(p, m) => catalog(m.id) == m
    case CountMissing(id) => id in s.t.manifests
    case _ => false
  }

  ghost predicate Next(prim: Primitives, catalog: string -> FileManifest, s: State, s': State) {
    || (exists i :: Enabled(s, i) && s' == Advance(s, i))
    || (exists i: nat, op :: i !in s.ops && Startable(prim, catalog, s, op) && s' == Become(s, i, op))
    || s' == Crash(s)
  }

  ghost predicate Init(s: State) {
    s == State(EMPTY, map[], None, map[], false)
  }

  ghost predicate IsRun(prim: Primitives, catalog: string -> FileManifest, run: seq<State>) {
    && run != [] && Init(run[0])
    && forall k :: 0 <= k < |run| - 1 ==> Next(prim, catalog, run[k], run[k + 1])
  }

  // ---------- The invariant ----------

  /** A row that misses a blob which exists is about to be marked. */
  ghost predicate MarkPending(s: State, rows: seq<ChunkRow>) {
    forall r :: r in rows && !r.present && r.hash in s.t.blobs ==> Marking(s, r.hash)
  }

  ghost predicate Marking(s: State, hash: string) {
    exists j :: j in s.ops && s.ops[j] == PutMark(hash)
  }

  ghost predicate OpOk(prim: Primitives, catalog: string -> FileManifest, s: State, i: nat)
    requires i in s.ops
  {
    match s.ops[i]
    case PutCheck(h, b) => prim.hash(b) == h
    case PutWrite(h, b) => prim.hash(b) == h
    case PutRename(h, b) => prim.hash(b) == h
    case PutMark(h) => h in s.t.blobs
    case SaveStart(p, m) => catalog(m.id) == m
    case SaveRow(p, m, k, rows) =>
      && s.lock == Some(i) && catalog(m.id) == m && k <= |m.chunks|
      && Sorted(rows) && FlagsHonest(rows, s.t.blobs) && Covers(rows, m.chunks[..k])
      && (m.id in s.t.manifests ==> rows == RowsOf(s.t, m.id))
      && (!s.crashed ==> MarkPending(s, rows))
    case CountMissing(id) => id in s.t.manifests
    case WriteComplete(id, c) => id in s.t.manifests && (c ==> MissingChunks(s.t, id) == [])
  }

  ghost predicate TablesOk(prim: Primitives, catalog: string -> FileManifest, s: State) {
    && Sound(prim, s.t)
    && (forall h :: h in s.partial ==> prim.hash(s.partial[h]) == h)
    && (forall id :: id in s.t.manifests ==>
        s.t.manifests[id].manifest == catalog(id) && Covers(s.t.chunks[id], catalog(id).chunks))
    && (!s.crashed ==> forall id :: id in s.t.chunks ==> MarkPending(s, s.t.chunks[id]))
  }

  ghost predicate Inv(prim: Primitives, catalog: string -> FileManifest, s: State) {
    && TablesOk(prim, catalog, s)
    && (s.lock.Some? ==> s.lock.value in s.ops && s.ops[s.lock.value].SaveRow?)
    && forall i :: i in s.ops ==> OpOk(prim, catalog, s, i)
  }

  lemma MarkingKept(s: State, i: nat, s': State)
    requires forall j :: j != i && j in s.ops ==> j in s'.ops && s'.ops[j] == s.ops[j]
    ensures forall g :: Marking(s, g) && (i in s.ops ==> s.ops[i] != PutMark(g)) ==> Marking(s', g)
  {
    forall g | Marking(s, g) && (i in s.ops ==> s.ops[i] != PutMark(g))
      ensures Marking(s', g)
    {
      var j :| j in s.ops && s.ops[j] == PutMark(g);
      assert j in s'.ops && s'.ops[j] == PutMark(g);
    }
  }

  /** Steps that neither touch the tables nor end or begin a marking. */
  lemma LocalStep(prim: Primitives, catalog: string -> FileManifest, s: State, i: nat, s': State)
    requires Inv(prim, catalog, s)
    requires s'.t == s.t && s'.crashed == s.crashed && s'.lock == s.lock
    requires forall h :: h in s'.partial ==> prim.hash(s'.partial[h]) == h
    requires forall j :: j != i ==> (j in s.ops <==> j in s'.ops) && (j in s.ops ==> s'.ops[j] == s.ops[j])
    requires i in s.ops ==> !s.ops[i].PutMark?
    requires i in s'.ops ==> OpOk(prim, catalog, s', i)
    requires s.lock == Some(i) ==> i in s'.ops && s'.ops[i].SaveRow?
    ensures Inv(prim, catalog, s')
  {
    MarkingKept(s, i, s');
    forall j | j in s'.ops
      ensures OpOk(prim, catalog, s', j)
    {
      if j != i {
        assert OpOk(prim, catalog, s, j);
      }
    }
  }

  lemma PutSteps(prim: Primitives, catalog: string -> FileManifest, s: State, i: nat)
    requires Inv(prim, catalog, s) && i in s.ops
    requires s.ops[i].PutCheck? || s.ops[i].PutWrite? || (s.ops[i].PutRename? && s.ops[i].hash !in s.partial)
    ensures Inv(prim, catalog, Advance(s, i))
  {
    assert OpOk(prim, catalog, s, i);
    LocalStep(prim, catalog, s, i, Advance(s, i));
  }

  lemma RenameStep(prim: Primitives, catalog: string -> FileManifest, s: State, i: nat)
    requires Inv(prim, catalog, s) && i in s.ops && s.ops[i].PutRename? && s.ops[i].hash in s.partial
    ensures Inv(prim, catalog, Advance(s, i))
  {
    var s' := Advance(s, i);
    var h := s.ops[i].hash;
    assert s'.ops[i] == PutMark(h);
    MarkingKept(s, i, s');
    assert Marking(s', h);
    assert forall rows :: MarkPending(s, rows) ==> MarkPending(s', rows);
    assert forall id :: RowsOf(s'.t, id) == RowsOf(s.t, id);
    forall j | j in s'.ops
      ensures OpOk(prim, catalog, s', j)
    {
      if j != i {
        assert OpOk(prim, catalog, s, j);
      }
    }
  }

  lemma MarkStep(prim: Primitives, catalog: string -> FileManifest, s: State, i: nat)
    requires Inv(prim, catalog, s) && Enabled(s, i) && s.ops[i].PutMark?
    ensures Inv(prim, catalog, Advance(s, i))
  {
    var s' := Advance(s, i);
    var h := s.ops[i].hash;
    assert OpOk(prim, catalog, s, i);
    MarkPresentSound(prim, s.t, h);
    MarkingKept(s, i, s');
    forall id | id in s'.t.chunks
      ensures Covers(s'.t.chunks[id], catalog(id).chunks)
      ensures !s.crashed ==> MarkPending(s', s'.t.chunks[id])
    {
      MarkRows(s, s', h, id, catalog(id).chunks);
    }
    forall j | j in s'.ops
      ensures OpOk(prim, catalog, s', j)
    {
      assert OpOk(prim, catalog, s, j);
      if s.ops[j].WriteComplete? {
        MissingAfterMark(RowsOf(s.t, s.ops[j].id), h);
        assert MissingChunks(s'.t, s.ops[j].id) == Without(MissingChunks(s.t, s.ops[j].id), {h});
      }
    }
  }

  lemma MarkRows(s: State, s': State, h: string, id: string, chunks: seq<ChunkDescriptor>)
    requires s'.t == MarkPresent(s.t, h) && id in s.t.chunks
    requires forall g :: g != h && Marking(s, g) ==> Marking(s', g)
    requires Covers(s.t.chunks[id], chunks)
    ensures Covers(s'.t.chunks[id], chunks)
    ensures MarkPending(s, s.t.chunks[id]) ==> MarkPending(s', s'.t.chunks[id])
  {
    var before, after := s.t.chunks[id], s'.t.chunks[id];
    assert after == Mark(before, h);
    forall c | c in chunks
      ensures exists r :: r in after && r.index == c.index
    {
      var r :| r in before && r.index == c.index;
      var k :| 0 <= k < |before| && before[k] == r;
      assert after[k] in after;
    }
    if MarkPending(s, before) {
      forall r | r in after && !r.present && r.hash in s'.t.blobs
        ensures Marking(s', r.hash)
      {
        var k :| 0 <= k < |after| && after[k] == r;
        assert before[k] in before;
      }
    }
  }

  lemma SaveStartStep(prim: Primitives, catalog: string -> FileManifest, s: State, i: nat)
    requires Inv(prim, catalog, s) && Enabled(s, i) && s.ops[i].SaveStart?
    ensures Inv(prim, catalog, Advance(s, i))
  {
    var s' := Advance(s, i);
    assert OpOk(prim, catalog, s, i);
    MarkingKept(s, i, s');
    assert forall j :: j in s.ops ==> OpOk(prim, catalog, s, j);
    forall j | j in s'.ops
      ensures OpOk(prim, catalog, s', j)
    {
      if j != i {
        assert OpOk(prim, catalog, s, j);
      }
    }
  }

  lemma NextRow(rows: seq<ChunkRow>, chunks: seq<ChunkDescriptor>, k: nat, row: ChunkRow)
    requires Sorted(rows) && k < |chunks| && Covers(rows, chunks[..k]) && row.index == chunks[k].index
    ensures Covers(InsertRow(rows, row), chunks[..k + 1])
  {
    InsertRowKeepsOrder(rows, row);
    forall c | c in chunks[..k + 1]
      ensures exists r :: r in InsertRow(rows, row) && r.index == c.index
    {
      if c in chunks[..k] {
        var r :| r in rows && r.index == c.index;
        assert r in InsertRow(rows, row);
      } else {
        assert c == chunks[k];
        assert row in InsertRow(rows, row) || exists q :: q in rows && q.index == row.index;
      }
    }
  }

  lemma SaveRowStep(prim: Primitives, catalog: string -> FileManifest, s: State, i: nat)
    requires Inv(prim, catalog, s) && i in s.ops && s.ops[i].SaveRow? && s.ops[i].next < |s.ops[i].manifest.chunks|
    ensures Inv(prim, catalog, Advance(s, i))
  {
    var s' := Advance(s, i);
    assert OpOk(prim, catalog, s, i);
    var SaveRow(p, m, k, rows) := s.ops[i];
    var row := RowFor(m.chunks[k], m.chunks[k].hash in s.t.blobs);
    NextRow(rows, m.chunks, k, row);
    InsertRowKeepsOrder(rows, row);
    if m.id in s.t.manifests {
      assert catalog(m.id) == m && Covers(s.t.chunks[m.id], m.chunks);
      assert m.chunks[k] in m.chunks;
      InsertCovered(rows, row);
    }
    MarkingKept(s, i, s');
    assert OpOk(prim, catalog, s', i);
    LocalStep(prim, catalog, s, i, s');
  }

  lemma CommitSound(prim: Primitives, t: Tables, p: DeviceId, m: FileManifest, rows: seq<ChunkRow>)
    requires Sound(prim, t) && Sorted(rows) && FlagsHonest(rows, t.blobs)
    requires m.id in t.manifests ==> rows == RowsOf(t, m.id)
    ensures Sound(prim, Commit(t, p, m, rows))
    ensures forall id :: id in t.manifests ==>
      RowsOf(Commit(t, p, m, rows), id) == RowsOf(t, id) && Commit(t, p, m, rows).manifests[id] == t.manifests[id]
  {
    var t' := Commit(t, p, m, rows);
    forall id | id in t.manifests
      ensures RowsOf(t', id) == RowsOf(t, id) && t'.manifests[id] == t.manifests[id]
    {
    }
  }

  lemma CommitStep(prim: Primitives, catalog: string -> FileManifest, s: State, i: nat)
    requires Inv(prim, catalog, s) && i in s.ops && s.ops[i].SaveRow? && s.ops[i].next == |s.ops[i].manifest.chunks|
    ensures Inv(prim, catalog, Advance(s, i))
  {
    var s' := Advance(s, i);
    assert OpOk(prim, catalog, s, i);
    var SaveRow(p, m, k, rows) := s.ops[i];
    assert m.chunks[..k] == m.chunks;
    MarkingKept(s, i, s');
    CommitSound(prim, s.t, p, m, rows);
    CommitTables(prim, catalog, s, i);
    forall j | j in s'.ops
      ensures OpOk(prim, catalog, s', j)
    {
      if j != i {
        assert OpOk(prim, catalog, s, j);
      }
    }
  }

  lemma CommitTables(prim: Primitives, catalog: string -> FileManifest, s: State, i: nat)
    requires Inv(prim, catalog, s) && i in s.ops && s.ops[i].SaveRow? && s.ops[i].next == |s.ops[i].manifest.chunks|
    ensures TablesOk(prim, catalog, Advance(s, i))
  {
    var s' := Advance(s, i);
    assert OpOk(prim, catalog, s, i);
    var SaveRow(p, m, k, rows) := s.ops[i];
    assert m.chunks[..k] == m.chunks;
    MarkingKept(s, i, s');
    CommitSound(prim, s.t, p, m, rows);
    forall id | id in s'.t.chunks
      ensures s'.t.manifests[id].manifest == catalog(id) && Covers(s'.t.chunks[id], catalog(id).chunks)
      ensures !s'.crashed ==> MarkPending(s', s'.t.chunks[id])
    {
      if id != m.id {
        assert s'.t.chunks[id] == s.t.chunks[id];
      }
    }
  }

  lemma CountStep(prim: Primitives, catalog: string -> FileManifest, s: State, i: nat)
    requires Inv(prim, catalog, s) && Enabled(s, i) && s.ops[i].CountMissing?
    ensures Inv(prim, catalog, Advance(s, i))
  {
    assert OpOk(prim, catalog, s, i);
    LocalStep(prim, catalog, s, i, Advance(s, i));
  }

  lemma WriteTables(prim: Primitives, catalog: string -> FileManifest, s: State, i: nat, id: string, c: bool, s': State)
    requires TablesOk(prim, catalog, s) && i in s.ops && s.ops[i] == WriteComplete(id, c)
    requires c ==> MissingChunks(s.t, id) == []
    requires s' == Finish(s.(t := SetComplete(s.t, id, c)), i)
    ensures TablesOk(prim, catalog, s')
  {
    SetCompleteSound(prim, s.t, id, c);
    MarkingKept(s, i, s');
    forall x | x in s'.t.manifests
      ensures s'.t.manifests[x].manifest == catalog(x)
    {
      assert s'.t.manifests[x].manifest == s.t.manifests[x].manifest;
    }
  }

  lemma WriteStep(prim: Primitives, catalog: string -> FileManifest, s: State, i: nat)
    requires Inv(prim, catalog, s) && Enabled(s, i) && s.ops[i].WriteComplete?
    ensures Inv(prim, catalog, Advance(s, i))
  {
    var s' := Advance(s, i);
    assert OpOk(prim, catalog, s, i);
    WriteTables(prim, catalog, s, i, s.ops[i].id, s.ops[i].complete, s');
    assert s'.t.chunks == s.t.chunks && s'.t.manifests.Keys == s.t.manifests.Keys;
    MarkingKept(s, i, s');
    forall j | j in s'.ops
      ensures OpOk(prim, catalog, s', j)
    {
      assert OpOk(prim, catalog, s, j);
    }
  }

  lemma AdvanceKeepsInv(prim: Primitives, catalog: string -> FileManifest, s: State, i: nat)
    requires Inv(prim, catalog, s) && Enabled(s, i)
    ensures Inv(prim, catalog, Advance(s, i))
  {
    match s.ops[i] {
      case PutCheck(_, _) => PutSteps(prim, catalog, s, i);
      case PutWrite(_, _) => PutSteps(prim, catalog, s, i);
      case PutRename(h, _) =>
        if h in s.partial { RenameStep(prim, catalog, s, i); } else { PutSteps(prim, catalog, s, i); }
      case PutMark(_) => MarkStep(prim, catalog, s, i);
      case SaveStart(_, _) => SaveStartStep(prim, catalog, s, i);
      case SaveRow(_, m, k, _) =>
        assert OpOk(prim, catalog, s, i);
        if k < |m.chunks| { SaveRowStep(prim, catalog, s, i); } else { CommitStep(prim, catalog, s, i); }
      case CountMissing(_) => CountStep(prim, catalog, s, i);
      case WriteComplete(_, _) => WriteStep(prim, catalog, s, i);
    }
  }

  lemma NextKeepsInv(prim: Primitives, catalog: string -> FileManifest, s: State, s': State)
    requires Inv(prim, catalog, s) && Next(prim, catalog, s, s')
    ensures Inv(prim, catalog, s')
  {
    if i :| Enabled(s, i) && s' == Advance(s, i) {
      AdvanceKeepsInv(prim, catalog, s, i);
    } else if i: nat, op :| i !in s.ops && Startable(prim, catalog, s, op) && s' == Become(s, i, op) {
      LocalStep(prim, catalog, s, i, s');
    }
  }

  lemma {:induction false} RunKeepsInv(prim: Primitives, catalog: string -> FileManifest, run: seq<State>)
    requires IsRun(prim, catalog, run)
    ensures Inv(prim, catalog, run[|run| - 1])
  {
    if |run| > 1 {
      var before := run[..|run| - 1];
      RunKeepsInv(prim, catalog, before);
      NextKeepsInv(prim, catalog, before[|before| - 1], run[|run| - 1]);
    }
  }

  // ---------- Main results ----------

  /** In every interleaving, also after crashes: a row that is present has its blob on disk with
      the content its hash promises, and a manifest that is complete has no row missing. */
  lemma FlagsNeverLie(prim: Primitives, catalog: string -> FileManifest, run: seq<State>, id: string)
    requires IsRun(prim, catalog, run)
    requires id in run[|run| - 1].t.manifests
    ensures var t := run[|run| - 1].t;
            && (forall r :: r in RowsOf(t, id) && r.present ==>
                 r.hash in t.blobs && prim.hash(t.blobs[r.hash]) == r.hash)
            && (t.manifests[id].complete ==> forall r :: r in RowsOf(t, id) ==> r.present)
  {
    RunKeepsInv(prim, catalog, run);
    NothingMissing(RowsOf(run[|run| - 1].t, id));
  }

  /** When no call is in flight and none has crashed, `present` is exactly "the blob exists":
      a rename that the transaction's test missed has been marked after the lock was released. */
  lemma FlagsExactWhenQuiet(prim: Primitives, catalog: string -> FileManifest, run: seq<State>, id: string)
    requires IsRun(prim, catalog, run)
    requires run[|run| - 1].ops == map[] && !run[|run| - 1].crashed
    ensures var t := run[|run| - 1].t;
            forall r :: r in RowsOf(t, id) ==> (r.present <==> r.hash in t.blobs)
  {
    RunKeepsInv(prim, catalog, run);
    var s := run[|run| - 1];
    assert forall h :: !Marking(s, h);
  }

  // ---------- Particular schedules ----------

  ghost predicate Runs(s: State, schedule: seq<nat>)
    decreases schedule
  {
    schedule == [] || (Enabled(s, schedule[0]) && Runs(Advance(s, schedule[0]), schedule[1..]))
  }

  ghost function After(s: State, schedule: seq<nat>): State
    requires Runs(s, schedule)
    decreases schedule
  {
    if schedule == [] then s else After(Advance(s, schedule[0]), schedule[1..])
  }

  lemma Then(s: State, i: nat, schedule: seq<nat>)
    requires Enabled(s, i) && Runs(Advance(s, i), schedule)
    ensures Runs(s, [i] + schedule) && After(s, [i] + schedule) == After(Advance(s, i), schedule)
  {
    assert ([i] + schedule)[1..] == schedule;
  }

  /** A `put_blob` that nothing interrupts does what `Tables.PutBlob` says. */
  lemma PutAlone(prim: Primitives, s: State, i: nat, h: string, b: Bytes)
    requires prim.hash(b) == h && s.lock == None && i in s.ops && s.ops[i] == PutCheck(h, b)
    ensures var schedule := if h in s.t.blobs then [i] + ([i] + []) else [i] + ([i] + ([i] + ([i] + [])));
            Runs(s, schedule) && After(s, schedule).t == PutBlob(prim, s.t, h, b)
  {
    var s1 := Advance(s, i);
    var s2 := Advance(s1, i);
    if h in s.t.blobs {
      assert AddBlob(s.t, h, b) == s.t;
      Then(s1, i, []);
      Then(s, i, [i] + []);
    } else {
      var s3 := Advance(s2, i);
      Then(s3, i, []);
      Then(s2, i, [i] + []);
      Then(s1, i, [i] + ([i] + []));
      Then(s, i, [i] + ([i] + ([i] + [])));
    }
  }

  /** `n` steps of call `i` in a row, then `last`. */
  function Repeat(i: nat, n: nat, last: seq<nat>): seq<nat> {
    if n == 0 then last else [i] + Repeat(i, n - 1, last)
  }

  /** A `save_manifest` that nothing interrupts does what `Tables.SaveManifest` says. */
  lemma SaveAlone(s: State, i: nat, p: DeviceId, m: FileManifest)
    requires s.lock == None && i in s.ops && s.ops[i] == SaveStart(p, m)
    ensures var schedule := Repeat(i, |m.chunks| + 4, []);
            Runs(s, schedule) && After(s, schedule).t == SaveManifest(s.t, p, m)
  {
    assert m.chunks[0..] == m.chunks;
    SaveRowsAlone(Advance(s, i), i, p, m, 0, RowsOf(s.t, m.id));
    Then(s, i, Repeat(i, |m.chunks| + 3, []));
  }

  lemma {:induction false} SaveRowsAlone(s: State, i: nat, p: DeviceId, m: FileManifest, k: nat, rows: seq<ChunkRow>)
    requires k <= |m.chunks| && s.lock == Some(i) && i in s.ops && s.ops[i] == SaveRow(p, m, k, rows)
    ensures var schedule := Repeat(i, |m.chunks| - k + 3, []);
            && Runs(s, schedule)
            && After(s, schedule).t == Refresh(Commit(s.t, p, m, InsertRows(rows, m.chunks[k..], s.t.blobs.Keys)), m.id)
    decreases |m.chunks| - k
  {
    var s1 := Advance(s, i);
    if k < |m.chunks| {
      SaveRowsAlone(s1, i, p, m, k + 1, s1.ops[i].rows);
      assert m.chunks[k..][1..] == m.chunks[k + 1..];
      Then(s, i, Repeat(i, |m.chunks| - k + 2, []));
    } else {
      RefreshAlone(s1, i, m.id);
      Then(s, i, Repeat(i, 2, []));
    }
  }

  lemma RefreshAlone(s: State, i: nat, id: string)
    requires s.lock == None && i in s.ops && s.ops[i] == CountMissing(id)
    ensures Runs(s, Repeat(i, 2, [])) && After(s, Repeat(i, 2, [])).t == Refresh(s.t, id)
  {
    var s1 := Advance(s, i);
    Then(s1, i, []);
    assert Repeat(i, 1, []) == [i] + Repeat(i, 0, []);
    Then(s, i, Repeat(i, 1, []));
  }

  /** A refresh that nothing interrupts leaves the flag true to the rows. */
  lemma RefreshTellsTheTruth(s: State, i: nat, id: string)
    requires i in s.ops && s.ops[i] == CountMissing(id) && s.lock == None && id in s.t.manifests
    ensures Runs(s, Repeat(i, 2, []))
    ensures var t := After(s, Repeat(i, 2, [])).t;
            id in t.manifests && (t.manifests[id].complete <==> forall r :: r in RowsOf(t, id) ==> r.present)
  {
    RefreshAlone(s, i, id);
    NothingMissing(RowsOf(s.t, id));
  }

  /** Callers must not refresh a manifest that is not stored yet: counting its rows before the
      save and writing the result after it leaves `complete` set with a row missing. */
  lemma RefreshBeforeSaveWouldLie(s: State, i: nat, j: nat, p: DeviceId, m: FileManifest)
    requires i != j && {i, j} <= s.ops.Keys && s.lock == None
    requires s.ops[i] == CountMissing(m.id) && s.ops[j] == SaveStart(p, m)
    requires m.id !in s.t.manifests && m.id !in s.t.chunks
    requires |m.chunks| == 1 && m.chunks[0].hash !in s.t.blobs
    ensures var schedule := [i] + ([j] + ([j] + ([j] + ([i] + []))));
            && Runs(s, schedule)
            && var t := After(s, schedule).t;
               m.id in t.manifests && t.manifests[m.id].complete && MissingChunks(t, m.id) != []
  {
    var s1 := Advance(s, i);
    var s2 := Advance(s1, j);
    var s3 := Advance(s2, j);
    assert s3.ops[j] == SaveRow(p, m, 1, [RowFor(m.chunks[0], false)]);
    var s4 := Advance(s3, j);
    Then(s4, i, []);
    Then(s3, j, [i] + []);
    Then(s2, j, [j] + ([i] + []));
    Then(s1, j, [j] + ([j] + ([i] + [])));
    Then(s, i, [j] + ([j] + ([j] + ([i] + []))));
  }
}
