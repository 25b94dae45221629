/** The rows that the `manifest_chunks` table holds for one manifest: sorted by chunk index,
    one row per index, each with the hash of its chunk and the `present` flag. */
module ChunkRows {
  import opened Model

  datatype ChunkRow = ChunkRow(index: nat, hash: string, present: bool)

  ghost predicate Sorted(rows: seq<ChunkRow>) {
    forall i, j :: 0 <= i < j < |rows| ==> rows[i].index < rows[j].index
  }

  ghost predicate Increasing(chunks: seq<ChunkDescriptor>) {
    forall i, j :: 0 <= i < j < |chunks| ==> chunks[i].index < chunks[j].index
  }

  /** The rows are exactly the (index, hash) list of the chunks. */
  ghost predicate Describes(rows: seq<ChunkRow>, chunks: seq<ChunkDescriptor>) {
    && |rows| == |chunks|
    && forall k :: 0 <= k < |rows| ==> rows[k].index == chunks[k].index && rows[k].hash == chunks[k].hash
  }

  /** Every chunk index already has a row. */
  ghost predicate Covers(rows: seq<ChunkRow>, chunks: seq<ChunkDescriptor>) {
    forall c :: c in chunks ==> exists r :: r in rows && r.index == c.index
  }

  /** `INSERT OR IGNORE` under the primary key (manifest, index). */
  function InsertRow(rows: seq<ChunkRow>, row: ChunkRow): seq<ChunkRow> {
    if rows == [] || row.index < rows[0].index then [row] + rows
    else if row.index == rows[0].index then rows
    else [rows[0]] + InsertRow(rows[1..], row)
  }

  function RowFor(c: ChunkDescriptor, present: bool): ChunkRow {
    ChunkRow(c.index, c.hash, present)
  }

  /** One row per chunk; a new row is present when its blob is already on disk. */
  function InsertRows(rows: seq<ChunkRow>, chunks: seq<ChunkDescriptor>, onDisk: set<string>): seq<ChunkRow>
    decreases chunks
  {
    if chunks == [] then rows
    else InsertRows(InsertRow(rows, RowFor(chunks[0], chunks[0].hash in onDisk)), chunks[1..], onDisk)
  }

  function Mark(rows: seq<ChunkRow>, hash: string): (r: seq<ChunkRow>)
    ensures |r| == |rows|
    ensures forall k :: 0 <= k < |rows| ==>
      r[k] == if rows[k].hash == hash then rows[k].(present := true) else rows[k]
  {
    if rows == [] then []
    else [if rows[0].hash == hash then rows[0].(present := true) else rows[0]] + Mark(rows[1..], hash)
  }

  /** Hashes of the rows that are not present, in index order. */
  function Missing(rows: seq<ChunkRow>): seq<string> {
    if rows == [] then []
    else if rows[0].present then Missing(rows[1..])
    else [rows[0].hash] + Missing(rows[1..])
  }

  function Without(hashes: seq<string>, gone: set<string>): seq<string> {
    if hashes == [] then []
    else if hashes[0] in gone then Without(hashes[1..], gone)
    else [hashes[0]] + Without(hashes[1..], gone)
  }

  function HashSet(hashes: seq<string>): set<string> {
    set h | h in hashes
  }

  lemma {:induction false} InsertRowKeepsOrder(rows: seq<ChunkRow>, row: ChunkRow)
    requires Sorted(rows)
    ensures Sorted(InsertRow(rows, row))
    ensures forall r :: r in InsertRow(rows, row) <==>
      r in rows || (r == row && forall q :: q in rows ==> q.index != row.index)
  {
    if rows != [] && row.index > rows[0].index {
      var rest := rows[1..];
      InsertRowKeepsOrder(rest, row);
      var after := InsertRow(rest, row);
      assert rows == [rows[0]] + rest;
      assert forall r :: r in rows <==> r == rows[0] || r in rest;
      forall j | 0 <= j < |after|
        ensures rows[0].index < after[j].index
      {
        assert after[j] in after;
      }
    }
  }

  lemma {:induction false} InsertRowsKeepOrder(rows: seq<ChunkRow>, chunks: seq<ChunkDescriptor>, onDisk: set<string>)
    requires Sorted(rows)
    ensures Sorted(InsertRows(rows, chunks, onDisk))
    ensures forall r :: r in rows ==> r in InsertRows(rows, chunks, onDisk)
    ensures forall r :: r in InsertRows(rows, chunks, onDisk) ==>
      || r in rows
      || (r.present == (r.hash in onDisk) && exists c :: c in chunks && c.hash == r.hash && c.index == r.index)
    decreases chunks
  {
    if chunks != [] {
      var row := RowFor(chunks[0], chunks[0].hash in onDisk);
      InsertRowKeepsOrder(rows, row);
      InsertRowsKeepOrder(InsertRow(rows, row), chunks[1..], onDisk);
      assert chunks == [chunks[0]] + chunks[1..];
    }
  }

  /** `saved` keeps the rows of `start` and has one row for every index of `chunks`; a new row is that of the first
      chunk with its index, and present exactly if the blob is on disk. */
  ghost predicate RowsSaved(
    start: seq<ChunkRow>, chunks: seq<ChunkDescriptor>, onDisk: set<string>, saved: seq<ChunkRow>)
  {
    && Sorted(saved) && Covers(saved, chunks)
    && (forall r :: r in start ==> r in saved)
    && (forall r :: r in saved && r !in start ==>
          && r.present == (r.hash in onDisk)
          && exists k :: FromFirst(r, chunks, k))
  }

  ghost predicate FirstWith(chunks: seq<ChunkDescriptor>, k: nat)
    requires k < |chunks|
  {
    forall i :: 0 <= i < k ==> chunks[i].index != chunks[k].index
  }

  ghost predicate FromFirst(r: ChunkRow, chunks: seq<ChunkDescriptor>, k: nat) {
    k < |chunks| && FirstWith(chunks, k) && chunks[k].index == r.index && chunks[k].hash == r.hash
  }

  /** So the loop of `save_manifest` is what its statement says, repeated indices included. */
  lemma {:induction false} InsertRowsSaved(rows: seq<ChunkRow>, chunks: seq<ChunkDescriptor>, onDisk: set<string>)
    requires Sorted(rows)
    ensures RowsSaved(rows, chunks, onDisk, InsertRows(rows, chunks, onDisk))
    decreases chunks
  {
    hide RowsSaved, Sorted, InsertRow;
    if chunks == [] {
      NothingSaved(rows, onDisk);
    } else {
      var row := RowFor(chunks[0], chunks[0].hash in onDisk);
      InsertRowKeepsOrder(rows, row);
      InsertRowsSaved(InsertRow(rows, row), chunks[1..], onDisk);
      NextSaved(rows, InsertRow(rows, row), chunks, onDisk, InsertRows(rows, chunks, onDisk));
    }
  }

  lemma NothingSaved(rows: seq<ChunkRow>, onDisk: set<string>)
    requires Sorted(rows)
    ensures RowsSaved(rows, [], onDisk, rows)
  {
  }

  lemma NextSaved(
    rows: seq<ChunkRow>, next: seq<ChunkRow>, chunks: seq<ChunkDescriptor>, onDisk: set<string>, saved: seq<ChunkRow>)
    requires chunks != [] && RowsSaved(next, chunks[1..], onDisk, saved)
    requires
      var row := RowFor(chunks[0], chunks[0].hash in onDisk);
      forall r :: r in next <==> r in rows || (r == row && forall q :: q in rows ==> q.index != row.index)
    ensures RowsSaved(rows, chunks, onDisk, saved)
  {
    if forall q :: q in rows ==> q.index != chunks[0].index {
      assert RowFor(chunks[0], chunks[0].hash in onDisk) in next;
    }
    var q :| q in next && q.index == chunks[0].index;
    forall c | c in chunks
      ensures exists r :: r in saved && r.index == c.index
    {
      assert q in saved;
      assert c == chunks[0] || c in chunks[1..];
    }
    forall r | r in saved && r !in rows
      ensures r.present == (r.hash in onDisk) && exists k :: FromFirst(r, chunks, k)
    {
      if r in next {
        assert FromFirst(r, chunks, 0);
      } else {
        OneRowPerIndex(saved, q, r);
        var k :| FromFirst(r, chunks[1..], k);
        LaterFirst(r, chunks, k);
      }
    }
  }

  lemma LaterFirst(r: ChunkRow, chunks: seq<ChunkDescriptor>, k: nat)
    requires chunks != [] && FromFirst(r, chunks[1..], k) && r.index != chunks[0].index
    ensures FromFirst(r, chunks, k + 1)
  {
    assert forall i :: 0 < i < k + 1 ==> chunks[i].index == chunks[1..][i - 1].index;
  }

  lemma OneRowPerIndex(rows: seq<ChunkRow>, q: ChunkRow, r: ChunkRow)
    requires Sorted(rows) && q in rows && r in rows && q != r
    ensures q.index != r.index
  {
  }

  lemma {:induction false} InsertKnownIndex(rows: seq<ChunkRow>, row: ChunkRow, k: nat)
    requires Sorted(rows) && k < |rows| && rows[k].index == row.index
    ensures InsertRow(rows, row) == rows
  {
    if k > 0 {
      assert rows[0].index < rows[k].index;
      InsertKnownIndex(rows[1..], row, k - 1);
      assert rows == [rows[0]] + rows[1..];
    }
  }

  lemma InsertCovered(rows: seq<ChunkRow>, row: ChunkRow)
    requires Sorted(rows) && exists r :: r in rows && r.index == row.index
    ensures InsertRow(rows, row) == rows
  {
    var r :| r in rows && r.index == row.index;
    var k :| 0 <= k < |rows| && rows[k] == r;
    InsertKnownIndex(rows, row, k);
  }

  /** Saving the same chunks again changes nothing. */
  lemma {:induction false} InsertRowsAgain(rows: seq<ChunkRow>, chunks: seq<ChunkDescriptor>, onDisk: set<string>)
    requires Sorted(rows) && Covers(rows, chunks)
    ensures InsertRows(rows, chunks, onDisk) == rows
    decreases chunks
  {
    if chunks != [] {
      assert chunks[0] in chunks;
      InsertCovered(rows, RowFor(chunks[0], chunks[0].hash in onDisk));
      InsertRowsAgain(rows, chunks[1..], onDisk);
    }
  }

  /** The first save of a manifest with increasing indices writes its chunk list as it is. */
  lemma {:induction false} FirstSaveDescribes(
    rows: seq<ChunkRow>, done: seq<ChunkDescriptor>, chunks: seq<ChunkDescriptor>, onDisk: set<string>)
    requires Describes(rows, done) && Increasing(done + chunks)
    ensures Describes(InsertRows(rows, chunks, onDisk), done + chunks)
    decreases chunks
  {
    if chunks == [] {
      assert done + chunks == done;
    } else {
      var c := chunks[0];
      var row := RowFor(c, c.hash in onDisk);
      var more := done + [c];
      assert more + chunks[1..] == done + chunks;
      forall k | 0 <= k < |rows|
        ensures rows[k].index < row.index
      {
        assert (done + chunks)[k] == done[k] && (done + chunks)[|done|] == c;
      }
      InsertAtEnd(rows, row);
      FirstSaveDescribes(rows + [row], more, chunks[1..], onDisk);
    }
  }

  lemma {:induction false} InsertAtEnd(rows: seq<ChunkRow>, row: ChunkRow)
    requires forall k :: 0 <= k < |rows| ==> rows[k].index < row.index
    ensures InsertRow(rows, row) == rows + [row]
  {
    if rows != [] {
      InsertAtEnd(rows[1..], row);
      assert rows == [rows[0]] + rows[1..];
    }
  }

  lemma DescribesCovers(rows: seq<ChunkRow>, chunks: seq<ChunkDescriptor>)
    requires Describes(rows, chunks)
    ensures Covers(rows, chunks)
  {
    forall c | c in chunks
      ensures exists r :: r in rows && r.index == c.index
    {
      var k :| 0 <= k < |chunks| && chunks[k] == c;
      assert rows[k] in rows;
    }
  }

  lemma {:induction false} MissingMembers(rows: seq<ChunkRow>)
    ensures |Missing(rows)| <= |rows|
    ensures forall h :: h in Missing(rows) <==> exists r :: r in rows && !r.present && r.hash == h
  {
    if rows != [] {
      MissingMembers(rows[1..]);
      assert rows == [rows[0]] + rows[1..];
      assert forall r :: r in rows <==> r == rows[0] || r in rows[1..];
    }
  }

  /** `hashes` are those of the rows at the positions `at`, which are all that are not present, in order. */
  ghost predicate AbsentAt(rows: seq<ChunkRow>, hashes: seq<string>, at: seq<nat>) {
    && |at| == |hashes|
    && (forall p, q :: 0 <= p < q < |at| ==> at[p] < at[q])
    && (forall p :: 0 <= p < |at| ==> at[p] < |rows| && !rows[at[p]].present && hashes[p] == rows[at[p]].hash)
    && (forall k :: 0 <= k < |rows| && !rows[k].present ==> k in at)
  }

  lemma {:induction false} MissingPositions(rows: seq<ChunkRow>) returns (at: seq<nat>)
    ensures AbsentAt(rows, Missing(rows), at)
  {
    if rows == [] {
      at := [];
    } else {
      var rest := MissingPositions(rows[1..]);
      at := seq(|rest|, p requires 0 <= p < |rest| => rest[p] + 1);
      PositionsShift(rows, Missing(rows[1..]), rest, at);
      if !rows[0].present {
        hide Missing;
        assert Missing(rows) == [rows[0].hash] + Missing(rows[1..]) by { MissingFirst(rows); }
        PositionsFirst(rows, Missing(rows[1..]), at);
        at := [0] + at;
      }
    }
  }

  lemma MissingFirst(rows: seq<ChunkRow>)
    requires rows != [] && !rows[0].present
    ensures Missing(rows) == [rows[0].hash] + Missing(rows[1..])
  {
  }

  /** All positions but possibly the first. */
  ghost predicate LaterAbsentAt(rows: seq<ChunkRow>, hashes: seq<string>, at: seq<nat>) {
    && |at| == |hashes|
    && (forall p, q :: 0 <= p < q < |at| ==> at[p] < at[q])
    && (forall p :: 0 <= p < |at| ==> 0 < at[p] < |rows| && !rows[at[p]].present && hashes[p] == rows[at[p]].hash)
    && (forall k :: 0 < k < |rows| && !rows[k].present ==> k in at)
  }

  lemma PositionsShift(rows: seq<ChunkRow>, hashes: seq<string>, at: seq<nat>, later: seq<nat>)
    requires rows != [] && AbsentAt(rows[1..], hashes, at)
    requires |later| == |at| && forall p :: 0 <= p < |at| ==> later[p] == at[p] + 1
    ensures LaterAbsentAt(rows, hashes, later)
  {
    forall k | 0 < k < |rows| && !rows[k].present
      ensures k in later
    {
      assert !rows[1..][k - 1].present;
      var p :| 0 <= p < |at| && at[p] == k - 1;
      assert later[p] == k;
    }
  }

  lemma PositionsFirst(rows: seq<ChunkRow>, hashes: seq<string>, at: seq<nat>)
    requires rows != [] && !rows[0].present && LaterAbsentAt(rows, hashes, at)
    ensures AbsentAt(rows, [rows[0].hash] + hashes, [0] + at)
  {
    forall k | 0 <= k < |rows| && !rows[k].present
      ensures k in [0] + at
    {
      assert k == 0 || k in at;
    }
  }

  /** One entry for each row that is not present, repeated hashes included, in the order of the rows. */
  lemma MissingInOrder(rows: seq<ChunkRow>)
    ensures |Missing(rows)| == |set k: nat | k < |rows| && !rows[k].present|
    ensures forall i, j :: 0 <= i < j < |rows| && !rows[i].present && !rows[j].present ==>
      exists p, q :: 0 <= p < q < |Missing(rows)|
        && Missing(rows)[p] == rows[i].hash && Missing(rows)[q] == rows[j].hash
  {
    var at := MissingPositions(rows);
    hide Missing;
    PositionsCount(at);
    assert Positions(at) == set k: nat | k < |rows| && !rows[k].present;
    forall i, j | 0 <= i < j < |rows| && !rows[i].present && !rows[j].present
      ensures exists p, q :: 0 <= p < q < |Missing(rows)| && Missing(rows)[p] == rows[i].hash
                && Missing(rows)[q] == rows[j].hash
    {
      var p :| 0 <= p < |at| && at[p] == i;
      var q :| 0 <= q < |at| && at[q] == j;
      assert p < q;
    }
  }

  function Positions(at: seq<nat>): set<nat> {
    set k | k in at
  }

  lemma {:induction false} PositionsCount(at: seq<nat>)
    requires forall p, q :: 0 <= p < q < |at| ==> at[p] < at[q]
    ensures |at| == |Positions(at)|
  {
    if at == [] {
      assert Positions(at) == {};
    } else {
      PositionsCount(at[1..]);
      assert Positions(at) - {at[0]} == Positions(at[1..]) && at[0] in Positions(at);
    }
  }

  lemma {:induction false} NothingMissing(rows: seq<ChunkRow>)
    ensures Missing(rows) == [] <==> forall r :: r in rows ==> r.present
  {
    MissingMembers(rows);
    if Missing(rows) != [] {
      assert Missing(rows)[0] in Missing(rows);
    } else {
      forall r | r in rows
        ensures r.present
      {
        assert r.hash !in Missing(rows);
      }
    }
  }

  /** Marking a hash clears every row with that hash, and no other. */
  lemma {:induction false} MissingAfterMark(rows: seq<ChunkRow>, hash: string)
    ensures Missing(Mark(rows, hash)) == Without(Missing(rows), {hash})
  {
    if rows != [] {
      MissingAfterMark(rows[1..], hash);
      assert Mark(rows, hash)[1..] == Mark(rows[1..], hash);
    }
  }

  /** All rows with these hashes are present. */
  function MarkAll(rows: seq<ChunkRow>, gone: set<string>): (r: seq<ChunkRow>)
    ensures |r| == |rows|
    ensures forall k :: 0 <= k < |rows| ==>
      r[k] == if rows[k].hash in gone then rows[k].(present := true) else rows[k]
  {
    seq(|rows|, k requires 0 <= k < |rows| => if rows[k].hash in gone then rows[k].(present := true) else rows[k])
  }

  lemma {:induction false} MissingAfterMarkAll(rows: seq<ChunkRow>, gone: set<string>)
    ensures Missing(MarkAll(rows, gone)) == Without(Missing(rows), gone)
  {
    if rows != [] {
      assert MarkAll(rows, gone)[1..] == MarkAll(rows[1..], gone);
      MissingAfterMarkAll(rows[1..], gone);
    }
  }

  lemma {:induction false} WithoutMembers(hashes: seq<string>, gone: set<string>)
    ensures forall h :: h in Without(hashes, gone) <==> h in hashes && h !in gone
  {
    if hashes != [] {
      WithoutMembers(hashes[1..], gone);
      assert hashes == [hashes[0]] + hashes[1..];
    }
  }

  lemma {:induction false} WithoutTwice(hashes: seq<string>, a: set<string>, b: set<string>)
    ensures Without(Without(hashes, a), b) == Without(hashes, a + b)
  {
    if hashes != [] {
      WithoutTwice(hashes[1..], a, b);
    }
  }

  lemma {:induction false} WithoutNothing(hashes: seq<string>)
    ensures Without(hashes, {}) == hashes
  {
    if hashes != [] {
      WithoutNothing(hashes[1..]);
      assert hashes == [hashes[0]] + hashes[1..];
    }
  }

  lemma {:induction false} WithoutShrinks(hashes: seq<string>, gone: set<string>)
    ensures |Without(hashes, gone)| <= |hashes|
  {
    if hashes != [] {
      WithoutShrinks(hashes[1..], gone);
    }
  }

  /** Dropping at least the first `n` entries' hashes leaves at most the remaining entries. */
  lemma {:induction false} WithoutPrefix(hashes: seq<string>, n: nat, gone: set<string>)
    requires n <= |hashes| && HashSet(hashes[..n]) <= gone
    ensures |Without(hashes, gone)| <= |hashes| - n
  {
    if n == 0 {
      WithoutShrinks(hashes, gone);
    } else {
      assert hashes[0] in hashes[..n];
      assert hashes[0] in HashSet(hashes[..n]);
      forall h | h in hashes[1..][..n - 1]
        ensures h in gone
      {
        assert h in hashes[..n];
        assert h in HashSet(hashes[..n]);
      }
      WithoutPrefix(hashes[1..], n - 1, gone);
    }
  }
}
