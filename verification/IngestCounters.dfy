/** The counting state of the chunked ingest, which must agree with the replayer's counters. */
module IngestCounters {
  import opened Wrappers
  import opened BookReplayer

  datatype Report = Report(rows: nat, chunks: nat, snapshotRows: nat, resyncEvents: nat, resyncRows: int, removals: nat)

  datatype IngestError = NoOpeningBlock | NoRows

  // ---------------------------------------------------------------- one chunk, as columns

  function SnapshotsIn(chunk: seq<BookUpdate>): nat {
    if chunk == [] then 0 else SnapshotsIn(chunk[..|chunk| - 1]) + if chunk[|chunk| - 1].isSnapshot then 1 else 0
  }

  function RemovalsIn(chunk: seq<BookUpdate>): nat {
    if chunk == [] then 0
    else RemovalsIn(chunk[..|chunk| - 1]) + if chunk[|chunk| - 1].quantity == Num(0.0) then 1 else 0
  }

  /** The flag column shifted down by one, its first entry carried over from the previous chunk. */
  predicate Shifted(chunk: seq<BookUpdate>, previous: bool, i: nat)
    requires i < |chunk|
  {
    if i == 0 then previous else chunk[i - 1].isSnapshot
  }

  /** Snapshot rows whose predecessor was not one, among the first `n`. */
  function ResyncsIn(chunk: seq<BookUpdate>, previous: bool, n: nat): nat
    requires n <= |chunk|
  {
    if n == 0 then 0
    else ResyncsIn(chunk, previous, n - 1) + if chunk[n - 1].isSnapshot && !Shifted(chunk, previous, n - 1) then 1 else 0
  }

  /** The position of the first diff, or the length if there is none. */
  function FirstDiff(rows: seq<BookUpdate>): (n: nat)
    ensures n <= |rows|
    ensures forall i | 0 <= i < n :: rows[i].isSnapshot
    ensures n < |rows| ==> !rows[n].isSnapshot
  {
    if rows == [] then 0
    else
      var n := FirstDiff(rows[..|rows| - 1]);
      if n < |rows| - 1 then n else if rows[|rows| - 1].isSnapshot then |rows| else |rows| - 1
  }

  // ---------------------------------------------------------------- chunk by chunk is row by row

  predicate LastFlag(rows: seq<BookUpdate>) {
    rows == [] || rows[|rows| - 1].isSnapshot
  }

  lemma {:induction false} ChunkAddsRows(a: seq<BookUpdate>, b: seq<BookUpdate>)
    ensures |SnapshotRows(a + b)| == |SnapshotRows(a)| + SnapshotsIn(b)
    ensures |Removals(a + b)| == |Removals(a)| + RemovalsIn(b)
  {
    hide SnapshotRows, Removals;
    if b == [] {
      assert a + b == a;
    } else {
      var n := |a + b| - 1;
      var init := b[..|b| - 1];
      ChunkAddsRows(a, init);
      assert (a + b)[..n] == a + init;
      SnapshotCountedOnce(a + b);
      RemovalCountedOnce(a + b);
    }
  }

  lemma {:induction false} ChunkAddsResyncs(a: seq<BookUpdate>, b: seq<BookUpdate>, n: nat)
    requires n <= |b|
    ensures |Resyncs(a + b[..n])| == |Resyncs(a)| + ResyncsIn(b, LastFlag(a), n)
  {
    hide Resyncs;
    if n == 0 {
      assert a + b[..n] == a;
    } else {
      ChunkAddsResyncs(a, b, n - 1);
      var rows := a + b[..n];
      assert rows[..|rows| - 1] == a + b[..n - 1];
      ResyncCountedOnce(rows);
    }
  }

  lemma {:induction false} FirstDiffOfConcat(a: seq<BookUpdate>, b: seq<BookUpdate>)
    ensures FirstDiff(a + b) == if FirstDiff(a) < |a| then FirstDiff(a) else |a| + FirstDiff(b)
  {
    var n := FirstDiff(a + b);
    assert FirstDiff(a) < |a| ==> (a + b)[FirstDiff(a)] == a[FirstDiff(a)];
    assert FirstDiff(b) < |b| ==> (a + b)[|a| + FirstDiff(b)] == b[FirstDiff(b)];
    assert n < |a| ==> (a + b)[n] == a[n];
    assert |a| <= n < |a| + |b| ==> (a + b)[n] == b[n - |a|];
  }

  /** Snapshot rows beyond the opening block: the rows of the resyncs. */
  function LaterSnapshotRows(rows: seq<BookUpdate>): set<int> {
    set i | FirstDiff(rows) <= i < |rows| && rows[i].isSnapshot
  }

  function Leading(rows: seq<BookUpdate>, n: nat): set<int>
    requires n <= |rows|
  {
    set i | 0 <= i < n && rows[i].isSnapshot
  }

  lemma {:induction false} LaterRowsAreTheRest(rows: seq<BookUpdate>)
    ensures |SnapshotRows(rows)| - FirstDiff(rows) == |LaterSnapshotRows(rows)|
  {
    OpeningSize(rows, FirstDiff(rows));
    assert SnapshotRows(rows) == Leading(rows, FirstDiff(rows)) + LaterSnapshotRows(rows);
  }

  lemma {:induction false} OpeningSize(rows: seq<BookUpdate>, n: nat)
    requires n <= FirstDiff(rows)
    ensures |Leading(rows, n)| == n
  {
    if n > 0 {
      OpeningSize(rows, n - 1);
      SetGrows(Leading(rows, n - 1), Leading(rows, n), n - 1, true);
    }
  }

  // ---------------------------------------------------------------- the run

  /** What a day's stream must report, however it was cut. */
  ghost predicate IsReport(rows: seq<BookUpdate>, report: Report) {
    && report.rows == |rows|
    && report.snapshotRows == |SnapshotRows(rows)|
    && report.resyncEvents == |Resyncs(rows)|
    && report.removals == |Removals(rows)|
    && report.resyncRows == |LaterSnapshotRows(rows)|
  }

  /** The counters agree with the replayer's on every stream it accepts. */
  lemma {:induction false} ReportIsReplay(rows: seq<BookUpdate>, report: Report)
    requires IsReport(rows, report) && Replay(FRESH, rows).error.None?
    ensures var stats := Replay(FRESH, rows).state.stats;
            report.rows == stats.applied && report.snapshotRows == stats.snapshotRows
            && report.resyncEvents == stats.resyncs && report.removals == stats.removals
  {
    CountersCount(rows);
    hide Replay;
  }

  /** One downloaded day of the incremental feed. */
  method Ingest(batches: seq<seq<BookUpdate>>) returns (r: Result<Report, IngestError>)
    ensures var rows := Flatten(batches);
            && (r == Err(NoRows) <==> rows == [])
            && (r == Err(NoOpeningBlock) <==> rows != [] && !rows[0].isSnapshot)
            && (r.Ok? ==> IsReport(rows, r.value) && r.value.chunks == |NonEmpty(batches)|)
  {
    hide SnapshotRows, Removals, Resyncs, FirstDiff, LaterSnapshotRows;
    var rows, chunks, snapshotRows, removals, resyncs, opening := 0, 0, 0, 0, 0, 0;
    var seenDiff, previous := false, true;
    ghost var past: seq<BookUpdate> := [];
    NothingCounted();
    for k := 0 to |batches|
      invariant past == Flatten(batches[..k]) && rows == |past| && chunks == |NonEmpty(batches[..k])|
      invariant chunks == 0 <==> past == []
      invariant past != [] ==> past[0].isSnapshot
      invariant snapshotRows == |SnapshotRows(past)| && removals == |Removals(past)| && resyncs == |Resyncs(past)|
      invariant previous == LastFlag(past) && opening == FirstDiff(past) && (seenDiff <==> opening < |past|)
    {
      var chunk := batches[k];
      assert batches[..k + 1][..k] == batches[..k];
      if chunk == [] {
        continue;
      }
      if chunks == 0 && !chunk[0].isSnapshot {
        FlattenKeepsFirst(batches, k + 1);
        return Err(NoOpeningBlock);
      }
      ChunkAddsRows(past, chunk);
      ChunkAddsResyncs(past, chunk, |chunk|);
      FirstDiffOfConcat(past, chunk);
      assert chunk[..|chunk|] == chunk;
      snapshotRows := snapshotRows + SnapshotsIn(chunk);
      resyncs := resyncs + ResyncsIn(chunk, previous, |chunk|);
      previous := chunk[|chunk| - 1].isSnapshot;
      if !seenDiff {
        opening := opening + FirstDiff(chunk);
        seenDiff := FirstDiff(chunk) < |chunk|;
      }
      removals := removals + RemovalsIn(chunk);
      rows, chunks := rows + |chunk|, chunks + 1;
      past := past + chunk;
    }
    assert batches[..|batches|] == batches;
    if rows == 0 {
      return Err(NoRows);
    }
    LaterRowsAreTheRest(past);
    return Ok(Report(rows, chunks, snapshotRows, resyncs, snapshotRows - opening, removals));
  }

  function NonEmpty(batches: seq<seq<BookUpdate>>): seq<seq<BookUpdate>> {
    if batches == [] then []
    else NonEmpty(batches[..|batches| - 1]) + if batches[|batches| - 1] == [] then [] else [batches[|batches| - 1]]
  }

  lemma NothingCounted()
    ensures SnapshotRows([]) == {} && Removals([]) == {} && Resyncs([]) == {} && FirstDiff([]) == 0
  {
  }

  lemma {:induction false} FlattenKeepsFirst(batches: seq<seq<BookUpdate>>, k: nat)
    requires k <= |batches| && Flatten(batches[..k]) != []
    ensures Flatten(batches) != [] && Flatten(batches)[0] == Flatten(batches[..k])[0]
  {
    if k == |batches| {
      assert batches[..k] == batches;
    } else {
      assert batches[..|batches| - 1][..k] == batches[..k];
      FlattenKeepsFirst(batches[..|batches| - 1], k);
    }
  }
}
