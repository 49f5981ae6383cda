/** Snapshot-and-diff replay: one row at a time onto an order book, with counters. */
module BookReplayer {
  import opened Wrappers
  import opened OrderBook

  datatype BookUpdate = BookUpdate(timestamp: int, isSnapshot: bool, side: Side, price: Double, quantity: Double)

  datatype Stats = Stats(
    applied: nat, resyncs: nat, snapshotRows: nat, removals: nat, crossed: nat, lastTimestamp: int)

  datatype ReplayError = NoOpeningSnapshot | BackwardsInTime | InvalidRow(error: BookError)

  datatype Replayer = Replayer(book: Book, stats: Stats, started: bool, previousWasSnapshot: bool)

  /** State after a row and, when the row was refused, why. A refusal can still change state. */
  datatype Applied = Applied(state: Replayer, error: Option<ReplayError>)

  const FRESH := Replayer(EMPTY, Stats(0, 0, 0, 0, 0, 0), false, true)

  predicate OutOfOrder(state: Replayer, u: BookUpdate) {
    if state.started then u.timestamp < state.stats.lastTimestamp else !u.isSnapshot
  }

  predicate StartsResync(state: Replayer, u: BookUpdate) {
    u.isSnapshot && !state.previousWasSnapshot
  }

  function Resynced(state: Replayer, u: BookUpdate): Replayer {
    if StartsResync(state, u)
    then state.(book := EMPTY, stats := state.stats.(resyncs := state.stats.resyncs + 1))
    else state
  }

  function Counted(stats: Stats, u: BookUpdate, book: Book): Stats {
    stats.(applied := stats.applied + 1,
           snapshotRows := stats.snapshotRows + if u.isSnapshot then 1 else 0,
           removals := stats.removals + if u.quantity == Num(0.0) then 1 else 0,
           crossed := stats.crossed + if book.Crossed() then 1 else 0,
           lastTimestamp := u.timestamp)
  }

  function ApplyRow(state: Replayer, u: BookUpdate): Applied {
    if !state.started && !u.isSnapshot then Applied(state, Some(NoOpeningSnapshot))
    else if state.started && u.timestamp < state.stats.lastTimestamp then Applied(state, Some(BackwardsInTime))
    else
      var ready := Resynced(state, u);
      match ApplyLevel(ready.book, u.side, u.price, u.quantity)
      case Err(error) => Applied(ready, Some(InvalidRow(error)))
      case Ok(book) => Applied(Replayer(book, Counted(ready.stats, u, book), true, u.isSnapshot), None)
  }

  /** A batch applied in order, stopping at the first refused row. */
  datatype Replayed = Replayed(state: Replayer, consumed: nat, error: Option<ReplayError>)

  function Replay(state: Replayer, rows: seq<BookUpdate>): (r: Replayed)
    ensures r.consumed <= |rows|
    ensures r.error.None? <==> r.consumed == |rows|
  {
    if rows == [] then Replayed(state, 0, None)
    else
      var before := Replay(state, rows[..|rows| - 1]);
      if before.error.Some? then before
      else
        var step := ApplyRow(before.state, rows[|rows| - 1]);
        Replayed(step.state, if step.error.Some? then before.consumed else |rows|, step.error)
  }

  // ---------------------------------------------------------------- refusal

  predicate ValidRow(u: BookUpdate) {
    Validate(u.price, u.quantity).None?
  }

  /** Exactly which rows are refused, and exactly when a refusal leaves a trace behind. */
  lemma {:induction false} RefusalIsExact(state: Replayer, u: BookUpdate)
    ensures ApplyRow(state, u).error.Some? <==> OutOfOrder(state, u) || !ValidRow(u)
    ensures ApplyRow(state, u).error.Some?
            ==> (ApplyRow(state, u).state == state
                 <==> OutOfOrder(state, u) || !StartsResync(state, u))
    ensures ApplyRow(state, u).error.Some? && ApplyRow(state, u).state != state
            ==> ApplyRow(state, u).state.book == EMPTY
                && ApplyRow(state, u).state.stats.resyncs == state.stats.resyncs + 1
  {
  }

  const BID_OPENS := BookUpdate(1, true, Bid, Num(10.0), Num(2.0))
  const ASK_JOINS := BookUpdate(2, false, Ask, Num(11.0), Num(3.0))
  const BID_WITHOUT_PRICE := BookUpdate(3, true, Bid, Num(0.0), Num(1.0))

  const BID_ONLY := Replayer(Book([Level(10.0, 2.0)], []), Stats(1, 0, 1, 0, 0, 1), true, true)
  const TWO_SIDED := Replayer(Book([Level(10.0, 2.0)], [Level(11.0, 3.0)]), Stats(2, 0, 1, 0, 0, 2), true, false)

  /** A first level on a side. */
  lemma FirstLevel(book: Book, side: Side, price: real, quantity: real)
    requires book.Levels(side) == [] && price > 0.0 && quantity > 0.0
    ensures ApplyLevel(book, side, Num(price), Num(quantity)) == Ok(book.With(side, [Level(price, quantity)]))
  {
    var none: seq<Level> := [];
    assert book.Levels(side) == none && Front(side, none, price) == none && Back(side, none, price) == none;
    assert Updated(side, none, price, quantity) == [Level(price, quantity)];
  }

  lemma ThreeRows()
    ensures ApplyRow(FRESH, BID_OPENS) == Applied(BID_ONLY, None)
    ensures ApplyRow(BID_ONLY, ASK_JOINS) == Applied(TWO_SIDED, None)
    ensures var refused := ApplyRow(TWO_SIDED, BID_WITHOUT_PRICE);
            refused.error == Some(InvalidRow(BadPrice)) && refused.state.book == EMPTY && refused.state.stats.resyncs == 1
  {
    hide Updated;
    FirstLevel(EMPTY, Bid, 10.0, 2.0);
    FirstLevel(BID_ONLY.book, Ask, 11.0, 3.0);
  }

  /** Refusing a row can empty the book: the reset precedes the price check. Here a replayed book
      loses both its levels, and counts a resync, to a row that is itself refused. */
  lemma {:induction false} RefusedRowCanEmptyTheBook()
    ensures var before := Replay(FRESH, [BID_OPENS, ASK_JOINS]);
            var after := Replay(FRESH, [BID_OPENS, ASK_JOINS, BID_WITHOUT_PRICE]);
            && before == Replayed(TWO_SIDED, 2, None) && before.state.stats.resyncs == 0
            && after.error == Some(InvalidRow(BadPrice)) && after.consumed == 2
            && after.state.book == EMPTY && after.state.stats.resyncs == 1
  {
    hide Replay, ApplyRow;
    var rows := [BID_OPENS, ASK_JOINS, BID_WITHOUT_PRICE];
    ThreeRows();
    NoRows(FRESH, rows);
    OneMoreRow(FRESH, rows, 0, FRESH);
    OneMoreRow(FRESH, rows, 1, BID_ONLY);
    OneMoreRow(FRESH, rows, 2, TWO_SIDED);
    assert rows[..2] == [BID_OPENS, ASK_JOINS];
  }

  // ---------------------------------------------------------------- batching

  lemma {:induction false} ReplayComposes(state: Replayer, a: seq<BookUpdate>, b: seq<BookUpdate>)
    ensures Replay(state, a).error.Some? ==> Replay(state, a + b) == Replay(state, a)
    ensures Replay(state, a).error.None?
            ==> var rest := Replay(Replay(state, a).state, b);
                Replay(state, a + b) == Replayed(rest.state, |a| + rest.consumed, rest.error)
  {
    if b == [] {
      assert a + b == a;
    } else {
      var init := b[..|b| - 1];
      assert (a + b)[..|a + b| - 1] == a + init;
      ReplayComposes(state, a, init);
    }
  }

  lemma LastRowStep(state: Replayer, rows: seq<BookUpdate>)
    requires rows != []
    ensures var before := Replay(state, rows[..|rows| - 1]); var step := ApplyRow(before.state, rows[|rows| - 1]);
            Replay(state, rows)
            == if before.error.Some? then before
               else Replayed(step.state, if step.error.Some? then before.consumed else |rows|, step.error)
  {
    hide ApplyRow;
  }

  lemma NoRows(state: Replayer, rows: seq<BookUpdate>)
    ensures Replay(state, rows[..0]) == Replayed(state, 0, None)
  {
  }

  /** One more row after an accepted prefix, and what its refusal means for the whole batch. */
  lemma OneMoreRow(state: Replayer, rows: seq<BookUpdate>, k: nat, mid: Replayer)
    requires k < |rows| && Replay(state, rows[..k]) == Replayed(mid, k, None)
    ensures var step := ApplyRow(mid, rows[k]);
            && (step.error.None? ==> Replay(state, rows[..k + 1]) == Replayed(step.state, k + 1, None))
            && (step.error.Some? ==> Replay(state, rows) == Replayed(step.state, k, step.error))
  {
    hide Replay, ApplyRow;
    var prefix := rows[..k + 1];
    assert prefix[..k] == rows[..k];
    LastRowStep(state, prefix);
    ReplayComposes(state, prefix, rows[k + 1..]);
    assert rows == prefix + rows[k + 1..];
  }

  function Flatten(batches: seq<seq<BookUpdate>>): seq<BookUpdate> {
    if batches == [] then [] else Flatten(batches[..|batches| - 1]) + batches[|batches| - 1]
  }

  /** One `ApplyBatch` call per batch; a refusal ends the run. */
  function ReplayBatches(state: Replayer, batches: seq<seq<BookUpdate>>): Replayed {
    if batches == [] then Replayed(state, 0, None)
    else
      var before := ReplayBatches(state, batches[..|batches| - 1]);
      if before.error.Some? then before
      else
        var last := Replay(before.state, batches[|batches| - 1]);
        Replayed(last.state, before.consumed + last.consumed, last.error)
  }

  lemma {:induction false} BatchingIsInvisible(state: Replayer, batches: seq<seq<BookUpdate>>)
    ensures ReplayBatches(state, batches) == Replay(state, Flatten(batches))
  {
    if batches != [] {
      var init, last := batches[..|batches| - 1], batches[|batches| - 1];
      BatchingIsInvisible(state, init);
      ReplayComposes(state, Flatten(init), last);
    }
  }

  /** Stopping after k rows: the state the first k rows produce on their own. */
  lemma {:induction false} ReplayPrefix(state: Replayer, rows: seq<BookUpdate>, k: nat)
    requires k <= |rows|
    ensures k <= Replay(state, rows).consumed <==> Replay(state, rows[..k]).error.None?
  {
    assert rows == rows[..k] + rows[k..];
    ReplayComposes(state, rows[..k], rows[k..]);
  }

  // ---------------------------------------------------------------- invariants

  ghost predicate Consistent(state: Replayer) {
    state.book.Valid() && (!state.started ==> state == FRESH)
  }

  lemma EmptyIsValid()
    ensures WellFormed(Bid, []) && WellFormed(Ask, [])
  {
  }

  lemma ApplyRowConsistent(state: Replayer, u: BookUpdate)
    requires Consistent(state)
    ensures Consistent(ApplyRow(state, u).state)
  {
    hide Updated, WellFormed;
    EmptyIsValid();
    var ready := Resynced(state, u);
    if ValidRow(u) {
      UpdatedWellFormed(u.side, ready.book.Levels(u.side), u.price.value, u.quantity.value);
    }
  }

  lemma {:induction false} ReplayConsistent(state: Replayer, rows: seq<BookUpdate>)
    requires Consistent(state)
    ensures Consistent(Replay(state, rows).state)
  {
    hide ApplyRow, Consistent;
    if rows != [] {
      ReplayConsistent(state, rows[..|rows| - 1]);
      ApplyRowConsistent(Replay(state, rows[..|rows| - 1]).state, rows[|rows| - 1]);
    }
  }

  lemma AcceptedRow(state: Replayer, u: BookUpdate)
    requires ApplyRow(state, u).error.None?
    ensures !OutOfOrder(state, u) && ValidRow(u)
    ensures var next := ApplyRow(state, u).state;
            next.started && next.previousWasSnapshot == u.isSnapshot
            && next.stats.lastTimestamp == u.timestamp
  {
  }

  lemma {:induction false} LastRowIsRemembered(state: Replayer, rows: seq<BookUpdate>)
    requires rows != [] && Replay(state, rows).error.None?
    ensures Replay(state, rows).state.started
    ensures Replay(state, rows).state.previousWasSnapshot == rows[|rows| - 1].isSnapshot
    ensures Replay(state, rows).state.stats.lastTimestamp == rows[|rows| - 1].timestamp
    ensures Replay(state, rows[..|rows| - 1]).error.None?
    ensures ApplyRow(Replay(state, rows[..|rows| - 1]).state, rows[|rows| - 1])
         == Applied(Replay(state, rows).state, None)
  {
    hide ApplyRow;
    AcceptedRow(Replay(state, rows[..|rows| - 1]).state, rows[|rows| - 1]);
  }

  /** Accepted rows never go back in time. */
  lemma {:induction false} AcceptedIsOrdered(state: Replayer, rows: seq<BookUpdate>)
    requires Replay(state, rows).error.None?
    ensures forall i, j | 0 <= i < j < |rows| :: rows[i].timestamp <= rows[j].timestamp
    ensures state.started ==> forall i | 0 <= i < |rows| :: state.stats.lastTimestamp <= rows[i].timestamp
  {
    hide ApplyRow;
    if rows != [] {
      var n := |rows| - 1;
      var init := rows[..n];
      LastRowIsRemembered(state, rows);
      AcceptedRow(Replay(state, init).state, rows[n]);
      AcceptedIsOrdered(state, init);
      if init != [] {
        LastRowIsRemembered(state, init);
        assert init[n - 1].timestamp <= rows[n].timestamp;
      }
      forall i | 0 <= i < n
        ensures rows[i].timestamp <= rows[n].timestamp
        ensures state.started ==> state.stats.lastTimestamp <= rows[i].timestamp
      {
        assert init[i] == rows[i];
      }
      forall i, j | 0 <= i < j < n ensures rows[i].timestamp <= rows[j].timestamp {
        assert rows[i] == init[i] && rows[j] == init[j];
      }
    }
  }

  // ---------------------------------------------------------------- the last-write map

  predicate Writes(u: BookUpdate, side: Side, price: real) {
    u.side == side && u.price == Num(price)
  }

  predicate BlockStart(rows: seq<BookUpdate>, i: nat) {
    i < |rows| && rows[i].isSnapshot && (i == 0 || !rows[i - 1].isSnapshot)
  }

  /** `b` opens the latest snapshot block of `rows`. */
  predicate LatestBlock(rows: seq<BookUpdate>, b: nat) {
    BlockStart(rows, b) && forall i | b < i < |rows| :: !BlockStart(rows, i)
  }

  predicate LastWrite(rows: seq<BookUpdate>, b: nat, side: Side, price: real, k: nat) {
    b <= k < |rows| && Writes(rows[k], side, price)
    && forall j | k < j < |rows| :: !Writes(rows[j], side, price)
  }

  predicate NeverWritten(rows: seq<BookUpdate>, b: nat, side: Side, price: real) {
    forall k | b <= k < |rows| :: !Writes(rows[k], side, price)
  }

  lemma RowMeansMapUpdate(state: Replayer, u: BookUpdate, side: Side, price: real)
    requires Consistent(state) && ApplyRow(state, u).error.None?
    ensures QuantityAt(ApplyRow(state, u).state.book.Levels(side), price)
         == if Writes(u, side, price) then u.quantity.value
            else if StartsResync(state, u) then 0.0
            else QuantityAt(state.book.Levels(side), price)
  {
    var ready := Resynced(state, u);
    UpdatedMeansMapUpdate(u.side, ready.book.Levels(u.side), u.price.value, u.quantity.value);
  }

  /** After accepted rows, each price holds the quantity last written to it since the latest
      snapshot block opened, and nothing if none was. */
  lemma {:induction false} BookIsLastWrite(rows: seq<BookUpdate>, b: nat, side: Side, price: real)
    requires Replay(FRESH, rows).error.None? && LatestBlock(rows, b)
    ensures forall k: nat | LastWrite(rows, b, side, price, k) ::
              rows[k].quantity.Num?
              && QuantityAt(Replay(FRESH, rows).state.book.Levels(side), price) == rows[k].quantity.value
    ensures NeverWritten(rows, b, side, price)
            ==> QuantityAt(Replay(FRESH, rows).state.book.Levels(side), price) == 0.0
  {
    hide ApplyRow, Replay;
    var n := |rows| - 1;
    var init, last := rows[..n], rows[n];
    LastRowIsRemembered(FRESH, rows);
    var before := Replay(FRESH, init).state;
    ReplayConsistent(FRESH, init);
    AcceptedRow(before, last);
    RowMeansMapUpdate(before, last, side, price);
    OpeningStartsNoResync(rows);
    if b < n {
      LatestBlockCarriesOver(rows, b);
      BookIsLastWrite(init, b, side, price);
      if !Writes(last, side, price) {
        LastWriteCarriesOver(rows, b, side, price);
      }
    }
  }

  /** The last row of an accepted stream empties the book exactly when it opens a later block. */
  lemma OpeningStartsNoResync(rows: seq<BookUpdate>)
    requires rows != [] && Replay(FRESH, rows).error.None?
    ensures var n := |rows| - 1; var before := Replay(FRESH, rows[..n]).state;
            StartsResync(before, rows[n]) <==> n > 0 && BlockStart(rows, n)
    ensures |rows| == 1 ==> Replay(FRESH, rows[..0]).state == FRESH
  {
    hide ApplyRow;
    LastRowIsRemembered(FRESH, rows);
    if |rows| > 1 {
      LastRowIsRemembered(FRESH, rows[..|rows| - 1]);
    }
  }

  lemma LatestBlockCarriesOver(rows: seq<BookUpdate>, b: nat)
    requires LatestBlock(rows, b) && b < |rows| - 1
    ensures LatestBlock(rows[..|rows| - 1], b)
    ensures !BlockStart(rows, |rows| - 1)
  {
    var init := rows[..|rows| - 1];
    forall i | b < i < |init| ensures !BlockStart(init, i) {
      assert !BlockStart(rows, i);
    }
  }

  lemma LastWriteCarriesOver(rows: seq<BookUpdate>, b: nat, side: Side, price: real)
    requires b < |rows| - 1 && !Writes(rows[|rows| - 1], side, price)
    ensures forall k: nat | LastWrite(rows, b, side, price, k) :: LastWrite(rows[..|rows| - 1], b, side, price, k)
    ensures NeverWritten(rows, b, side, price) ==> NeverWritten(rows[..|rows| - 1], b, side, price)
  {
  }

  /** An accepted stream has a latest block, so the map above describes every book. */
  lemma {:induction false} AcceptedOpensABlock(rows: seq<BookUpdate>) returns (b: nat)
    requires rows != [] && Replay(FRESH, rows).error.None?
    ensures LatestBlock(rows, b)
  {
    hide ApplyRow;
    LastRowIsRemembered(FRESH, rows);
    var n := |rows| - 1;
    var init := rows[..n];
    if n == 0 {
      AcceptedRow(FRESH, rows[0]);
      b := 0;
    } else if rows[n].isSnapshot && !rows[n - 1].isSnapshot {
      b := n;
    } else {
      b := AcceptedOpensABlock(init);
      assert BlockStart(rows, b);
      forall i | b < i < |rows| ensures !BlockStart(rows, i) {
        if i < n { assert !BlockStart(init, i); }
      }
    }
  }

  /** Each side is the strictly best-first listing of that map, with positive quantities only;
      any other such listing of the same map is the same vector. */
  lemma {:induction false} BookIsTheListing(rows: seq<BookUpdate>, side: Side, other: seq<Level>)
    requires Replay(FRESH, rows).error.None?
    ensures WellFormed(side, Replay(FRESH, rows).state.book.Levels(side))
    ensures WellFormed(side, other)
            && (forall p :: QuantityAt(other, p) == QuantityAt(Replay(FRESH, rows).state.book.Levels(side), p))
            ==> other == Replay(FRESH, rows).state.book.Levels(side)
  {
    ReplayConsistent(FRESH, rows);
    var levels := Replay(FRESH, rows).state.book.Levels(side);
    if WellFormed(side, other) && (forall p :: QuantityAt(other, p) == QuantityAt(levels, p)) {
      ListingIsUnique(side, other, levels);
    }
  }

  // ---------------------------------------------------------------- the counters

  function SnapshotRows(rows: seq<BookUpdate>): set<int> {
    set i | 0 <= i < |rows| && rows[i].isSnapshot
  }

  /** Snapshot blocks other than the opening one. */
  function Resyncs(rows: seq<BookUpdate>): set<int> {
    set i | 1 <= i < |rows| && BlockStart(rows, i)
  }

  function Removals(rows: seq<BookUpdate>): set<int> {
    set i | 0 <= i < |rows| && rows[i].quantity == Num(0.0)
  }

  ghost predicate CrossedAfterRow(rows: seq<BookUpdate>, i: int) {
    0 <= i < |rows| && Replay(FRESH, rows[..i + 1]).state.book.Crossed()
  }

  ghost function CrossedRows(rows: seq<BookUpdate>): set<int> {
    set i | 0 <= i < |rows| && CrossedAfterRow(rows, i)
  }

  /** After an accepted stream every counter is what its name says, counted over the rows. */
  lemma {:induction false} CountersCount(rows: seq<BookUpdate>)
    requires Replay(FRESH, rows).error.None?
    ensures var stats := Replay(FRESH, rows).state.stats;
            stats.applied == |rows|
            && stats.snapshotRows == |SnapshotRows(rows)|
            && stats.resyncs == |Resyncs(rows)|
            && stats.removals == |Removals(rows)|
            && stats.crossed == |CrossedRows(rows)|
  {
    if rows != [] {
      var n := |rows| - 1;
      var init := rows[..n];
      CountersCount(init);
      RowCountedOnce(rows);
      if n > 0 {
        LastRowIsRemembered(FRESH, init);
      }
    }
  }

  lemma RowCountedOnce(rows: seq<BookUpdate>)
    requires rows != []
    ensures var n := |rows| - 1; var init := rows[..n];
            |SnapshotRows(rows)| == |SnapshotRows(init)| + (if rows[n].isSnapshot then 1 else 0)
            && |Resyncs(rows)| == |Resyncs(init)| + (if n > 0 && BlockStart(rows, n) then 1 else 0)
            && |Removals(rows)| == |Removals(init)| + (if rows[n].quantity == Num(0.0) then 1 else 0)
            && |CrossedRows(rows)|
               == |CrossedRows(init)| + (if Replay(FRESH, rows).state.book.Crossed() then 1 else 0)
  {
    hide Replay, ApplyRow, CrossedRows, Resyncs, SnapshotRows, Removals, BlockStart;
    SnapshotCountedOnce(rows);
    RemovalCountedOnce(rows);
    ResyncCountedOnce(rows);
    CrossedCountedOnce(rows);
  }

  lemma SnapshotCountedOnce(rows: seq<BookUpdate>)
    requires rows != []
    ensures var n := |rows| - 1;
            |SnapshotRows(rows)| == |SnapshotRows(rows[..n])| + (if rows[n].isSnapshot then 1 else 0)
  {
    var n := |rows| - 1;
    SetGrows(SnapshotRows(rows[..n]), SnapshotRows(rows), n, rows[n].isSnapshot);
  }

  lemma RemovalCountedOnce(rows: seq<BookUpdate>)
    requires rows != []
    ensures var n := |rows| - 1;
            |Removals(rows)| == |Removals(rows[..n])| + (if rows[n].quantity == Num(0.0) then 1 else 0)
  {
    var n := |rows| - 1;
    SetGrows(Removals(rows[..n]), Removals(rows), n, rows[n].quantity == Num(0.0));
  }

  lemma ResyncCountedOnce(rows: seq<BookUpdate>)
    requires rows != []
    ensures var n := |rows| - 1;
            |Resyncs(rows)| == |Resyncs(rows[..n])| + (if n > 0 && BlockStart(rows, n) then 1 else 0)
  {
    var n := |rows| - 1;
    forall i: nat | i < n ensures BlockStart(rows[..n], i) == BlockStart(rows, i) {}
    SetGrows(Resyncs(rows[..n]), Resyncs(rows), n, n > 0 && BlockStart(rows, n));
  }

  lemma CrossedAfterPrefix(rows: seq<BookUpdate>, i: nat)
    requires i < |rows| - 1
    ensures CrossedAfterRow(rows[..|rows| - 1], i) == CrossedAfterRow(rows, i)
  {
    hide Replay;
    assert rows[..|rows| - 1][..i + 1] == rows[..i + 1];
  }

  lemma CrossedCountedOnce(rows: seq<BookUpdate>)
    requires rows != []
    ensures |CrossedRows(rows)| == |CrossedRows(rows[..|rows| - 1])|
                                   + (if Replay(FRESH, rows).state.book.Crossed() then 1 else 0)
  {
    hide Replay, ApplyRow;
    var n := |rows| - 1;
    assert rows[..n + 1] == rows;
    assert CrossedAfterRow(rows, n) == Replay(FRESH, rows).state.book.Crossed();
    forall i: nat | i < n ensures CrossedAfterRow(rows[..n], i) == CrossedAfterRow(rows, i) {
      CrossedAfterPrefix(rows, i);
    }
    CrossedRowsGrow(rows[..n], rows);
  }

  lemma CrossedRowsGrow(init: seq<BookUpdate>, rows: seq<BookUpdate>)
    requires |rows| == |init| + 1
    requires forall i: nat | i < |init| :: CrossedAfterRow(init, i) == CrossedAfterRow(rows, i)
    ensures |CrossedRows(rows)| == |CrossedRows(init)| + (if CrossedAfterRow(rows, |init|) then 1 else 0)
  {
    hide CrossedAfterRow;
    SetGrows(CrossedRows(init), CrossedRows(rows), |init|, CrossedAfterRow(rows, |init|));
  }

  lemma SetGrows(a: set<int>, b: set<int>, n: int, grows: bool)
    requires n !in a && b == if grows then a + {n} else a
    ensures |b| == |a| + if grows then 1 else 0
  {
  }

  // ---------------------------------------------------------------- the object

  class LiveReplayer {
    const book: LiveBook
    var stats: Stats
    var started: bool
    var previousWasSnapshot: bool

    function View(): Replayer
      reads this, book
    {
      Replayer(book.View(), stats, started, previousWasSnapshot)
    }

    constructor ()
      ensures View() == FRESH && fresh(book)
    {
      book := new LiveBook();
      stats, started, previousWasSnapshot := Stats(0, 0, 0, 0, 0, 0), false, true;
    }

    /** The copy the simulator works on; the original is never touched. */
    constructor Copy(state: Replayer)
      ensures View() == state && fresh(book)
    {
      book := new LiveBook.Copy(state.book);
      stats, started, previousWasSnapshot := state.stats, state.started, state.previousWasSnapshot;
    }

    /** The counters of one accepted row, and where the stream now stands. */
    method Count(update: BookUpdate, crossed: bool)
      modifies this
      ensures stats == old(stats).(applied := old(stats).applied + 1,
                                   snapshotRows := old(stats).snapshotRows + if update.isSnapshot then 1 else 0,
                                   removals := old(stats).removals + if update.quantity == Num(0.0) then 1 else 0,
                                   crossed := old(stats).crossed + if crossed then 1 else 0,
                                   lastTimestamp := update.timestamp)
      ensures started && previousWasSnapshot == update.isSnapshot
    {
      stats := stats.(applied := stats.applied + 1);
      if update.isSnapshot {
        stats := stats.(snapshotRows := stats.snapshotRows + 1);
      }
      if update.quantity == Num(0.0) {
        stats := stats.(removals := stats.removals + 1);
      }
      if crossed {
        stats := stats.(crossed := stats.crossed + 1);
      }
      stats := stats.(lastTimestamp := update.timestamp);
      previousWasSnapshot := update.isSnapshot;
      started := true;
    }

    method Apply(update: BookUpdate) returns (error: Option<ReplayError>)
      requires Consistent(View())
      modifies this, book
      ensures Applied(View(), error) == ApplyRow(old(View()), update)
      ensures Consistent(View())
    {
      hide Updated, Validate, WellFormed, Book.Valid;
      ApplyRowConsistent(View(), update);
      if !started && !update.isSnapshot {
        return Some(NoOpeningSnapshot);
      }
      if started && update.timestamp < stats.lastTimestamp {
        return Some(BackwardsInTime);
      }
      if update.isSnapshot && !previousWasSnapshot {
        book.Clear();
        stats := stats.(resyncs := stats.resyncs + 1);
      }
      var rejected := book.Apply(update.side, update.price, update.quantity);
      if rejected.Some? {
        return Some(InvalidRow(rejected.value));
      }
      Count(update, book.View().Crossed());
      return None;
    }

    method ApplyBatch(batch: seq<BookUpdate>) returns (consumed: nat, error: Option<ReplayError>)
      requires Consistent(View())
      modifies this, book
      ensures Replayed(View(), consumed, error) == Replay(old(View()), batch)
      ensures Consistent(View())
    {
      hide ApplyRow, Replay, Consistent;
      consumed, error := 0, None;
      NoRows(View(), batch);
      while consumed < |batch|
        invariant consumed <= |batch| && error.None?
        invariant Replayed(View(), consumed, None) == Replay(old(View()), batch[..consumed])
        invariant Consistent(View())
      {
        OneMoreRow(old(View()), batch, consumed, View());
        error := Apply(batch[consumed]);
        if error.Some? {
          return;
        }
        consumed := consumed + 1;
      }
      assert batch[..consumed] == batch;
    }
  }
}
