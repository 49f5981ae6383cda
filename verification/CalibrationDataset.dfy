/** Sampling of execution costs along a stream read once, with bounded look-ahead. */
module CalibrationDataset {
  import opened Wrappers
  import opened OrderBook
  import opened BookReplayer
  import opened ImpactSimulator
  import opened SlicedExecution
  import opened WalkReport

  /** Consecutive rows sharing a millisecond. */
  datatype Group = Group(time: int, rows: seq<BookUpdate>)

  datatype Config = Config(sampleEvery: nat, duration: int, slices: nat)

  /** An instant to price: the book as replayed through its group, and the rows up to the last slice. */
  datatype Sample = Sample(time: int, eventCount: nat, state: Replayer, future: seq<BookUpdate>)

  /** One order priced at an instant: at once, and sliced over the rows that follow. */
  datatype Priced = Priced(time: int, eventCount: nat, quantity: real, depth: real, atOnce: Fill, sliced: SlicedFill)

  /** A refusal is the main replay's or, ahead of it, that of an order being priced. */
  datatype SamplingError = NoSamples | RowRefused(error: ReplayError) | PricingRefused(reason: SlicedError) | Unconsumed

  predicate ValidConfig(config: Config) {
    config.sampleEvery > 0 && config.slices > 0 && config.duration >= 0
  }

  // ---------------------------------------------------------------- grouping

  /** A row joins the group in hand if it shares its millisecond, and opens one otherwise. */
  function AddRow(groups: seq<Group>, row: BookUpdate): seq<Group> {
    var n := |groups| - 1;
    if n >= 0 && groups[n].time == row.timestamp
    then groups[..n] + [Group(row.timestamp, groups[n].rows + [row])]
    else groups + [Group(row.timestamp, [row])]
  }

  function GroupBy(rows: seq<BookUpdate>): seq<Group> {
    if rows == [] then [] else AddRow(GroupBy(rows[..|rows| - 1]), rows[|rows| - 1])
  }

  function AllRows(groups: seq<Group>): seq<BookUpdate> {
    if groups == [] then [] else AllRows(groups[..|groups| - 1]) + groups[|groups| - 1].rows
  }

  ghost predicate WellGrouped(groups: seq<Group>) {
    forall g | 0 <= g < |groups| ::
      groups[g].rows != [] && forall i | 0 <= i < |groups[g].rows| :: groups[g].rows[i].timestamp == groups[g].time
  }

  ghost predicate NeighboursDiffer(groups: seq<Group>) {
    forall g | 0 < g < |groups| :: groups[g - 1].time != groups[g].time
  }

  lemma AddRowKeepsRows(groups: seq<Group>, row: BookUpdate)
    ensures AllRows(AddRow(groups, row)) == AllRows(groups) + [row]
  {
    var n := |groups| - 1;
    var after := AddRow(groups, row);
    if n >= 0 && groups[n].time == row.timestamp {
      assert after[..n] == groups[..n];
      assert AllRows(groups[..n]) + (groups[n].rows + [row]) == AllRows(groups[..n]) + groups[n].rows + [row];
    } else {
      assert after[..n + 1] == groups;
    }
  }

  lemma AddRowGroups(groups: seq<Group>, row: BookUpdate)
    requires WellGrouped(groups) && NeighboursDiffer(groups)
    ensures WellGrouped(AddRow(groups, row)) && NeighboursDiffer(AddRow(groups, row)) && AddRow(groups, row) != []
  {
  }

  /** Grouping loses, repeats and reorders nothing, and neighbouring groups differ in time. */
  lemma {:induction false} GroupingKeepsRows(rows: seq<BookUpdate>)
    ensures AllRows(GroupBy(rows)) == rows && WellGrouped(GroupBy(rows)) && NeighboursDiffer(GroupBy(rows))
  {
    hide AddRow, WellGrouped, NeighboursDiffer, AllRows;
    if rows == [] {
      NoGroups();
    } else {
      var n := |rows| - 1;
      GroupingKeepsRows(rows[..n]);
      AddRowKeepsRows(GroupBy(rows[..n]), rows[n]);
      AddRowGroups(GroupBy(rows[..n]), rows[n]);
      assert rows == rows[..n] + [rows[n]];
    }
  }

  lemma NoGroups()
    ensures AllRows([]) == [] && WellGrouped([]) && NeighboursDiffer([])
  {
  }

  lemma {:induction false} RowsConcat(a: seq<Group>, b: seq<Group>)
    ensures AllRows(a + b) == AllRows(a) + AllRows(b)
  {
    if b == [] {
      assert a + b == a;
    } else {
      assert (a + b)[..|a + b| - 1] == a + b[..|b| - 1];
      RowsConcat(a, b[..|b| - 1]);
    }
  }

  ghost predicate Ordered(groups: seq<Group>) {
    forall g, h | 0 <= g <= h < |groups| :: groups[g].time <= groups[h].time
  }

  /** A stream the replayer accepts has its groups in time order. */
  lemma AcceptedGroupsAreOrdered(groups: seq<Group>)
    requires WellGrouped(groups) && Replay(FRESH, AllRows(groups)).error.None?
    ensures Ordered(groups)
  {
    AcceptedIsOrdered(FRESH, AllRows(groups));
    hide Replay;
    forall g, h | 0 <= g <= h < |groups| ensures groups[g].time <= groups[h].time {
      var i := RowOfGroup(groups, g);
      var j := RowOfGroup(groups, h);
      assert i <= j by {
        if g < h { RowsOfLaterGroup(groups, g, h); }
      }
    }
  }

  lemma RowOfGroup(groups: seq<Group>, g: nat) returns (i: nat)
    requires WellGrouped(groups) && g < |groups|
    ensures i == |AllRows(groups[..g])| < |AllRows(groups)|
    ensures AllRows(groups)[i].timestamp == groups[g].time
  {
    assert groups == groups[..g] + groups[g..];
    RowsConcat(groups[..g], groups[g..]);
    assert groups[g..] == [groups[g]] + groups[g + 1..];
    RowsConcat([groups[g]], groups[g + 1..]);
    assert [groups[g]][..0] == [];
    assert AllRows([groups[g]]) == groups[g].rows;
    i := |AllRows(groups[..g])|;
  }

  lemma RowsOfLaterGroup(groups: seq<Group>, g: nat, h: nat)
    requires g <= h <= |groups|
    ensures |AllRows(groups[..g])| <= |AllRows(groups[..h])|
  {
    assert groups[..h] == groups[..g] + groups[g..h];
    RowsConcat(groups[..g], groups[g..h]);
  }

  // ---------------------------------------------------------------- which instants, and what they see

  function LastSlice(config: Config, time: int): int
    requires config.slices > 0
  {
    time + config.duration * (config.slices - 1) / config.slices
  }

  /** The look-ahead ends in the millisecond of the last slice of a sliced order. */
  lemma {:induction false} LookAheadEndsWithTheOrder(config: Config, time: int)
    requires ValidConfig(config)
    ensures var last := config.slices - 1; var elapsed := LastSlice(config, time) - time;
            && config.slices * elapsed <= config.duration * last < config.slices * (elapsed + 1)
            && LastSlice(config, time) == SliceTime(Schedule(time, config.duration, config.slices, []), last)
  {
    SliceTimeIsItsShare(Schedule(time, config.duration, config.slices, []), config.slices - 1);
  }

  /** Events through the first `g` groups. */
  function EventCount(groups: seq<Group>, g: nat): nat
    requires g <= |groups|
  {
    |AllRows(groups[..g])|
  }

  /** The group that takes the event count onto or past the next multiple of the grid. */
  predicate CrossesGrid(groups: seq<Group>, g: nat, config: Config)
    requires g < |groups| && config.sampleEvery > 0
  {
    EventCount(groups, g + 1) / config.sampleEvery > EventCount(groups, g) / config.sampleEvery
  }

  /** Where the groups at or before `last` stop, counting from `g`. */
  function Within(groups: seq<Group>, g: nat, last: int): (k: nat)
    requires g <= |groups|
    ensures g <= k <= |groups|
    ensures forall h | g <= h < k :: groups[h].time <= last
    ensures k < |groups| ==> groups[k].time > last
    decreases |groups| - g
  {
    if g < |groups| && groups[g].time <= last then Within(groups, g + 1, last) else g
  }

  function SampleAt(groups: seq<Group>, g: nat, config: Config): Sample
    requires g < |groups| && config.slices > 0
  {
    var time := groups[g].time;
    Sample(time, EventCount(groups, g + 1), Replay(FRESH, AllRows(groups[..g + 1])).state,
           AllRows(groups[g + 1..Within(groups, g + 1, LastSlice(config, time))]))
  }

  /** The samples the first `n` groups call for: every grid crossing whose order ends in the day. */
  function Expected(groups: seq<Group>, n: nat, config: Config, end: int): seq<Sample>
    requires n <= |groups| && ValidConfig(config)
  {
    if n == 0 then []
    else
      var before := Expected(groups, n - 1, config, end);
      if CrossesGrid(groups, n - 1, config) && LastSlice(config, groups[n - 1].time) < end
      then before + [SampleAt(groups, n - 1, config)] else before
  }

  ghost predicate AllBy(rows: seq<BookUpdate>, time: int) {
    forall j | 0 <= j < |rows| :: rows[j].timestamp <= time
  }

  lemma {:induction false} PrefixIsEarly(groups: seq<Group>, g: nat)
    requires WellGrouped(groups) && Ordered(groups) && g < |groups|
    ensures AllBy(AllRows(groups[..g + 1]), groups[g].time)
  {
    if g > 0 {
      PrefixIsEarly(groups, g - 1);
      assert groups[g - 1].time <= groups[g].time;
    } else {
      assert groups[..1][..0] == [] && AllRows(groups[..0]) == [];
    }
    assert groups[..g + 1][..g] == groups[..g];
  }

  lemma {:induction false} RowsSplit(groups: seq<Group>, g: nat, k: nat)
    requires g <= k <= |groups|
    ensures AllRows(groups[g..]) == AllRows(groups[g..k]) + AllRows(groups[k..])
    ensures AllRows(groups[..k]) == AllRows(groups[..g]) + AllRows(groups[g..k])
    ensures AllRows(groups) == AllRows(groups[..g]) + AllRows(groups[g..])
  {
    hide AllRows;
    assert groups[g..] == groups[g..k] + groups[k..];
    RowsConcat(groups[g..k], groups[k..]);
    assert groups[..k] == groups[..g] + groups[g..k];
    RowsConcat(groups[..g], groups[g..k]);
    assert groups == groups[..g] + groups[g..];
    RowsConcat(groups[..g], groups[g..]);
  }

  /** The first row the cut leaves out is the first row of group `k`. */
  lemma FirstRowBeyond(groups: seq<Group>, g: nat, k: nat)
    requires WellGrouped(groups) && g <= k <= |groups|
    ensures var m := |AllRows(groups[g..k])|;
            m <= |AllRows(groups[g..])|
            && (m < |AllRows(groups[g..])| ==> k < |groups| && AllRows(groups[g..])[m].timestamp == groups[k].time)
  {
    RowsSplit(groups, g, k);
    var m := |AllRows(groups[g..k])|;
    if k < |groups| {
      var i := RowOfGroup(groups, k);
      assert AllRows(groups)[i] == AllRows(groups[g..])[m];
    } else {
      assert groups[k..] == [];
    }
  }

  /** A sampled instant prices every sliced order as a simulation of the whole stream from
      scratch would: its state is the stream so far and its future is cut only past the last slice. */
  lemma {:induction false} SampleIsWholeStream(groups: seq<Group>, g: nat, config: Config, side: OrderSide,
                                               quantity: Double)
    requires WellGrouped(groups) && Replay(FRESH, AllRows(groups)).error.None? && g < |groups| && ValidConfig(config)
    ensures var sample := SampleAt(groups, g, config);
            var schedule := Schedule(sample.time, config.duration, config.slices, []);
            Simulate(sample.state, sample.future, side, quantity, schedule)
            == Simulate(FRESH, AllRows(groups), side, quantity, schedule)
  {
    hide Replay, Simulate, AllRows, WellGrouped, Ordered;
    var time := groups[g].time;
    var schedule := Schedule(time, config.duration, config.slices, []);
    var k := Within(groups, g + 1, LastSlice(config, time));
    var prefix, future := AllRows(groups[..g + 1]), AllRows(groups[g + 1..]);
    RowsSplit(groups, g + 1, k);
    FirstRowBeyond(groups, g + 1, k);
    AcceptedGroupsAreOrdered(groups);
    PrefixIsEarly(groups, g);
    ReplayComposes(FRESH, prefix, future);
    var m := |AllRows(groups[g + 1..k])|;
    assert future[..m] == AllRows(groups[g + 1..k]);
    CheckpointAndCut(prefix, future, m, side, quantity, schedule);
  }

  lemma {:induction false} EverySamplePricesTheWholeStream(groups: seq<Group>, n: nat, config: Config, end: int, i: nat,
                                                           side: OrderSide, quantity: Double)
    requires WellGrouped(groups) && Replay(FRESH, AllRows(groups)).error.None? && n <= |groups| && ValidConfig(config)
    requires i < |Expected(groups, n, config, end)|
    ensures var sample := Expected(groups, n, config, end)[i];
            var schedule := Schedule(sample.time, config.duration, config.slices, []);
            Simulate(sample.state, sample.future, side, quantity, schedule)
            == Simulate(FRESH, AllRows(groups), side, quantity, schedule)
  {
    hide Replay, Simulate, AllRows, WellGrouped, SampleAt, LastSlice, CrossesGrid;
    if i < |Expected(groups, n - 1, config, end)| {
      EverySamplePricesTheWholeStream(groups, n - 1, config, end, i, side, quantity);
    } else {
      SampleIsWholeStream(groups, n - 1, config, side, quantity);
    }
  }

  // ---------------------------------------------------------------- pricing

  function Plan(config: Config, time: int): Schedule {
    Schedule(time, config.duration, config.slices, [])
  }

  /** Quantity on the best 25 levels an order would consume. */
  function VisibleDepth(book: Book, side: OrderSide): real {
    var levels := book.Levels(ConsumedSide(side));
    Depth(if |levels| <= 25 then levels else levels[..25])
  }

  /** An order no larger than the visible depth never walks past the validated depth; a larger one
      does, or exhausts the side. */
  lemma {:induction false} VisibleDepthIsTheLimit(book: Book, side: OrderSide, quantity: real)
    requires book.Valid() && quantity > 0.0
    ensures quantity <= VisibleDepth(book, side)
       <==> !WalkFill(book, side, quantity).beyondValidatedDepth && !WalkFill(book, side, quantity).exhausted
  {
    var levels := book.Levels(ConsumedSide(side));
    ConsumableSide(book, side);
    TouchedAreReached(levels, quantity);
    FilledIsMin(levels, quantity);
    if |levels| > 25 {
      DepthSplits(levels, 25);
      PositivePrefix(levels, 25);
      DepthIsNatural(levels[25..]);
    }
    hide Depth, Touched, Filled, Notional, Worst, Book.Valid;
  }

  lemma {:induction false} DepthSplits(levels: seq<Level>, k: nat)
    requires AllPositive(levels) && k <= |levels|
    ensures Depth(levels) == Depth(levels[..k]) + Depth(levels[k..]) && AllPositive(levels[k..])
  {
    if k > 0 {
      DepthSplits(levels[1..], k - 1);
      assert levels[..k][1..] == levels[1..][..k - 1] && levels[1..][k - 1..] == levels[k..];
    } else {
      assert levels[..0] == [] && levels[0..] == levels;
    }
  }

  function PricedWith(sample: Sample, side: OrderSide, quantity: real, sliced: SlicedFill): Priced {
    var book := sample.state.book;
    Priced(sample.time, sample.eventCount, quantity, VisibleDepth(book, side), WalkFill(book, side, quantity), sliced)
  }

  /** The orders of one instant, or the first refusal. */
  function InstantPrices(sample: Sample, side: OrderSide, sizes: seq<real>, config: Config)
    : Result<seq<Priced>, SlicedError>
  {
    if sizes == [] then Ok([])
    else
      match InstantPrices(sample, side, sizes[..|sizes| - 1], config)
      case Err(error) => Err(error)
      case Ok(before) =>
        var size := sizes[|sizes| - 1];
        match Simulate(sample.state, sample.future, side, Num(size), Plan(config, sample.time))
        case Err(error) => Err(error)
        case Ok(sliced) => Ok(before + [PricedWith(sample, side, size, sliced)])
  }

  predicate Positive(sizes: seq<real>) {
    forall i | 0 <= i < |sizes| :: sizes[i] > 0.0
  }

  /** What an instant's orders cost on the whole accepted stream, simulated from scratch. */
  function StreamPrices(rows: seq<BookUpdate>, sample: Sample, side: OrderSide, sizes: seq<real>,
                        config: Config): seq<Priced>
    requires Replay(FRESH, rows).error.None? && ValidConfig(config) && Positive(sizes)
  {
    if sizes == [] then []
    else
      var size := sizes[|sizes| - 1];
      AdmissibleOrder(config, sample.time, size);
      AcceptedStreamIsPriced(rows, side, Num(size), Plan(config, sample.time));
      StreamPrices(rows, sample, side, sizes[..|sizes| - 1], config)
      + [PricedWith(sample, side, size, Simulate(FRESH, rows, side, Num(size), Plan(config, sample.time)).value)]
  }

  function AllPrices(rows: seq<BookUpdate>, samples: seq<Sample>, side: OrderSide, sizes: seq<real>, config: Config)
    : seq<Priced>
    requires Replay(FRESH, rows).error.None? && ValidConfig(config) && Positive(sizes)
  {
    if samples == [] then []
    else AllPrices(rows, samples[..|samples| - 1], side, sizes, config)
         + StreamPrices(rows, samples[|samples| - 1], side, sizes, config)
  }

  lemma {:induction false} PricedMeansPositive(sample: Sample, side: OrderSide, sizes: seq<real>, config: Config)
    requires InstantPrices(sample, side, sizes, config).Ok?
    ensures Positive(sizes) && |InstantPrices(sample, side, sizes, config).value| == |sizes|
  {
    hide Simulate, PricedWith;
    if sizes != [] {
      PricedMeansPositive(sample, side, sizes[..|sizes| - 1], config);
      OnlyPositiveIsPriced(sample, side, sizes[|sizes| - 1], config);
    }
  }

  lemma OnlyPositiveIsPriced(sample: Sample, side: OrderSide, size: real, config: Config)
    ensures Simulate(sample.state, sample.future, side, Num(size), Plan(config, sample.time)).Ok? ==> size > 0.0
  {
    hide AllFills;
  }

  /** An instant of an accepted day is priced, and as the whole stream from scratch prices it. */
  lemma {:induction false} InstantIsPriced(groups: seq<Group>, g: nat, config: Config, side: OrderSide,
                                           sizes: seq<real>)
    requires WellGrouped(groups) && Replay(FRESH, AllRows(groups)).error.None? && g < |groups| && ValidConfig(config)
    requires Positive(sizes)
    ensures InstantPrices(SampleAt(groups, g, config), side, sizes, config)
         == Ok(StreamPrices(AllRows(groups), SampleAt(groups, g, config), side, sizes, config))
  {
    hide Replay, Simulate, AllRows, WellGrouped, SampleAt, PricedWith;
    if sizes != [] {
      var size := sizes[|sizes| - 1];
      InstantIsPriced(groups, g, config, side, sizes[..|sizes| - 1]);
      SampleIsWholeStream(groups, g, config, side, Num(size));
      AdmissibleOrder(config, SampleAt(groups, g, config).time, size);
      AcceptedStreamIsPriced(AllRows(groups), side, Num(size), Plan(config, SampleAt(groups, g, config).time));
    }
  }

  lemma AdmissibleOrder(config: Config, time: int, size: real)
    requires ValidConfig(config) && size > 0.0
    ensures ScheduleError(Num(size), Plan(config, time)).None?
  {
  }

  // ---------------------------------------------------------------- the loop

  /** The rows of the buffered groups that an order ending at `last` can see. */
  function Visible(pending: seq<Group>, last: int): seq<BookUpdate> {
    if pending == [] then []
    else
      var n := |pending| - 1;
      Visible(pending[..n], last) + if pending[n].time <= last then pending[n].rows else []
  }

  lemma {:induction false} VisibleWhenEarly(groups: seq<Group>, g: nat, k: nat, last: int)
    requires g <= k <= |groups| && forall h | g <= h < k :: groups[h].time <= last
    ensures Visible(groups[g..k], last) == AllRows(groups[g..k])
  {
    if k > g {
      assert groups[g..k][..k - 1 - g] == groups[g..k - 1];
      VisibleWhenEarly(groups, g, k - 1, last);
    }
  }

  /** Filtering any buffer that reaches past the last slice finds exactly the rows up to it. */
  lemma {:induction false} VisibleIsWithin(groups: seq<Group>, g: nat, k: nat, read: nat, last: int)
    requires Ordered(groups) && g <= k <= read <= |groups|
    requires forall h | g <= h < k :: groups[h].time <= last
    requires k < |groups| ==> groups[k].time > last
    ensures Visible(groups[g..read], last) == AllRows(groups[g..k])
    decreases read
  {
    if read == k {
      VisibleWhenEarly(groups, g, k, last);
    } else {
      assert groups[g..read][..read - 1 - g] == groups[g..read - 1];
      assert groups[k].time <= groups[read - 1].time;
      VisibleIsWithin(groups, g, k, read - 1, last);
    }
  }

  /** Replay has stopped after group `mark`; the rows up to group `done` wait in `batch`. */
  ghost predicate Waiting(groups: seq<Group>, mark: nat, done: nat, batch: seq<BookUpdate>, state: Replayer) {
    mark <= done <= |groups| && batch == AllRows(groups[mark..done])
    && Replay(FRESH, AllRows(groups[..mark])).error.None? && Replay(FRESH, AllRows(groups[..mark])).state == state
  }

  lemma WaitGrows(groups: seq<Group>, mark: nat, done: nat, batch: seq<BookUpdate>, state: Replayer)
    requires Waiting(groups, mark, done, batch, state) && done < |groups|
    ensures Waiting(groups, mark, done + 1, batch + groups[done].rows, state)
    ensures EventCount(groups, done + 1) == EventCount(groups, done) + |groups[done].rows|
  {
    hide Replay;
    assert groups[mark..done + 1][..done - mark] == groups[mark..done];
    assert groups[..done + 1][..done] == groups[..done];
  }

  lemma WaitEnds(groups: seq<Group>, mark: nat, done: nat, batch: seq<BookUpdate>, state: Replayer)
    requires Waiting(groups, mark, done, batch, state)
    ensures Replay(state, batch).error.None? ==> Waiting(groups, done, done, [], Replay(state, batch).state)
    ensures Replay(state, batch).error.Some? ==> Replay(FRESH, AllRows(groups)).error == Replay(state, batch).error
  {
    RowsSplit(groups, mark, done);
    ReplayComposes(FRESH, AllRows(groups[..mark]), batch);
    RowsSplit(groups, done, done);
    ReplayComposes(FRESH, AllRows(groups[..done]), AllRows(groups[done..]));
    assert groups[done..done] == [];
    hide Replay;
  }

  /** The event count that calls for the next sample. */
  function Threshold(applied: nat, every: nat): nat
    requires every > 0
  {
    (applied / every + 1) * every
  }

  lemma NextMultiple(a: nat, b: nat, every: nat)
    requires every > 0 && a <= b
    ensures b >= Threshold(a, every) <==> b / every > a / every
    ensures b / every <= a / every ==> Threshold(a, every) == Threshold(b, every)
  {
    var q, p := a / every, b / every;
    QuotientBounds(b, every);
    MultiplesInOrder(p, q, every);
    MultiplesInOrder(q + 1, p, every);
    QuotientsInOrder(a, b, every);
  }

  lemma QuotientBounds(b: nat, every: nat)
    requires every > 0
    ensures (b / every) * every <= b < (b / every + 1) * every
  {
  }

  lemma MultiplesInOrder(p: nat, q: nat, every: nat)
    ensures p <= q ==> p * every <= q * every && (p + 1) * every <= (q + 1) * every
  {
    assert (q - p) * every == q * every - p * every;
  }

  lemma QuotientsInOrder(a: nat, b: nat, every: nat)
    requires every > 0 && a <= b
    ensures a / every <= b / every
  {
    QuotientBounds(a, every);
    QuotientBounds(b, every);
    MultiplesInOrder(b / every + 1, a / every, every);
  }

  /** What the loop adds for group `g`, when the groups are in order. */
  lemma SampleStep(groups: seq<Group>, g: nat, read: nat, config: Config)
    requires Ordered(groups) && g < read <= |groups| && ValidConfig(config)
    requires var last := LastSlice(config, groups[g].time);
             read == |groups| || (g + 1 < read && groups[read - 1].time > last)
    ensures SampleAt(groups, g, config)
         == Sample(groups[g].time, EventCount(groups, g + 1), Replay(FRESH, AllRows(groups[..g + 1])).state,
                   Visible(groups[g + 1..read], LastSlice(config, groups[g].time)))
  {
    var last := LastSlice(config, groups[g].time);
    var k := Within(groups, g + 1, last);
    assert k <= read;
    VisibleIsWithin(groups, g + 1, k, read, last);
    hide Replay, LastSlice, Visible, AllRows, Within;
  }

  /** What the loop decides about group `g` from its counters. */
  lemma ExpectedNext(groups: seq<Group>, g: nat, config: Config, end: int, applied: nat)
    requires g < |groups| && ValidConfig(config) && applied == EventCount(groups, g) <= EventCount(groups, g + 1)
    ensures var next := EventCount(groups, g + 1); var before := Expected(groups, g, config, end);
            && (next < Threshold(applied, config.sampleEvery)
                ==> Threshold(applied, config.sampleEvery) == Threshold(next, config.sampleEvery)
                    && Expected(groups, g + 1, config, end) == before)
            && (LastSlice(config, groups[g].time) >= end ==> Expected(groups, g + 1, config, end) == before)
            && (next >= Threshold(applied, config.sampleEvery) && LastSlice(config, groups[g].time) < end
                ==> Expected(groups, g + 1, config, end) == before + [SampleAt(groups, g, config)])
  {
    NextMultiple(applied, EventCount(groups, g + 1), config.sampleEvery);
    hide Threshold, LastSlice, SampleAt, EventCount;
  }

  /** Reads through the last slice and one group beyond it, leaving every group buffered. */
  method ReadAhead(groups: seq<Group>, buffered: seq<Group>, at: nat, last: int, ghost done: nat)
    returns (pending: seq<Group>, read: nat)
    requires done <= at <= |groups| && buffered == groups[done..at]
    ensures done <= read <= |groups| && pending == groups[done..read]
    ensures read == |groups| || (done < read && groups[read - 1].time > last)
  {
    pending, read := buffered, at;
    while read < |groups| && (pending == [] || pending[|pending| - 1].time <= last)
      invariant done <= read <= |groups| && pending == groups[done..read]
    {
      pending := pending + [groups[read]];
      read := read + 1;
    }
  }

  /** Every order size at one instant, on copies of the replayed state. */
  method PriceInstant(sample: Sample, side: OrderSide, sizes: seq<real>, config: Config)
    returns (r: Result<seq<Priced>, SlicedError>)
    requires Consistent(sample.state)
    ensures r == InstantPrices(sample, side, sizes, config)
  {
    hide Simulate, PricedWith, Consistent;
    var priced := [];
    assert sizes[..0] == [];
    for i := 0 to |sizes|
      invariant InstantPrices(sample, side, sizes[..i], config) == Ok(priced)
    {
      assert sizes[..i + 1][..i] == sizes[..i];
      var sliced := SimulateFromState(sample.state, sample.future, side, Num(sizes[i]), Plan(config, sample.time));
      if sliced.Err? {
        PricesStopAtError(sample, side, sizes, config, i + 1);
        return Err(sliced.error);
      }
      priced := priced + [PricedWith(sample, side, sizes[i], sliced.value)];
    }
    assert sizes[..|sizes|] == sizes;
    return Ok(priced);
  }

  lemma {:induction false} PricesStopAtError(sample: Sample, side: OrderSide, sizes: seq<real>, config: Config, i: nat)
    requires i <= |sizes| && InstantPrices(sample, side, sizes[..i], config).Err?
    ensures InstantPrices(sample, side, sizes, config) == InstantPrices(sample, side, sizes[..i], config)
  {
    hide Simulate, PricedWith;
    if i == |sizes| {
      assert sizes[..i] == sizes;
    } else {
      assert sizes[..|sizes| - 1][..i] == sizes[..i];
      PricesStopAtError(sample, side, sizes[..|sizes| - 1], config, i);
    }
  }

  /** The stream read once, group by group, each instant priced as it is reached, with the
      look-ahead buffered for the main replay. */
  method SampleRows(rows: seq<BookUpdate>, side: OrderSide, sizes: seq<real>, config: Config, end: int)
    returns (r: Result<seq<Priced>, SamplingError>)
    requires ValidConfig(config) && |sizes| >= 2
    ensures var groups := GroupBy(rows); var expected := Expected(groups, |groups|, config, end);
            && (r.Ok? <==> Replay(FRESH, rows).error.None? && expected != [] && Positive(sizes))
            && (r.Ok? ==> r.value == AllPrices(rows, expected, side, sizes, config))
            && (r == Err(NoSamples) ==> expected == [])
            && (forall error :: r == Err(RowRefused(error)) ==> Replay(FRESH, rows).error == Some(error))
            && (forall reason :: r == Err(PricingRefused(reason)) ==> Replay(FRESH, rows).error.Some? || !Positive(sizes))
            && r != Err(Unconsumed)
  {
    hide Replay, AllRows, GroupBy, WellGrouped, Ordered, Consistent, EventCount, Waiting, Expected, LastSlice, Visible,
        Threshold, SampleAt, InstantPrices, StreamPrices, AllPrices, Positive;
    var groups := GroupBy(rows);
    GroupingKeepsRows(rows);
    AcceptedDayIsOrdered(groups);
    var pipeline := new LiveReplayer();
    var pending, batch, priced := [], [], [];
    var applied, threshold, read := 0, config.sampleEvery, 0;
    ghost var mark, done := 0, 0;
    Beginning(groups, config, end);
    NoPrices(rows, side, sizes, config);
    while pending != [] || read < |groups|
      invariant done <= read <= |groups| && pending == groups[done..read]
      invariant Waiting(groups, mark, done, batch, pipeline.View()) && Consistent(pipeline.View())
      invariant fresh(pipeline) && fresh(pipeline.book)
      invariant applied == EventCount(groups, done) && threshold == Threshold(applied, config.sampleEvery)
      invariant priced == [] <==> Expected(groups, done, config, end) == []
      invariant priced != [] ==> Positive(sizes)
      invariant Replay(FRESH, rows).error.None? && Positive(sizes)
                ==> priced == AllPrices(rows, Expected(groups, done, config, end), side, sizes, config)
      decreases |groups| - done
    {
      var item;
      if pending != [] {
        item, pending := pending[0], pending[1..];
      } else {
        item, read := groups[read], read + 1;
      }
      assert item == groups[done] && pending == groups[done + 1..read];
      batch := batch + item.rows;
      WaitGrows(groups, mark, done, batch[..|batch| - |item.rows|], pipeline.View());
      ExpectedNext(groups, done, config, end, applied);
      applied := applied + |item.rows|;
      done := done + 1;
      if applied < threshold {
        continue;
      }
      WaitEnds(groups, mark, done, batch, pipeline.View());
      var consumed, error := pipeline.ApplyBatch(batch);
      if error.Some? {
        return Err(RowRefused(error.value));
      }
      batch := [];
      mark := done;
      threshold := Threshold(applied, config.sampleEvery);
      var last := LastSlice(config, item.time);
      if last >= end {
        continue;
      }
      pending, read := ReadAhead(groups, pending, read, last, done);
      WaitState(groups, done, pipeline.View());
      var sample := Sample(item.time, applied, pipeline.View(), Visible(pending, last));
      var prices := PriceInstant(sample, side, sizes, config);
      InstantStep(groups, done - 1, read, config, side, sizes, sample);
      if prices.Err? {
        return Err(PricingRefused(prices.error));
      }
      PricedMeansPositive(sample, side, sizes, config);
      MorePrices(rows, Expected(groups, done - 1, config, end), SampleAt(groups, done - 1, config), side, sizes, config);
      priced := priced + prices.value;
    }
    assert done == |groups|;
    if priced == [] {
      return Err(NoSamples);
    }
    WaitEnds(groups, mark, done, batch, pipeline.View());
    NothingToReplay(pipeline.View());
    if batch != [] {
      var consumed, error := pipeline.ApplyBatch(batch);
      if error.Some? {
        return Err(RowRefused(error.value));
      }
    }
    AllConsumed(groups, pipeline.View());
    if pipeline.stats.applied != applied {
      return Err(Unconsumed);
    }
    return Ok(priced);
  }

  lemma AcceptedDayIsOrdered(groups: seq<Group>)
    requires WellGrouped(groups)
    ensures Replay(FRESH, AllRows(groups)).error.None? ==> Ordered(groups)
  {
    hide Replay, AllRows, WellGrouped, Ordered;
    if Replay(FRESH, AllRows(groups)).error.None? {
      AcceptedGroupsAreOrdered(groups);
    }
  }

  lemma NoPrices(rows: seq<BookUpdate>, side: OrderSide, sizes: seq<real>, config: Config)
    requires ValidConfig(config)
    ensures Replay(FRESH, rows).error.None? && Positive(sizes) ==> AllPrices(rows, [], side, sizes, config) == []
  {
  }

  lemma MorePrices(rows: seq<BookUpdate>, samples: seq<Sample>, sample: Sample, side: OrderSide, sizes: seq<real>,
                   config: Config)
    requires ValidConfig(config)
    ensures Replay(FRESH, rows).error.None? && Positive(sizes)
            ==> AllPrices(rows, samples + [sample], side, sizes, config)
                == AllPrices(rows, samples, side, sizes, config) + StreamPrices(rows, sample, side, sizes, config)
  {
    assert (samples + [sample])[..|samples|] == samples;
    hide Replay, StreamPrices;
  }

  /** On an accepted day the loop's sample is the expected one, and prices as the whole stream does. */
  lemma InstantStep(groups: seq<Group>, g: nat, read: nat, config: Config, side: OrderSide, sizes: seq<real>,
                    sample: Sample)
    requires WellGrouped(groups) && g < read <= |groups| && ValidConfig(config)
    requires var last := LastSlice(config, groups[g].time);
             && (read == |groups| || (g + 1 < read && groups[read - 1].time > last))
             && sample == Sample(groups[g].time, EventCount(groups, g + 1), Replay(FRESH, AllRows(groups[..g + 1])).state,
                                 Visible(groups[g + 1..read], last))
    ensures Replay(FRESH, AllRows(groups)).error.None? && Positive(sizes) ==>
              InstantPrices(sample, side, sizes, config)
              == Ok(StreamPrices(AllRows(groups), SampleAt(groups, g, config), side, sizes, config))
  {
    hide Replay, AllRows, WellGrouped, Ordered, SampleAt, InstantPrices, StreamPrices, EventCount, Visible, LastSlice,
        Positive;
    if Replay(FRESH, AllRows(groups)).error.None? && Positive(sizes) {
      AcceptedGroupsAreOrdered(groups);
      SampleStep(groups, g, read, config);
      InstantIsPriced(groups, g, config, side, sizes);
    }
  }

  lemma Beginning(groups: seq<Group>, config: Config, end: int)
    ensures Waiting(groups, 0, 0, [], FRESH) && EventCount(groups, 0) == 0 && Consistent(FRESH)
    ensures ValidConfig(config) ==> Threshold(0, config.sampleEvery) == config.sampleEvery
    ensures ValidConfig(config) ==> Expected(groups, 0, config, end) == []
  {
    assert groups[0..0] == [] && groups[..0] == [];
  }

  lemma WaitState(groups: seq<Group>, done: nat, state: Replayer)
    requires Waiting(groups, done, done, [], state)
    ensures state == Replay(FRESH, AllRows(groups[..done])).state
  {
  }

  lemma NothingToReplay(state: Replayer)
    ensures Replay(state, []) == Replayed(state, 0, None)
  {
  }

  lemma AllConsumed(groups: seq<Group>, state: Replayer)
    requires Waiting(groups, |groups|, |groups|, [], state)
    ensures Replay(FRESH, AllRows(groups)).error.None? && state.stats.applied == EventCount(groups, |groups|)
  {
    assert groups[..|groups|] == groups;
    CountersCount(AllRows(groups));
    hide Replay;
  }
}
