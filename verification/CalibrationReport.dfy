/** What the sampler prices and when, said of the stream's rows without grouping them. */
module CalibrationReport {
  import opened Wrappers
  import opened OrderBook
  import opened BookReplayer
  import opened ImpactSimulator
  import opened SlicedExecution
  import opened CalibrationDataset

  /** The position, from 1, of the stream's `k`-th grid row. */
  function GridRow(k: int, config: Config): int {
    k * config.sampleEvery
  }

  /** A millisecond holding a grid row, whose sliced order would end in the day. */
  ghost predicate CallsFor(rows: seq<BookUpdate>, time: int, config: Config, end: int) {
    && config.duration * (config.slices - 1) < config.slices * (end - time)
    && exists k :: HoldsGridRow(rows, time, config, k)
  }

  ghost predicate HoldsGridRow(rows: seq<BookUpdate>, time: int, config: Config, k: int) {
    0 < GridRow(k, config) <= |rows| && rows[GridRow(k, config) - 1].timestamp == time
  }

  /** An order of an instant sees every row of its millisecond and none after, and is priced at once
      on the book of those rows and in slices by the whole stream. */
  ghost predicate IsPriced(rows: seq<BookUpdate>, p: Priced, side: OrderSide, config: Config) {
    && 0 < p.eventCount <= |rows| && rows[p.eventCount - 1].timestamp == p.time
    && (p.eventCount < |rows| ==> rows[p.eventCount].timestamp > p.time)
    && var book := Replay(FRESH, rows[..p.eventCount]).state.book;
       && p.depth == VisibleDepth(book, side) && p.atOnce == WalkFill(book, side, p.quantity)
       && Simulate(FRESH, rows, side, Num(p.quantity), Schedule(p.time, config.duration, config.slices, [])).Ok?
       && p.sliced == Simulate(FRESH, rows, side, Num(p.quantity), Schedule(p.time, config.duration, config.slices, [])).value
  }

  function Samples(rows: seq<BookUpdate>, config: Config, end: int): seq<Sample>
    requires ValidConfig(config)
  {
    Expected(GroupBy(rows), |GroupBy(rows)|, config, end)
  }

  // ---------------------------------------------------------------- rows and their groups

  ghost predicate Rising(groups: seq<Group>) {
    forall g, h | 0 <= g < h < |groups| :: groups[g].time < groups[h].time
  }

  lemma AcceptedGroupsRise(groups: seq<Group>)
    requires WellGrouped(groups) && NeighboursDiffer(groups) && Replay(FRESH, AllRows(groups)).error.None?
    ensures Rising(groups)
  {
    AcceptedGroupsAreOrdered(groups);
    hide Replay, AllRows, WellGrouped;
    forall g, h | 0 <= g < h < |groups| ensures groups[g].time < groups[h].time {
      assert groups[g].time <= groups[h - 1].time <= groups[h].time;
    }
  }

  lemma RowInGroup(groups: seq<Group>, g: nat, i: nat)
    requires WellGrouped(groups) && g < |groups| && EventCount(groups, g) <= i < EventCount(groups, g + 1)
    ensures i < |AllRows(groups)| && AllRows(groups)[i].timestamp == groups[g].time
  {
    RowsSplit(groups, g, g + 1);
    RowsSplit(groups, g + 1, g + 1);
    assert groups[g..g + 1] == [groups[g]] && [groups[g]][..0] == [];
    assert AllRows([groups[g]]) == groups[g].rows by { assert AllRows([]) == []; }
    var before := AllRows(groups[..g]);
    assert AllRows(groups)[i] == groups[g].rows[i - |before|];
  }

  /** The group a row fell into. */
  lemma {:induction false} GroupOfRow(groups: seq<Group>, n: nat, i: nat) returns (g: nat)
    requires n <= |groups| && i < EventCount(groups, n)
    ensures g < n && EventCount(groups, g) <= i < EventCount(groups, g + 1)
    decreases n
  {
    hide AllRows;
    assert n > 0 by { NoRows(groups); }
    if EventCount(groups, n - 1) <= i {
      g := n - 1;
    } else {
      g := GroupOfRow(groups, n - 1, i);
    }
  }

  lemma NoRows(groups: seq<Group>)
    ensures EventCount(groups, 0) == 0
  {
    assert groups[..0] == [];
  }

  /** A quotient grows across exactly the multiples passed. */
  lemma MultiplePassed(a: nat, b: nat, config: Config)
    requires a <= b && config.sampleEvery > 0
    ensures a / config.sampleEvery < b / config.sampleEvery <==> exists k :: a < GridRow(k, config) <= b
  {
    var e := config.sampleEvery;
    if a / e < b / e {
      BelowNext(a / e, b / e, a, e);
      assert a < GridRow(b / e, config) <= b;
    }
    if k :| a < GridRow(k, config) <= b {
      BelowNext(a / e, k, a, e);
      BelowNext(b / e, k, b, e);
    }
  }

  lemma BelowNext(q: nat, k: int, a: nat, e: nat)
    requires e > 0 && q == a / e
    ensures q < k <==> a < k * e
  {
    Apart(k - q, e);
    Difference(k, q, e);
    assert a == q * e + a % e;
  }

  lemma Apart(d: int, e: nat)
    requires e > 0
    ensures if d > 0 then d * e >= e else d * e <= 0
  {
  }

  lemma Difference(k: int, q: int, e: int)
    ensures (k - q) * e == k * e - q * e
  {
  }

  /** A group is sampled exactly when its millisecond holds a grid row. */
  lemma SampledGroupsHoldGridRows(groups: seq<Group>, g: nat, config: Config)
    requires WellGrouped(groups) && Rising(groups) && g < |groups| && config.sampleEvery > 0
    ensures CrossesGrid(groups, g, config) <==> exists k :: HoldsGridRow(AllRows(groups), groups[g].time, config, k)
  {
    hide GridRow, AllRows, WellGrouped, Rising, HoldsGridRow;
    RowsOfLaterGroup(groups, g, g + 1);
    MultiplePassed(EventCount(groups, g), EventCount(groups, g + 1), config);
    if CrossesGrid(groups, g, config) {
      var k :| EventCount(groups, g) < GridRow(k, config) <= EventCount(groups, g + 1);
      GroupHoldsRow(groups, g, config, k);
    }
    if k :| HoldsGridRow(AllRows(groups), groups[g].time, config, k) {
      GroupHoldsRow(groups, g, config, k);
    }
  }

  /** The rows of a group are those of its millisecond. */
  lemma GroupHoldsRow(groups: seq<Group>, g: nat, config: Config, k: int)
    requires WellGrouped(groups) && Rising(groups) && g < |groups|
    ensures EventCount(groups, g) < GridRow(k, config) <= EventCount(groups, g + 1)
       <==> HoldsGridRow(AllRows(groups), groups[g].time, config, k)
  {
    hide GridRow, AllRows, WellGrouped;
    var row := GridRow(k, config) - 1;
    if EventCount(groups, g) <= row < EventCount(groups, g + 1) {
      RowInGroup(groups, g, row);
    }
    if HoldsGridRow(AllRows(groups), groups[g].time, config, k) {
      assert groups[..|groups|] == groups;
      var h := GroupOfRow(groups, |groups|, row);
      RowInGroup(groups, h, row);
    }
  }

  // ---------------------------------------------------------------- which instants

  lemma EndsInTheDay(config: Config, time: int, end: int)
    requires ValidConfig(config)
    ensures LastSlice(config, time) < end <==> config.duration * (config.slices - 1) < config.slices * (end - time)
  {
    var x, s := config.duration * (config.slices - 1), config.slices;
    assert x >= 0;
    BelowNext(x / s, end - time, x, s);
  }

  /** Some group before `n` makes a sample of that time. */
  ghost predicate SampledBefore(groups: seq<Group>, n: nat, config: Config, end: int, g: nat, sample: Sample)
    requires n <= |groups| && ValidConfig(config)
  {
    g < n && CrossesGrid(groups, g, config) && LastSlice(config, groups[g].time) < end && sample == SampleAt(groups, g, config)
  }

  lemma {:induction false} ExpectedAt(groups: seq<Group>, n: nat, config: Config, end: int, i: nat) returns (g: nat)
    requires n <= |groups| && ValidConfig(config) && i < |Expected(groups, n, config, end)|
    ensures SampledBefore(groups, n, config, end, g, Expected(groups, n, config, end)[i])
    decreases n
  {
    hide CrossesGrid, LastSlice, SampleAt;
    if i < |Expected(groups, n - 1, config, end)| {
      g := ExpectedAt(groups, n - 1, config, end, i);
    } else {
      g := n - 1;
    }
  }

  lemma {:induction false} ExpectedHas(groups: seq<Group>, n: nat, config: Config, end: int, g: nat)
    requires g < n <= |groups| && ValidConfig(config)
    requires SampledBefore(groups, n, config, end, g, SampleAt(groups, g, config))
    ensures SampleAt(groups, g, config) in Expected(groups, n, config, end)
    decreases n
  {
    hide CrossesGrid, LastSlice, SampleAt;
    if g < n - 1 {
      ExpectedHas(groups, n - 1, config, end, g);
    }
  }

  ghost predicate InOrder(samples: seq<Sample>) {
    forall i, h | 0 <= i < h < |samples| :: samples[i].time < samples[h].time
  }

  lemma LaterSample(samples: seq<Sample>, sample: Sample)
    requires InOrder(samples) && forall i | 0 <= i < |samples| :: samples[i].time < sample.time
    ensures InOrder(samples + [sample])
  {
  }

  lemma {:induction false} ExpectedRise(groups: seq<Group>, n: nat, config: Config, end: int)
    requires n <= |groups| && ValidConfig(config) && Rising(groups)
    ensures InOrder(Expected(groups, n, config, end))
  {
    hide CrossesGrid, LastSlice;
    if n > 0 {
      ExpectedRise(groups, n - 1, config, end);
      var before := Expected(groups, n - 1, config, end);
      forall i | 0 <= i < |before| ensures before[i].time < groups[n - 1].time {
        var g := ExpectedAt(groups, n - 1, config, end, i);
      }
      LaterSample(before, SampleAt(groups, n - 1, config));
      hide InOrder, Rising;
    }
  }

  /** The instants sampled on an accepted day, each once and in time order: exactly the milliseconds
      that hold a grid row and whose order would end in the day. */
  lemma {:induction false} InstantsAreTheGrid(rows: seq<BookUpdate>, config: Config, end: int)
    requires ValidConfig(config) && Replay(FRESH, rows).error.None?
    ensures var samples := Samples(rows, config, end);
            && InOrder(samples)
            && (forall i | 0 <= i < |samples| :: CallsFor(rows, samples[i].time, config, end))
            && (forall time | CallsFor(rows, time, config, end) :: exists i :: 0 <= i < |samples| && samples[i].time == time)
  {
    hide Replay, GroupBy, Expected, AllRows, WellGrouped, NeighboursDiffer, CrossesGrid, Rising, GridRow;
    var groups := GroupBy(rows);
    var samples := Expected(groups, |groups|, config, end);
    GroupingKeepsRows(rows);
    AcceptedGroupsRise(groups);
    ExpectedRise(groups, |groups|, config, end);
    forall i | 0 <= i < |samples| ensures CallsFor(rows, samples[i].time, config, end) {
      var g := ExpectedAt(groups, |groups|, config, end, i);
      SampledGroupsHoldGridRows(groups, g, config);
      EndsInTheDay(config, groups[g].time, end);
    }
    forall time | CallsFor(rows, time, config, end) ensures exists i :: 0 <= i < |samples| && samples[i].time == time {
      var k :| HoldsGridRow(rows, time, config, k);
      assert groups[..|groups|] == groups;
      var g := GroupOfRow(groups, |groups|, GridRow(k, config) - 1);
      RowInGroup(groups, g, GridRow(k, config) - 1);
      SampledGroupsHoldGridRows(groups, g, config);
      EndsInTheDay(config, time, end);
      ExpectedHas(groups, |groups|, config, end, g);
    }
  }

  // ---------------------------------------------------------------- what each is priced at

  lemma {:induction false} StreamPricesAt(rows: seq<BookUpdate>, sample: Sample, side: OrderSide, sizes: seq<real>,
                                          config: Config, j: nat)
    requires Replay(FRESH, rows).error.None? && ValidConfig(config) && Positive(sizes) && j < |sizes|
    ensures |StreamPrices(rows, sample, side, sizes, config)| == |sizes|
    ensures Simulate(FRESH, rows, side, Num(sizes[j]), Plan(config, sample.time)).Ok?
    ensures StreamPrices(rows, sample, side, sizes, config)[j]
         == PricedWith(sample, side, sizes[j], Simulate(FRESH, rows, side, Num(sizes[j]), Plan(config, sample.time)).value)
  {
    hide Replay, Simulate, PricedWith, Plan;
    AdmissibleOrder(config, sample.time, sizes[j]);
    AcceptedStreamIsPriced(rows, side, Num(sizes[j]), Plan(config, sample.time));
    StreamPricesCount(rows, sample, side, sizes[..|sizes| - 1], config);
    if j < |sizes| - 1 {
      StreamPricesAt(rows, sample, side, sizes[..|sizes| - 1], config, j);
    }
  }

  lemma {:induction false} StreamPricesCount(rows: seq<BookUpdate>, sample: Sample, side: OrderSide, sizes: seq<real>,
                                             config: Config)
    requires Replay(FRESH, rows).error.None? && ValidConfig(config) && Positive(sizes)
    ensures |StreamPrices(rows, sample, side, sizes, config)| == |sizes|
  {
    hide Replay, Simulate, PricedWith, Plan;
    if sizes != [] {
      StreamPricesCount(rows, sample, side, sizes[..|sizes| - 1], config);
    }
  }

  /** Row `j` of instant `i` among all the rows. */
  function Place(i: nat, j: nat, sizes: seq<real>): nat {
    i * |sizes| + j
  }

  lemma PlaceIsLater(i: nat, n: nat, j: nat, sizes: seq<real>)
    requires j < |sizes|
    ensures i < n ==> Place(i, j, sizes) < Place(n, 0, sizes)
    ensures Place(n + 1, 0, sizes) == Place(n, 0, sizes) + |sizes| && Place(n, j, sizes) == Place(n, 0, sizes) + j
    ensures Place(0, 0, sizes) == 0
  {
    Apart(n - i, |sizes|);
    Difference(n, i, |sizes|);
    Difference(n + 1, n, |sizes|);
  }

  lemma {:induction false} AllPricesAt(rows: seq<BookUpdate>, samples: seq<Sample>, side: OrderSide, sizes: seq<real>,
                                       config: Config, i: nat, j: nat)
    requires Replay(FRESH, rows).error.None? && ValidConfig(config) && Positive(sizes) && i < |samples| && j < |sizes|
    ensures |AllPrices(rows, samples, side, sizes, config)| == Place(|samples|, 0, sizes) > Place(i, j, sizes)
    ensures |StreamPrices(rows, samples[i], side, sizes, config)| == |sizes|
    ensures AllPrices(rows, samples, side, sizes, config)[Place(i, j, sizes)]
         == StreamPrices(rows, samples[i], side, sizes, config)[j]
  {
    hide Replay, StreamPrices, Place;
    var n := |samples| - 1;
    AllPricesCount(rows, samples[..n], side, sizes, config);
    StreamPricesCount(rows, samples[n], side, sizes, config);
    StreamPricesCount(rows, samples[i], side, sizes, config);
    PlaceIsLater(i, n, j, sizes);
    PlaceIsLater(i, n + 1, j, sizes);
    if i < n {
      AllPricesAt(rows, samples[..n], side, sizes, config, i, j);
    }
  }

  lemma {:induction false} AllPricesCount(rows: seq<BookUpdate>, samples: seq<Sample>, side: OrderSide, sizes: seq<real>,
                                          config: Config)
    requires Replay(FRESH, rows).error.None? && ValidConfig(config) && Positive(sizes) && sizes != []
    ensures |AllPrices(rows, samples, side, sizes, config)| == Place(|samples|, 0, sizes)
  {
    hide Replay, StreamPrices, Place;
    PlaceIsLater(0, |samples|, 0, sizes);
    if samples != [] {
      var n := |samples| - 1;
      AllPricesCount(rows, samples[..n], side, sizes, config);
      StreamPricesCount(rows, samples[n], side, sizes, config);
      PlaceIsLater(0, n, 0, sizes);
    }
  }

  lemma GroupsHaveRows(groups: seq<Group>, g: nat)
    requires WellGrouped(groups) && g < |groups|
    ensures EventCount(groups, g) < EventCount(groups, g + 1)
  {
    RowsSplit(groups, g, g + 1);
    assert groups[g..g + 1] == [groups[g]] && [groups[g]][..0] == [];
  }

  lemma SampleIsItsPrefix(groups: seq<Group>, g: nat, config: Config)
    requires WellGrouped(groups) && Rising(groups) && g < |groups| && ValidConfig(config)
    ensures var sample, rows := SampleAt(groups, g, config), AllRows(groups);
            && 0 < sample.eventCount <= |rows| && rows[sample.eventCount - 1].timestamp == sample.time
            && (sample.eventCount < |rows| ==> rows[sample.eventCount].timestamp > sample.time)
            && sample.state == Replay(FRESH, rows[..sample.eventCount]).state
  {
    hide Replay, AllRows, WellGrouped;
    var rows, m := AllRows(groups), EventCount(groups, g + 1);
    RowsSplit(groups, g + 1, g + 1);
    GroupsHaveRows(groups, g);
    RowInGroup(groups, g, m - 1);
    assert rows[..m] == AllRows(groups[..g + 1]);
    if m < |rows| {
      assert groups[..|groups|] == groups;
      var h := GroupOfRow(groups, |groups|, m);
      RowInGroup(groups, h, m);
      LaterRowLaterGroup(groups, g, h);
    }
  }

  lemma LaterRowLaterGroup(groups: seq<Group>, g: nat, h: nat)
    requires g < |groups| && h < |groups| && EventCount(groups, g + 1) < EventCount(groups, h + 1)
    ensures g < h
  {
    if h <= g {
      RowsOfLaterGroup(groups, h + 1, g + 1);
    }
  }

  /** Row `j` of the `i`-th instant is size `j` priced at that instant. */
  ghost predicate IsRow(rows: seq<BookUpdate>, priced: seq<Priced>, samples: seq<Sample>, side: OrderSide, sizes: seq<real>,
                        config: Config, i: nat, j: nat)
    requires i < |samples| && j < |sizes|
  {
    && Place(i, j, sizes) < |priced|
    && var p := priced[Place(i, j, sizes)];
       p.time == samples[i].time && p.quantity == sizes[j] && IsPriced(rows, p, side, config)
  }

  /** Of an accepted day, each row is its size priced at its instant, and there are no other rows. */
  lemma {:induction false} RowsAreTheirInstants(rows: seq<BookUpdate>, side: OrderSide, sizes: seq<real>, config: Config,
                                                end: int, i: nat, j: nat)
    requires ValidConfig(config) && Replay(FRESH, rows).error.None? && Positive(sizes)
    requires i < |Samples(rows, config, end)| && j < |sizes|
    ensures var samples := Samples(rows, config, end); var priced := AllPrices(rows, samples, side, sizes, config);
            |priced| == |samples| * |sizes| && IsRow(rows, priced, samples, side, sizes, config, i, j)
  {
    hide Replay, Simulate, GroupBy, Expected, AllRows, WellGrouped, NeighboursDiffer, CrossesGrid, Rising, StreamPrices,
        AllPrices, SampleAt, WalkFill, VisibleDepth;
    var groups := GroupBy(rows);
    var samples := Samples(rows, config, end);
    GroupingKeepsRows(rows);
    AcceptedGroupsRise(groups);
    var g := ExpectedAt(groups, |groups|, config, end, i);
    SampleIsItsPrefix(groups, g, config);
    AllPricesAt(rows, samples, side, sizes, config, i, j);
    StreamPricesAt(rows, samples[i], side, sizes, config, j);
  }
}
