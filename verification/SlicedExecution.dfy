/** A parent order executed slice by slice over a replayed stream. */
module SlicedExecution {
  import opened Wrappers
  import opened OrderBook
  import opened BookReplayer
  import opened ImpactSimulator

  datatype Schedule = Schedule(start: int, duration: int, slices: nat, weights: seq<Double>)

  datatype SlicedError = BadTotal | NoSlices | NegativeDuration | WrongWeightCount | BadWeight | ZeroWeightSum
                       | StateTooLate | ReplayFailed(error: ReplayError)

  datatype SlicedFill = SlicedFill(
    parent: Fill, slices: seq<Fill>, exhausted: nat, beyondValidatedDepth: nat, crossed: nat, completed: bool)

  // ---------------------------------------------------------------- the schedule

  predicate BadWeightIn(weights: seq<Double>) {
    exists i | 0 <= i < |weights| :: weights[i].NonFinite? || weights[i].value < 0.0
  }

  function Values(weights: seq<Double>): seq<real> {
    seq(|weights|, i requires 0 <= i < |weights| => if weights[i].Num? then weights[i].value else 0.0)
  }

  /** An empty weight list means equal weights. */
  function Weights(schedule: Schedule): seq<real> {
    if schedule.weights == [] then seq(schedule.slices, _ => 1.0) else Values(schedule.weights)
  }

  function ScheduleError(total: Double, schedule: Schedule): Option<SlicedError> {
    if total.NonFinite? || total.value <= 0.0 then Some(BadTotal)
    else if schedule.slices == 0 then Some(NoSlices)
    else if schedule.duration < 0 then Some(NegativeDuration)
    else if schedule.weights == [] then None
    else if |schedule.weights| != schedule.slices then Some(WrongWeightCount)
    else if BadWeightIn(schedule.weights) then Some(BadWeight)
    else if Sum(Values(schedule.weights)) <= 0.0 then Some(ZeroWeightSum)
    else None
  }

  function SliceTime(schedule: Schedule, i: nat): int
    requires schedule.slices > 0
  {
    schedule.start + schedule.duration * i / schedule.slices
  }

  function Share(total: real, weight: real, sum: real): real
    requires sum != 0.0
  {
    total * weight / sum
  }

  function Shares(total: real, weights: seq<real>, sum: real): seq<real>
    requires sum != 0.0
  {
    if weights == [] then [] else [Share(total, weights[0], sum)] + Shares(total, weights[1..], sum)
  }

  /** Every slice its share, except the last, which takes what the others leave. */
  function SliceSizes(total: real, schedule: Schedule): (sizes: seq<real>)
    requires ScheduleError(Num(total), schedule).None? && Sum(Weights(schedule)) > 0.0
  {
    var weights := Weights(schedule);
    var early := Shares(total, weights[..|weights| - 1], Sum(weights));
    early + [total - Sum(early)]
  }

  lemma {:induction false} SumOfConcat(a: seq<real>, b: seq<real>)
    ensures Sum(a + b) == Sum(a) + Sum(b)
  {
    if a == [] {
      assert a + b == b;
    } else {
      assert (a + b)[1..] == a[1..] + b;
      SumOfConcat(a[1..], b);
    }
  }

  lemma {:induction false} SharesAt(total: real, weights: seq<real>, sum: real)
    requires sum != 0.0
    ensures |Shares(total, weights, sum)| == |weights|
    ensures forall i | 0 <= i < |weights| :: Shares(total, weights, sum)[i] == Share(total, weights[i], sum)
    ensures Sum(Shares(total, weights, sum)) == Share(total, Sum(weights), sum)
  {
    hide Share;
    if weights == [] {
      NoShare(total, sum);
    } else {
      SharesAt(total, weights[1..], sum);
      ShareAdds(total, weights[0], Sum(weights[1..]), sum);
    }
  }

  lemma NoShare(total: real, sum: real)
    requires sum != 0.0
    ensures Share(total, 0.0, sum) == 0.0
  {
  }

  lemma ShareAdds(total: real, a: real, b: real, sum: real)
    requires sum != 0.0
    ensures Share(total, a, sum) + Share(total, b, sum) == Share(total, a + b, sum)
  {
  }

  lemma SizesCount(total: real, schedule: Schedule)
    requires ScheduleError(Num(total), schedule).None? && Sum(Weights(schedule)) > 0.0
    ensures |SliceSizes(total, schedule)| == schedule.slices
  {
    WeightsArePositive(Num(total), schedule);
    SharesAt(total, Weights(schedule)[..schedule.slices - 1], Sum(Weights(schedule)));
  }

  lemma ShareIsFair(total: real, weight: real, sum: real)
    requires total > 0.0 && weight >= 0.0 && sum > 0.0
    ensures Share(total, weight, sum) >= 0.0
    ensures Share(total, weight, sum) == 0.0 <==> weight == 0.0
    ensures Share(total, sum, sum) == total
  {
  }

  lemma {:induction false} SumOfOnes(n: nat)
    ensures Sum(seq(n, _ => 1.0)) == n as real
  {
    if n > 0 {
      assert seq(n, _ => 1.0)[1..] == seq(n - 1, _ => 1.0);
      SumOfOnes(n - 1);
    }
  }

  lemma WeightsArePositive(total: Double, schedule: Schedule)
    requires ScheduleError(total, schedule).None?
    ensures |Weights(schedule)| == schedule.slices > 0 && Sum(Weights(schedule)) > 0.0
    ensures forall i | 0 <= i < |Weights(schedule)| :: Weights(schedule)[i] >= 0.0
  {
    SumOfOnes(schedule.slices);
    hide Sum;
  }

  /** The sizes of an admissible schedule. */
  function Children(total: real, schedule: Schedule): (sizes: seq<real>)
    requires ScheduleError(Num(total), schedule).None?
    ensures |sizes| == schedule.slices
  {
    WeightsArePositive(Num(total), schedule);
    SizesCount(total, schedule);
    SliceSizes(total, schedule)
  }

  /** The slices are the parent's shares, the last one included, and lose nothing of it. */
  lemma {:induction false} SizesAreShares(total: real, schedule: Schedule)
    requires ScheduleError(Num(total), schedule).None? && Sum(Weights(schedule)) > 0.0
    ensures var sizes := SliceSizes(total, schedule); var weights := Weights(schedule);
            Sum(sizes) == total && |weights| == |sizes|
            && forall i | 0 <= i < |sizes| ::
                 sizes[i] == Share(total, weights[i], Sum(weights)) >= 0.0 && (sizes[i] == 0.0 <==> weights[i] == 0.0)
  {
    WeightsArePositive(Num(total), schedule);
    var weights := Weights(schedule);
    var n, sum := |weights| - 1, Sum(weights);
    var early := Shares(total, weights[..n], sum);
    SharesAt(total, weights[..n], sum);
    assert weights == weights[..n] + [weights[n]];
    SumOfConcat(weights[..n], [weights[n]]);
    SumOfConcat(early, [total - Sum(early)]);
    ShareAdds(total, Sum(weights[..n]), weights[n], sum);
    forall i | 0 <= i < |weights|
      ensures Share(total, weights[i], sum) >= 0.0 && (Share(total, weights[i], sum) == 0.0 <==> weights[i] == 0.0)
    {
      ShareIsFair(total, weights[i], sum);
    }
    ShareIsFair(total, weights[n], sum);
    hide Share, Shares, Weights;
    assert Sum([weights[n]]) == weights[n] && Sum([total - Sum(early)]) == total - Sum(early);
  }

  // ---------------------------------------------------------------- slice by slice

  /** The replayer after some slices, how much of the stream it has seen, and the fills so far. */
  datatype Progress = Progress(replayer: Replayer, cursor: nat, fills: seq<Fill>)

  /** Where a replay from `cursor` stops: at the first row later than `time`. */
  function Reach(updates: seq<BookUpdate>, cursor: nat, time: int): (k: nat)
    requires cursor <= |updates|
    ensures cursor <= k <= |updates|
    ensures k < |updates| ==> updates[k].timestamp > time
    decreases |updates| - cursor
  {
    if cursor < |updates| && updates[cursor].timestamp <= time then Reach(updates, cursor + 1, time) else cursor
  }

  function SliceStep(p: Progress, updates: seq<BookUpdate>, side: OrderSide, size: real, time: int)
    : (r: Result<Progress, ReplayError>)
    requires p.cursor <= |updates|
    ensures r.Ok? ==> r.value.cursor == Reach(updates, p.cursor, time)
  {
    var k := Reach(updates, p.cursor, time);
    Consumed(Replay(p.replayer, updates[p.cursor..k]), k, p.fills, side, size)
  }

  /** The book consumed by a slice, unless the slice is empty or the replay before it failed. */
  function Consumed(replayed: Replayed, k: nat, fills: seq<Fill>, side: OrderSide, size: real)
    : (r: Result<Progress, ReplayError>)
    ensures r.Ok? ==> r.value.cursor == k
  {
    if replayed.error.Some? then Err(replayed.error.value)
    else if size <= 0.0 then Ok(Progress(replayed.state, k, fills))
    else
      var book := replayed.state.book;
      Ok(Progress(replayed.state.(book := AfterOrder(book, side, size)), k, fills + [WalkFill(book, side, size)]))
  }

  /** The first `i` slices. */
  function Slices(initial: Replayer, updates: seq<BookUpdate>, side: OrderSide, sizes: seq<real>, schedule: Schedule,
                  i: nat)
    : (r: Result<Progress, ReplayError>)
    requires i <= |sizes| && schedule.slices > 0
    ensures r.Ok? ==> r.value.cursor <= |updates|
  {
    if i == 0 then Ok(Progress(initial, 0, []))
    else
      match Slices(initial, updates, side, sizes, schedule, i - 1)
      case Err(error) => Err(error)
      case Ok(p) => SliceStep(p, updates, side, sizes[i - 1], SliceTime(schedule, i - 1))
  }

  function TotalFilled(fills: seq<Fill>): real {
    if fills == [] then 0.0 else TotalFilled(fills[..|fills| - 1]) + fills[|fills| - 1].filled
  }

  function TotalNotional(fills: seq<Fill>): real {
    if fills == [] then 0.0 else TotalNotional(fills[..|fills| - 1]) + fills[|fills| - 1].notional
  }

  function TotalLevels(fills: seq<Fill>): nat {
    if fills == [] then 0 else TotalLevels(fills[..|fills| - 1]) + fills[|fills| - 1].levelsConsumed
  }

  function CountIf(fills: seq<Fill>, p: Fill -> bool): nat {
    if fills == [] then 0 else CountIf(fills[..|fills| - 1], p) + if p(fills[|fills| - 1]) then 1 else 0
  }

  predicate Exhausted(fill: Fill) {
    fill.exhausted
  }

  predicate BeyondDepth(fill: Fill) {
    fill.beyondValidatedDepth
  }

  predicate Crossed(fill: Fill) {
    fill.crossedAtEntry
  }

  predicate IsWorse(side: OrderSide, a: real, b: real) {
    if side.Buy? then a > b else a < b
  }

  /** The worst price over the slices that had one. */
  function WorstOf(side: OrderSide, fills: seq<Fill>): Option<real> {
    if fills == [] then None
    else
      var before, last := WorstOf(side, fills[..|fills| - 1]), fills[|fills| - 1].worst;
      if last.Some? && (before.None? || IsWorse(side, last.value, before.value)) then last else before
  }

  function Parent(side: OrderSide, total: real, fills: seq<Fill>): Fill {
    var filled, notional := TotalFilled(fills), TotalNotional(fills);
    var average := Average(filled, notional);
    var mid := if fills == [] then Some(0.0) else fills[0].mid;
    var touch := if fills == [] then Some(0.0) else fills[0].touch;
    Fill(total, filled, notional, average, if filled > 0.0 then WorstOf(side, fills) else None, mid, touch,
         SlippageBps(side, average, mid), SlippageBps(side, average, touch), TotalLevels(fills),
         CountIf(fills, Exhausted) > 0, CountIf(fills, BeyondDepth) > 0,
         fills != [] && fills[0].crossedAtEntry)
  }

  function Finish(side: OrderSide, total: real, fills: seq<Fill>): SlicedFill {
    var exhausted := CountIf(fills, Exhausted);
    SlicedFill(Parent(side, total, fills), fills, exhausted, CountIf(fills, BeyondDepth),
               CountIf(fills, Crossed), exhausted == 0)
  }

  /** The fills of every slice, for a schedule already checked. */
  function AllFills(initial: Replayer, updates: seq<BookUpdate>, side: OrderSide, total: real, schedule: Schedule)
    : Result<seq<Fill>, ReplayError>
    requires ScheduleError(Num(total), schedule).None?
  {
    WeightsArePositive(Num(total), schedule);
    SizesCount(total, schedule);
    match Slices(initial, updates, side, SliceSizes(total, schedule), schedule, schedule.slices)
    case Err(error) => Err(error)
    case Ok(p) => Ok(p.fills)
  }

  function Simulate(initial: Replayer, updates: seq<BookUpdate>, side: OrderSide, total: Double, schedule: Schedule)
    : Result<SlicedFill, SlicedError>
  {
    match ScheduleError(total, schedule)
    case Some(error) => Err(error)
    case None =>
      if initial.stats.applied > 0 && initial.stats.lastTimestamp > schedule.start then Err(StateTooLate)
      else
        match AllFills(initial, updates, side, total.value, schedule)
        case Err(error) => Err(ReplayFailed(error))
        case Ok(fills) => Ok(Finish(side, total.value, fills))
  }

  // ---------------------------------------------------------------- no look-ahead

  lemma SliceTimesGrow(schedule: Schedule, i: nat, j: nat)
    requires schedule.slices > 0 && schedule.duration >= 0 && i <= j
    ensures schedule.start <= SliceTime(schedule, i) <= SliceTime(schedule, j)
  {
    var a, b, n := schedule.duration * i, schedule.duration * j, schedule.slices;
    assert a <= b by { assert b - a == schedule.duration * (j - i); }
    WholeQuotientGrows(a, b, n);
    WholeQuotientGrows(0, a, n);
  }

  lemma WholeQuotientGrows(a: int, b: int, n: nat)
    requires n > 0 && 0 <= a <= b
    ensures 0 <= a / n <= b / n
  {
    assert n * (a / n) <= a <= b < n * (b / n) + n;
    MultiplesStep(n, a / n, b / n);
  }

  lemma MultiplesStep(n: nat, x: int, y: int)
    ensures x > y ==> n * x >= n * y + n
  {
    assert n * x - n * y - n == n * (x - y - 1);
  }

  lemma {:induction false} ReachIgnoresLater(updates: seq<BookUpdate>, m: nat, cursor: nat, time: int)
    requires cursor <= m <= |updates| && (m < |updates| ==> updates[m].timestamp > time)
    ensures Reach(updates, cursor, time) == Reach(updates[..m], cursor, time) <= m
    decreases m - cursor
  {
    if cursor < m && updates[cursor].timestamp <= time {
      ReachIgnoresLater(updates, m, cursor + 1, time);
    }
  }

  /** Cutting the stream at a row later than the last slice's time changes nothing. */
  lemma {:induction false} CutIsInvisible(initial: Replayer, updates: seq<BookUpdate>, m: nat, side: OrderSide,
                                          sizes: seq<real>, schedule: Schedule, i: nat)
    requires i <= |sizes| && schedule.slices > 0 && schedule.duration >= 0 && m <= |updates|
    requires i > 0 && m < |updates| ==> updates[m].timestamp > SliceTime(schedule, i - 1)
    ensures Slices(initial, updates[..m], side, sizes, schedule, i) == Slices(initial, updates, side, sizes, schedule, i)
  {
    hide SliceStep, SliceTime;
    if i > 0 {
      if i > 1 { SliceTimesGrow(schedule, i - 2, i - 1); }
      CutIsInvisible(initial, updates, m, side, sizes, schedule, i - 1);
      var before := Slices(initial, updates, side, sizes, schedule, i - 1);
      if before.Ok? {
        assert before.value.cursor <= |updates[..m]|;
        StepIgnoresLater(before.value, updates, m, side, sizes[i - 1], SliceTime(schedule, i - 1));
      }
    }
  }

  lemma StepIgnoresLater(p: Progress, updates: seq<BookUpdate>, m: nat, side: OrderSide, size: real, time: int)
    requires p.cursor <= m <= |updates| && (m < |updates| ==> updates[m].timestamp > time)
    ensures SliceStep(p, updates[..m], side, size, time) == SliceStep(p, updates, side, size, time)
  {
    hide Replay, WalkFill, AfterOrder, Reach;
    ReachIgnoresLater(updates, m, p.cursor, time);
    assert updates[..m][p.cursor..Reach(updates, p.cursor, time)] == updates[p.cursor..Reach(updates, p.cursor, time)];
  }

  /** The fills up to slice i depend only on the rows up to that slice's time. */
  lemma {:induction false} NoLookAhead(initial: Replayer, u: seq<BookUpdate>, v: seq<BookUpdate>, m: nat,
                                       side: OrderSide, sizes: seq<real>, schedule: Schedule, i: nat)
    requires i < |sizes| && schedule.slices > 0 && schedule.duration >= 0
    requires m <= |u| && m <= |v| && u[..m] == v[..m]
    requires m < |u| ==> u[m].timestamp > SliceTime(schedule, i)
    requires m < |v| ==> v[m].timestamp > SliceTime(schedule, i)
    ensures Slices(initial, u, side, sizes, schedule, i + 1) == Slices(initial, v, side, sizes, schedule, i + 1)
  {
    CutIsInvisible(initial, u, m, side, sizes, schedule, i + 1);
    CutIsInvisible(initial, v, m, side, sizes, schedule, i + 1);
  }

  lemma {:induction false} FillsOnlyGrow(initial: Replayer, updates: seq<BookUpdate>, side: OrderSide, sizes: seq<real>,
                                         schedule: Schedule, i: nat, j: nat)
    requires i <= j <= |sizes| && schedule.slices > 0
    requires Slices(initial, updates, side, sizes, schedule, j).Ok?
    ensures Slices(initial, updates, side, sizes, schedule, i).Ok?
    ensures Slices(initial, updates, side, sizes, schedule, i).value.fills
         <= Slices(initial, updates, side, sizes, schedule, j).value.fills
    decreases j
  {
    hide Replay, WalkFill, AfterOrder, SliceTime, Reach;
    if i < j {
      FillsOnlyGrow(initial, updates, side, sizes, schedule, i, j - 1);
    }
  }

  // ---------------------------------------------------------------- checkpoints

  function Shift(r: Result<Progress, ReplayError>, n: nat): Result<Progress, ReplayError> {
    match r
    case Err(error) => Err(error)
    case Ok(p) => Ok(Progress(p.replayer, p.cursor + n, p.fills))
  }

  lemma {:induction false} ReachThroughPrefix(prefix: seq<BookUpdate>, future: seq<BookUpdate>, cursor: nat, time: int)
    requires cursor <= |prefix| && forall j | 0 <= j < |prefix| :: prefix[j].timestamp <= time
    ensures Reach(prefix + future, cursor, time) == Reach(prefix + future, |prefix|, time)
    decreases |prefix| - cursor
  {
    if cursor < |prefix| {
      assert (prefix + future)[cursor] == prefix[cursor];
      ReachThroughPrefix(prefix, future, cursor + 1, time);
    }
  }

  lemma {:induction false} ReachShifts(prefix: seq<BookUpdate>, future: seq<BookUpdate>, cursor: nat, time: int)
    requires cursor <= |future|
    ensures Reach(prefix + future, |prefix| + cursor, time) == |prefix| + Reach(future, cursor, time)
    decreases |future| - cursor
  {
    if cursor < |future| && future[cursor].timestamp <= time {
      ReachShifts(prefix, future, cursor + 1, time);
    }
  }

  lemma StepShifts(p: Progress, prefix: seq<BookUpdate>, future: seq<BookUpdate>, side: OrderSide, size: real,
                   time: int)
    requires p.cursor <= |future|
    ensures SliceStep(p.(cursor := p.cursor + |prefix|), prefix + future, side, size, time)
         == Shift(SliceStep(p, future, side, size, time), |prefix|)
  {
    hide Replay, WalkFill, AfterOrder, Reach;
    var n, c := |prefix|, p.cursor;
    ReachShifts(prefix, future, c, time);
    assert (prefix + future)[n + c..n + Reach(future, c, time)] == future[c..Reach(future, c, time)];
  }

  lemma StepAbsorbsPrefix(origin: Replayer, prefix: seq<BookUpdate>, future: seq<BookUpdate>, side: OrderSide,
                          size: real, time: int)
    requires Replay(origin, prefix).error.None?
    requires forall j | 0 <= j < |prefix| :: prefix[j].timestamp <= time
    ensures SliceStep(Progress(origin, 0, []), prefix + future, side, size, time)
         == Shift(SliceStep(Progress(Replay(origin, prefix).state, 0, []), future, side, size, time), |prefix|)
  {
    hide Replay, Consumed, Reach;
    ReachThroughPrefix(prefix, future, 0, time);
    ReachShifts(prefix, future, 0, time);
    var k := Reach(future, 0, time);
    assert (prefix + future)[0..|prefix| + k] == prefix + future[0..k];
    ReplayComposes(origin, prefix, future[0..k]);
    ConsumedShifts(Replay(Replay(origin, prefix).state, future[0..k]), |prefix|, k, [], side, size);
  }

  lemma ConsumedShifts(r: Replayed, n: nat, k: nat, fills: seq<Fill>, side: OrderSide, size: real)
    ensures Consumed(Replayed(r.state, n + r.consumed, r.error), n + k, fills, side, size)
         == Shift(Consumed(r, k, fills, side, size), n)
  {
    hide WalkFill, AfterOrder;
  }

  /** Starting from the replayed state of a prefix that ends by the first slice is the same as
      replaying the whole stream from where the prefix began. */
  lemma {:induction false} CheckpointIsSound(origin: Replayer, prefix: seq<BookUpdate>, future: seq<BookUpdate>,
                                             side: OrderSide, sizes: seq<real>, schedule: Schedule, i: nat)
    requires 0 < i <= |sizes| && schedule.slices > 0 && schedule.duration >= 0
    requires Replay(origin, prefix).error.None?
    requires forall j | 0 <= j < |prefix| :: prefix[j].timestamp <= schedule.start
    ensures Slices(origin, prefix + future, side, sizes, schedule, i)
         == Shift(Slices(Replay(origin, prefix).state, future, side, sizes, schedule, i), |prefix|)
  {
    hide Replay, SliceStep;
    var state := Replay(origin, prefix).state;
    if i == 1 {
      assert SliceTime(schedule, 0) == schedule.start;
      StepAbsorbsPrefix(origin, prefix, future, side, sizes[0], schedule.start);
      assert Slices(origin, prefix + future, side, sizes, schedule, 0) == Ok(Progress(origin, 0, []));
      assert Slices(state, future, side, sizes, schedule, 0) == Ok(Progress(state, 0, []));
    } else {
      CheckpointIsSound(origin, prefix, future, side, sizes, schedule, i - 1);
      var before := Slices(state, future, side, sizes, schedule, i - 1);
      if before.Ok? {
        StepShifts(before.value, prefix, future, side, sizes[i - 1], SliceTime(schedule, i - 1));
      }
    }
  }

  lemma SameFills(prefix: seq<BookUpdate>, future: seq<BookUpdate>, m: nat, side: OrderSide, total: real,
                  schedule: Schedule)
    requires ScheduleError(Num(total), schedule).None?
    requires Replay(FRESH, prefix).error.None? && m <= |future|
    requires forall j | 0 <= j < |prefix| :: prefix[j].timestamp <= schedule.start
    requires m < |future| ==> future[m].timestamp > SliceTime(schedule, schedule.slices - 1)
    ensures AllFills(FRESH, prefix + future, side, total, schedule)
         == AllFills(Replay(FRESH, prefix).state, future[..m], side, total, schedule)
  {
    var state := Replay(FRESH, prefix).state;
    WeightsArePositive(Num(total), schedule);
    SizesCount(total, schedule);
    var sizes := SliceSizes(total, schedule);
    hide Slices, Replay, SliceTime, SliceSizes, Weights;
    CheckpointIsSound(FRESH, prefix, future, side, sizes, schedule, schedule.slices);
    CutIsInvisible(state, future, m, side, sizes, schedule, schedule.slices);
  }

  /** The whole simulation, from scratch on the stream or from a checkpoint with the future cut
      after the last slice, gives the same result, errors included. */
  lemma {:induction false} CheckpointAndCut(prefix: seq<BookUpdate>, future: seq<BookUpdate>, m: nat, side: OrderSide,
                                            total: Double, schedule: Schedule)
    requires Replay(FRESH, prefix).error.None? && m <= |future|
    requires forall j | 0 <= j < |prefix| :: prefix[j].timestamp <= schedule.start
    requires schedule.slices > 0 && m < |future| ==> future[m].timestamp > SliceTime(schedule, schedule.slices - 1)
    ensures Simulate(FRESH, prefix + future, side, total, schedule)
         == Simulate(Replay(FRESH, prefix).state, future[..m], side, total, schedule)
  {
    hide AllFills, Replay, Finish, SliceTime, ScheduleError;
    CheckpointIsEarly(prefix, schedule.start);
    if ScheduleError(total, schedule).None? {
      ValidIsFinite(total, schedule);
      SameFills(prefix, future, m, side, total.value, schedule);
    }
  }

  lemma CheckpointIsEarly(prefix: seq<BookUpdate>, time: int)
    requires Replay(FRESH, prefix).error.None? && forall j | 0 <= j < |prefix| :: prefix[j].timestamp <= time
    ensures Replay(FRESH, prefix).state.stats.applied > 0 ==> Replay(FRESH, prefix).state.stats.lastTimestamp <= time
  {
    if prefix != [] {
      LastRowIsRemembered(FRESH, prefix);
    }
  }

  // ---------------------------------------------------------------- when the slices execute

  /** Slice `i` executes in the last millisecond that is not past its share of the duration. */
  lemma {:induction false} SliceTimeIsItsShare(schedule: Schedule, i: nat)
    requires schedule.slices > 0
    ensures var elapsed := SliceTime(schedule, i) - schedule.start;
            schedule.slices * elapsed <= schedule.duration * i < schedule.slices * (elapsed + 1)
  {
    var total := schedule.duration * i;
    assert total / schedule.slices * schedule.slices + total % schedule.slices == total;
  }

  /** Neighbouring slices are a slice's share of the duration apart, to within a millisecond. */
  lemma {:induction false} SlicesAreSpread(schedule: Schedule, i: nat)
    requires schedule.slices > 0
    ensures var gap := SliceTime(schedule, i + 1) - SliceTime(schedule, i);
            schedule.duration - schedule.slices < schedule.slices * gap < schedule.duration + schedule.slices
  {
    SliceTimeIsItsShare(schedule, i);
    SliceTimeIsItsShare(schedule, i + 1);
    assert schedule.duration * (i + 1) == schedule.duration * i + schedule.duration;
    hide SliceTime;
  }

  /** The row is no later than slice `i`, its share of the duration into the schedule. */
  predicate DueBy(u: BookUpdate, schedule: Schedule, i: nat) {
    schedule.slices * (u.timestamp - schedule.start) <= schedule.duration * i
  }

  lemma DueIsByItsTime(u: BookUpdate, schedule: Schedule, i: nat)
    requires schedule.slices > 0
    ensures DueBy(u, schedule, i) <==> u.timestamp <= SliceTime(schedule, i)
  {
    SliceTimeIsItsShare(schedule, i);
    var x, y := u.timestamp - schedule.start, SliceTime(schedule, i) - schedule.start;
    MultiplesStep(schedule.slices, x, y);
    assert x <= y ==> schedule.slices * (y - x) >= 0;
    hide SliceTime;
  }

  /** What slice `i` does: the rows due by then and not yet replayed, up to the first that is not
      due, go into the book the earlier slices left; the slice, if it is of anything, walks that
      book and takes what it fills out of it. */
  ghost predicate Executes(p: Progress, q: Progress, updates: seq<BookUpdate>, side: OrderSide, size: real,
                           schedule: Schedule, i: nat)
  {
    && p.cursor <= q.cursor <= |updates|
    && (forall j | p.cursor <= j < q.cursor :: DueBy(updates[j], schedule, i))
    && (q.cursor < |updates| ==> !DueBy(updates[q.cursor], schedule, i))
    && var replayed := Replay(p.replayer, updates[p.cursor..q.cursor]);
       && replayed.error.None?
       && if size > 0.0
          then && q.fills == p.fills + [WalkFill(replayed.state.book, side, size)]
               && q.replayer == replayed.state.(book := AfterOrder(replayed.state.book, side, size))
          else q.fills == p.fills && q.replayer == replayed.state
  }

  /** The schedule as it happens, from the initial state with nothing replayed or filled. */
  ghost predicate IsTimeline(states: seq<Progress>, initial: Replayer, updates: seq<BookUpdate>, side: OrderSide,
                             sizes: seq<real>, schedule: Schedule)
  {
    && |states| == |sizes| + 1 && states[0] == Progress(initial, 0, [])
    && forall i | 0 <= i < |sizes| :: Executes(states[i], states[i + 1], updates, side, sizes[i], schedule, i)
  }

  lemma {:induction false} ReachIsDue(updates: seq<BookUpdate>, cursor: nat, schedule: Schedule, i: nat)
    requires cursor <= |updates| && schedule.slices > 0
    ensures var k := Reach(updates, cursor, SliceTime(schedule, i));
            && (forall j | cursor <= j < k :: DueBy(updates[j], schedule, i))
            && (k < |updates| ==> !DueBy(updates[k], schedule, i))
    decreases |updates| - cursor
  {
    hide DueBy, SliceTime;
    if cursor < |updates| {
      DueIsByItsTime(updates[cursor], schedule, i);
      if updates[cursor].timestamp <= SliceTime(schedule, i) {
        ReachIsDue(updates, cursor + 1, schedule, i);
      }
    }
  }

  lemma SliceExecutes(initial: Replayer, updates: seq<BookUpdate>, side: OrderSide, sizes: seq<real>, schedule: Schedule,
                      i: nat)
    requires i < |sizes| && schedule.slices > 0 && Slices(initial, updates, side, sizes, schedule, i + 1).Ok?
    ensures Slices(initial, updates, side, sizes, schedule, i).Ok?
    ensures Executes(Slices(initial, updates, side, sizes, schedule, i).value,
                     Slices(initial, updates, side, sizes, schedule, i + 1).value, updates, side, sizes[i], schedule, i)
  {
    hide Replay, Reach, SliceTime, DueBy, WalkFill, AfterOrder;
    ReachIsDue(updates, Slices(initial, updates, side, sizes, schedule, i).value.cursor, schedule, i);
  }

  lemma {:induction false} EarlierSlicesRan(initial: Replayer, updates: seq<BookUpdate>, side: OrderSide, sizes: seq<real>,
                                            schedule: Schedule, i: nat, n: nat)
    requires i <= n <= |sizes| && schedule.slices > 0 && Slices(initial, updates, side, sizes, schedule, n).Ok?
    ensures Slices(initial, updates, side, sizes, schedule, i).Ok?
    decreases n - i
  {
    hide SliceStep;
    if i < n {
      EarlierSlicesRan(initial, updates, side, sizes, schedule, i, n - 1);
    }
  }

  /** A simulation is its timeline: the slices it reports are the fills of a schedule in which each
      slice met exactly the rows due by its share of the duration, less what the earlier ones took. */
  lemma {:induction false} SimulationIsItsTimeline(initial: Replayer, updates: seq<BookUpdate>, side: OrderSide,
                                                   total: real, schedule: Schedule)
    requires ScheduleError(Num(total), schedule).None? && Simulate(initial, updates, side, Num(total), schedule).Ok?
    ensures exists states: seq<Progress> ::
                             && IsTimeline(states, initial, updates, side, Children(total, schedule), schedule)
                             && Simulate(initial, updates, side, Num(total), schedule).value.slices
                                == states[|states| - 1].fills
  {
    hide SliceSizes, Weights, Slices, Executes, Replay, ScheduleError, Parent;
    WeightsArePositive(Num(total), schedule);
    SizesCount(total, schedule);
    var sizes := SliceSizes(total, schedule);
    forall i | 0 <= i <= |sizes| ensures Slices(initial, updates, side, sizes, schedule, i).Ok? {
      EarlierSlicesRan(initial, updates, side, sizes, schedule, i, |sizes|);
    }
    var states := seq(|sizes| + 1, i requires 0 <= i <= |sizes| => Slices(initial, updates, side, sizes, schedule, i).value);
    NoSliceYet(initial, updates, side, sizes, schedule);
    forall i | 0 <= i < |sizes| ensures Executes(states[i], states[i + 1], updates, side, sizes[i], schedule, i) {
      SliceExecutes(initial, updates, side, sizes, schedule, i);
    }
    assert IsTimeline(states, initial, updates, side, sizes, schedule);
  }

  lemma NoSliceYet(initial: Replayer, updates: seq<BookUpdate>, side: OrderSide, sizes: seq<real>, schedule: Schedule)
    requires schedule.slices > 0
    ensures Slices(initial, updates, side, sizes, schedule, 0) == Ok(Progress(initial, 0, []))
  {
  }

  // ---------------------------------------------------------------- what is refused

  /** Replayers no stream can tell apart by what they refuse: only book and counters may differ. */
  predicate SameStanding(a: Replayer, b: Replayer) {
    a.started == b.started && a.previousWasSnapshot == b.previousWasSnapshot
    && a.stats.lastTimestamp == b.stats.lastTimestamp
  }

  lemma RowIgnoresBook(a: Replayer, b: Replayer, u: BookUpdate)
    requires SameStanding(a, b)
    ensures ApplyRow(a, u).error == ApplyRow(b, u).error
    ensures ApplyRow(a, u).error.None? ==> SameStanding(ApplyRow(a, u).state, ApplyRow(b, u).state)
  {
    hide Updated;
  }

  lemma {:induction false} ReplayIgnoresBook(a: Replayer, b: Replayer, rows: seq<BookUpdate>)
    requires SameStanding(a, b)
    ensures Replay(a, rows).error == Replay(b, rows).error
    ensures Replay(a, rows).error.None? ==> SameStanding(Replay(a, rows).state, Replay(b, rows).state)
  {
    hide ApplyRow, SameStanding;
    if rows != [] {
      ReplayIgnoresBook(a, b, rows[..|rows| - 1]);
      if Replay(a, rows[..|rows| - 1]).error.None? {
        RowIgnoresBook(Replay(a, rows[..|rows| - 1]).state, Replay(b, rows[..|rows| - 1]).state, rows[|rows| - 1]);
      }
    }
  }

  /** However much the slices take out of the book, they meet no refusal the stream does not hold. */
  lemma {:induction false} SlicesMeetNoRefusal(initial: Replayer, updates: seq<BookUpdate>, side: OrderSide,
                                               sizes: seq<real>, schedule: Schedule, i: nat)
    requires Replay(initial, updates).error.None? && i <= |sizes| && schedule.slices > 0
    ensures Slices(initial, updates, side, sizes, schedule, i).Ok?
    ensures var p := Slices(initial, updates, side, sizes, schedule, i).value;
            SameStanding(p.replayer, Replay(initial, updates[..p.cursor]).state)
  {
    hide Replay, Reach, AfterOrder, WalkFill, SliceTime;
    if i == 0 {
      NoRows(initial, updates);
    } else {
      SlicesMeetNoRefusal(initial, updates, side, sizes, schedule, i - 1);
      var p := Slices(initial, updates, side, sizes, schedule, i - 1).value;
      var k := Reach(updates, p.cursor, SliceTime(schedule, i - 1));
      ReplayPrefix(initial, updates, p.cursor);
      ReplayPrefix(initial, updates, k);
      assert updates[..k] == updates[..p.cursor] + updates[p.cursor..k];
      ReplayComposes(initial, updates[..p.cursor], updates[p.cursor..k]);
      ReplayIgnoresBook(p.replayer, Replay(initial, updates[..p.cursor]).state, updates[p.cursor..k]);
    }
  }

  /** An accepted stream prices every admissible order. */
  lemma {:induction false} AcceptedStreamIsPriced(updates: seq<BookUpdate>, side: OrderSide, total: Double,
                                                  schedule: Schedule)
    requires Replay(FRESH, updates).error.None?
    ensures Simulate(FRESH, updates, side, total, schedule).Ok? <==> ScheduleError(total, schedule).None?
  {
    hide Replay, Slices, Finish, ScheduleError;
    if ScheduleError(total, schedule).None? {
      ValidIsFinite(total, schedule);
      WeightsArePositive(total, schedule);
      SizesCount(total.value, schedule);
      SlicesMeetNoRefusal(FRESH, updates, side, SliceSizes(total.value, schedule), schedule, schedule.slices);
    }
    hide SliceSizes;
  }

  // ---------------------------------------------------------------- the source's loops

  /** Child sizes: the weight sum, every share but the last, and the remainder. */
  method SliceQuantities(total: real, schedule: Schedule) returns (sizes: seq<real>)
    requires ScheduleError(Num(total), schedule).None? && Sum(Weights(schedule)) > 0.0
    ensures sizes == SliceSizes(total, schedule)
  {
    WeightsArePositive(Num(total), schedule);
    var weights := Weights(schedule);
    var n := |weights|;
    var weightSum := 0.0;
    for i := 0 to n
      invariant weightSum + Sum(weights[i..]) == Sum(weights)
    {
      assert weights[i..][1..] == weights[i + 1..];
      weightSum := weightSum + weights[i];
    }
    sizes := [];
    var allotted := 0.0;
    ghost var early := Shares(total, weights[..n - 1], weightSum);
    SharesAt(total, weights[..n - 1], weightSum);
    hide Shares, Weights, ScheduleError;
    for i := 0 to n - 1
      invariant sizes == early[..i] && allotted == Sum(early[..i])
    {
      assert early[..i + 1] == early[..i] + [early[i]];
      SumOfConcat(early[..i], [early[i]]);
      var size := Share(total, weights[i], weightSum);
      sizes := sizes + [size];
      allotted := allotted + size;
    }
    assert early[..n - 1] == early;
    sizes := sizes + [total - allotted];
  }

  /** Advance the replayer to everything at or before `time`, and nothing after it. */
  method AdvanceTo(replayer: LiveReplayer, updates: seq<BookUpdate>, start: nat, time: int)
    returns (cursor: nat, error: Option<ReplayError>)
    requires start <= |updates| && Consistent(replayer.View())
    modifies replayer, replayer.book
    ensures var replayed := Replay(old(replayer.View()), updates[start..Reach(updates, start, time)]);
            error == replayed.error && replayer.View() == replayed.state
    ensures error.None? ==> cursor == Reach(updates, start, time)
    ensures Consistent(replayer.View())
  {
    hide ApplyRow, Replay, Consistent, Reach;
    cursor, error := start, None;
    ghost var stop := Reach(updates, start, time);
    ghost var rows := updates[start..stop];
    NoRows(replayer.View(), rows);
    ReachStep(updates, cursor, time);
    while cursor < |updates| && updates[cursor].timestamp <= time
      invariant error.None? && start <= cursor <= stop && Reach(updates, cursor, time) == stop
      invariant Replay(old(replayer.View()), rows[..cursor - start]) == Replayed(replayer.View(), cursor - start, None)
      invariant Consistent(replayer.View())
      decreases |updates| - cursor
    {
      ReachStep(updates, cursor, time);
      OneMoreRow(old(replayer.View()), rows, cursor - start, replayer.View());
      error := replayer.Apply(updates[cursor]);
      if error.Some? {
        return;
      }
      cursor := cursor + 1;
    }
    ReachStep(updates, cursor, time);
    assert rows[..cursor - start] == rows;
  }

  lemma ReachStep(updates: seq<BookUpdate>, cursor: nat, time: int)
    requires cursor <= |updates|
    ensures cursor < |updates| && updates[cursor].timestamp <= time
            ==> Reach(updates, cursor, time) == Reach(updates, cursor + 1, time) > cursor
    ensures !(cursor < |updates| && updates[cursor].timestamp <= time) ==> Reach(updates, cursor, time) == cursor
  {
  }

  /** One pass of the slice loop: replay up to the slice's time, then consume the book, unless the
      slice is empty. */
  method ExecuteSlice(replayer: LiveReplayer, updates: seq<BookUpdate>, p: Progress, side: OrderSide, size: real,
                      time: int)
    returns (r: Result<Progress, ReplayError>)
    requires p.cursor <= |updates| && Consistent(replayer.View()) && replayer.View() == p.replayer
    modifies replayer, replayer.book
    ensures r == SliceStep(p, updates, side, size, time)
    ensures Consistent(replayer.View()) && (r.Ok? ==> replayer.View() == r.value.replayer)
  {
    hide Replay, WalkFill, AfterOrder, Reach, WellFormed;
    var cursor, failed := AdvanceTo(replayer, updates, p.cursor, time);
    if failed.Some? {
      return Err(failed.value);
    }
    var fills := p.fills;
    if size > 0.0 {
      OrderKeepsConsistent(replayer.View(), side, size);
      var fill := ExecuteMarketOrder(replayer.book, side, Num(size));
      fills := fills + [fill.value];
    }
    r := Ok(Progress(replayer.View(), cursor, fills));
  }

  lemma OrderKeepsConsistent(state: Replayer, side: OrderSide, size: real)
    requires Consistent(state) && size >= 0.0
    ensures Consistent(state.(book := AfterOrder(state.book, side, size)))
  {
    DepletedIsWellFormed(ConsumedSide(side), state.book.Levels(ConsumedSide(side)), size);
    hide WellFormed;
  }

  lemma ValidIsFinite(total: Double, schedule: Schedule)
    requires ScheduleError(total, schedule).None?
    ensures total.Num? && schedule.slices > 0
  {
  }

  /** The source's simulation: a copied replayer advanced slice by slice, executing as it goes. */
  method SimulateFromState(initial: Replayer, updates: seq<BookUpdate>, side: OrderSide, total: Double,
                           schedule: Schedule)
    returns (r: Result<SlicedFill, SlicedError>)
    requires Consistent(initial)
    ensures r == Simulate(initial, updates, side, total, schedule)
    ensures r.Ok? ==>
              && total.Num? && ScheduleError(total, schedule).None?
              && exists states: seq<Progress> ::
                   && IsTimeline(states, initial, updates, side, Children(total.value, schedule), schedule)
                   && r.value.slices == states[|states| - 1].fills
  {
    hide ScheduleError, Weights, SliceSizes, SliceTime, SliceStep, Finish, Consistent;
    var invalid := ScheduleError(total, schedule);
    if invalid.Some? {
      return Err(invalid.value);
    }
    if initial.stats.applied > 0 && initial.stats.lastTimestamp > schedule.start {
      return Err(StateTooLate);
    }
    ValidIsFinite(total, schedule);
    WeightsArePositive(total, schedule);
    SizesCount(total.value, schedule);
    var sizes := SliceQuantities(total.value, schedule);
    var replayer := new LiveReplayer.Copy(initial);
    var p := Progress(initial, 0, []);
    for i := 0 to schedule.slices
      invariant fresh(replayer) && fresh(replayer.book)
      invariant p.cursor <= |updates| && Consistent(replayer.View()) && replayer.View() == p.replayer
      invariant Slices(initial, updates, side, sizes, schedule, i) == Ok(p)
    {
      var step := ExecuteSlice(replayer, updates, p, side, sizes[i], SliceTime(schedule, i));
      if step.Err? {
        SlicesStopAtError(initial, updates, side, sizes, schedule, i + 1);
        return Err(ReplayFailed(step.error));
      }
      p := step.value;
    }
    r := Ok(Finish(side, total.value, p.fills));
    SimulationIsItsTimeline(initial, updates, side, total.value, schedule);
  }

  lemma {:induction false} SlicesStopAtError(initial: Replayer, updates: seq<BookUpdate>, side: OrderSide,
                                             sizes: seq<real>, schedule: Schedule, i: nat)
    requires i <= |sizes| && schedule.slices > 0 && Slices(initial, updates, side, sizes, schedule, i).Err?
    ensures Slices(initial, updates, side, sizes, schedule, |sizes|) == Slices(initial, updates, side, sizes, schedule, i)
    decreases |sizes| - i
  {
    hide SliceStep, SliceTime;
    if i < |sizes| {
      SlicesStopAtError(initial, updates, side, sizes, schedule, i + 1);
    }
  }
}
