/** Slicing an order over zero duration costs exactly what the unsliced order costs. */
module SplitInvariance {
  import opened Wrappers
  import opened OrderBook
  import opened Reals
  import opened BookReplayer
  import opened ImpactSimulator
  import opened SlicedExecution

  /** Slices executed one after the other on the book itself. */
  function FillsAtOnce(book: Book, side: OrderSide, sizes: seq<real>): seq<Fill> {
    if sizes == [] then []
    else
      var init, size := sizes[..|sizes| - 1], sizes[|sizes| - 1];
      if size <= 0.0 then FillsAtOnce(book, side, init)
      else FillsAtOnce(book, side, init) + [WalkFill(AfterOrder(book, side, Sum(init)), side, size)]
  }

  ghost predicate AllNonNegative(sizes: seq<real>) {
    forall i | 0 <= i < |sizes| :: sizes[i] >= 0.0
  }

  lemma {:induction false} SumNonNegative(sizes: seq<real>)
    requires AllNonNegative(sizes)
    ensures Sum(sizes) >= 0.0
  {
    if sizes != [] {
      assert AllNonNegative(sizes[1..]);
      SumNonNegative(sizes[1..]);
    }
  }

  lemma SumSnoc(sizes: seq<real>)
    requires sizes != []
    ensures Sum(sizes) == Sum(sizes[..|sizes| - 1]) + sizes[|sizes| - 1]
  {
    var n := |sizes| - 1;
    assert sizes == sizes[..n] + [sizes[n]];
    SumOfConcat(sizes[..n], [sizes[n]]);
    assert Sum([sizes[n]]) == sizes[n];
  }

  /** Executing nothing, or one more slice, on the already depleted book. */
  lemma OrdersAccumulate(book: Book, side: OrderSide, a: real, b: real)
    requires book.Valid() && a >= 0.0 && b >= 0.0
    ensures AfterOrder(book, side, 0.0) == book
    ensures AfterOrder(AfterOrder(book, side, a), side, b) == AfterOrder(book, side, a + b)
    ensures AfterOrder(book, side, a).Valid()
  {
    var levels := book.Levels(ConsumedSide(side));
    SplitIsOneOrder(levels, a, b);
    DepletedIsWellFormed(ConsumedSide(side), levels, a);
    hide Depleted, WellFormed;
    assert Depleted(levels, 0.0) == levels by { NothingDepletes(levels); }
  }

  lemma NothingDepletes(levels: seq<Level>)
    ensures Depleted(levels, 0.0) == levels && Filled(levels, 0.0) == 0.0 && Notional(levels, 0.0) == 0.0
    ensures Touched(levels, 0.0) == 0 && Worst(levels, 0.0) == None
  {
  }

  // ---------------------------------------------------------------- the slices see one book

  /** Where the slices leave off when all of them see the one replayed state. */
  function AtOnce(replayed: Replayed, k: nat, side: OrderSide, sizes: seq<real>): Result<Progress, ReplayError> {
    match replayed.error
    case Some(error) => Err(error)
    case None =>
      var book := replayed.state.book;
      Ok(Progress(replayed.state.(book := AfterOrder(book, side, Sum(sizes))), k, FillsAtOnce(book, side, sizes)))
  }

  /** With zero duration the first slice advances the replay and the others find nothing new. */
  lemma {:induction false} ZeroDurationIsAtOnce(initial: Replayer, updates: seq<BookUpdate>, side: OrderSide,
                                                sizes: seq<real>, schedule: Schedule, i: nat)
    requires 0 < i <= |sizes| && schedule.slices > 0 && schedule.duration == 0 && AllNonNegative(sizes)
    requires Consistent(initial)
    ensures var k := Reach(updates, 0, schedule.start);
            Slices(initial, updates, side, sizes, schedule, i)
            == AtOnce(Replay(initial, updates[..k]), k, side, sizes[..i])
  {
    hide Slices, AtOnce, SliceStep, Replay, Reach, Consistent;
    var k := Reach(updates, 0, schedule.start);
    assert AllNonNegative(sizes[..i]) && sizes[..i][..i - 1] == sizes[..i - 1];
    ReplayConsistent(initial, updates[..k]);
    ConsistentIsValid(Replay(initial, updates[..k]).state);
    StepAtStart(initial, updates, side, sizes, schedule, i);
    if i == 1 {
      FirstSliceAtOnce(initial, updates, side, sizes[..1], schedule.start);
    } else {
      ZeroDurationIsAtOnce(initial, updates, side, sizes, schedule, i - 1);
      LaterSliceAtOnce(Replay(initial, updates[..k]), updates, k, side, sizes[..i], schedule.start);
    }
  }

  lemma ConsistentIsValid(state: Replayer)
    requires Consistent(state)
    ensures state.book.Valid()
  {
  }

  lemma StepAtStart(initial: Replayer, updates: seq<BookUpdate>, side: OrderSide, sizes: seq<real>, schedule: Schedule,
                    i: nat)
    requires 0 < i <= |sizes| && schedule.slices > 0 && schedule.duration == 0
    ensures Slices(initial, updates, side, sizes, schedule, 0) == Ok(Progress(initial, 0, []))
    ensures var before := Slices(initial, updates, side, sizes, schedule, i - 1);
            Slices(initial, updates, side, sizes, schedule, i)
            == if before.Ok? then SliceStep(before.value, updates, side, sizes[i - 1], schedule.start) else before
  {
    ZeroDurationTime(schedule, i - 1);
    hide SliceStep, SliceTime;
  }

  lemma ZeroDurationTime(schedule: Schedule, i: nat)
    requires schedule.slices > 0 && schedule.duration == 0
    ensures SliceTime(schedule, i) == schedule.start
  {
  }

  lemma FirstSliceAtOnce(initial: Replayer, updates: seq<BookUpdate>, side: OrderSide, sizes: seq<real>, time: int)
    requires Consistent(initial) && |sizes| == 1 && sizes[0] >= 0.0
    ensures var k := Reach(updates, 0, time);
            SliceStep(Progress(initial, 0, []), updates, side, sizes[0], time)
            == AtOnce(Replay(initial, updates[..k]), k, side, sizes)
  {
    var k := Reach(updates, 0, time);
    var book := Replay(initial, updates[..k]).state.book;
    ReplayConsistent(initial, updates[..k]);
    assert updates[0..k] == updates[..k];
    OrdersAccumulate(book, side, 0.0, sizes[0]);
    assert Sum(sizes) == sizes[0] && Sum(sizes[..0]) == 0.0;
    var none: seq<Fill> := [];
    assert FillsAtOnce(book, side, sizes[..0]) == none;
    hide Replay, Reach, WalkFill, AfterOrder, Sum;
    assert none + [WalkFill(book, side, sizes[0])] == [WalkFill(book, side, sizes[0])];
  }

  lemma LaterSliceAtOnce(replayed: Replayed, updates: seq<BookUpdate>, k: nat, side: OrderSide, sizes: seq<real>,
                         time: int)
    requires replayed.state.book.Valid() && sizes != [] && AllNonNegative(sizes)
    requires k <= |updates| && (k < |updates| ==> updates[k].timestamp > time)
    ensures var n := |sizes| - 1; var before := AtOnce(replayed, k, side, sizes[..n]);
            AtOnce(replayed, k, side, sizes)
            == if before.Ok? then SliceStep(before.value, updates, side, sizes[n], time) else before
  {
    hide Reach, WalkFill, AfterOrder, Replay, Sum, Book.Valid;
    var n := |sizes| - 1;
    var book := replayed.state.book;
    assert AllNonNegative(sizes[..n]);
    SumNonNegative(sizes[..n]);
    SumSnoc(sizes);
    OrdersAccumulate(book, side, Sum(sizes[..n]), sizes[n]);
    ReachStep(updates, k, time);
    if replayed.error.None? {
      var before := AtOnce(replayed, k, side, sizes[..n]).value;
      NoRows(before.replayer, updates[k..k]);
      assert updates[k..k][..0] == updates[k..k];
    }
  }

  // ---------------------------------------------------------------- the parent is the one order

  /** Everything past the levels a walk has eaten is at least as bad as the worst it paid. */
  lemma {:induction false} DepletedBeyondWorst(side: OrderSide, levels: seq<Level>, a: real)
    requires WellFormed(ConsumedSide(side), levels) && a >= 0.0 && Worst(levels, a).Some?
    ensures forall i | 0 <= i < |Depleted(levels, a)| ::
              Signed(side, Worst(levels, a).value) <= Signed(side, Depleted(levels, a)[i].price)
  {
    TailIsWorse(side, levels);
    var tail, first := levels[1..], levels[0];
    NothingDepletes(tail);
    if a < first.quantity {
      assert Depleted(levels, a)[1..] == tail;
      forall i | 0 <= i < |Depleted(levels, a)|
        ensures Signed(side, Worst(levels, a).value) <= Signed(side, Depleted(levels, a)[i].price)
      {
        assert i > 0 ==> Depleted(levels, a)[i] == tail[i - 1];
      }
    } else if Worst(tail, a - first.quantity).Some? {
      DepletedBeyondWorst(side, tail, a - first.quantity);
    } else {
      NothingWorse(tail, a - first.quantity);
    }
  }

  lemma NothingWorse(levels: seq<Level>, a: real)
    requires Worst(levels, a).None?
    ensures Depleted(levels, a) == levels
  {
  }

  lemma {:induction false} WorstIsALevel(levels: seq<Level>, b: real)
    requires Worst(levels, b).Some?
    ensures exists i | 0 <= i < |levels| :: levels[i].price == Worst(levels, b).value
  {
    var later := Worst(levels[1..], b - Min(b, levels[0].quantity));
    if later.Some? {
      WorstIsALevel(levels[1..], b - Min(b, levels[0].quantity));
      var i :| 0 <= i < |levels[1..]| && levels[1..][i].price == later.value;
      assert levels[i + 1].price == later.value;
    } else {
      assert levels[0].price == Worst(levels, b).value;
    }
  }

  lemma {:induction false} LaterSliceIsWorse(side: OrderSide, levels: seq<Level>, a: real, b: real)
    requires WellFormed(ConsumedSide(side), levels) && a >= 0.0 && b >= 0.0
    requires Worst(levels, a).Some? && Worst(Depleted(levels, a), b).Some?
    ensures Signed(side, Worst(levels, a).value) <= Signed(side, Worst(Depleted(levels, a), b).value)
  {
    DepletedBeyondWorst(side, levels, a);
    WorstIsALevel(Depleted(levels, a), b);
  }

  /** What the slices add up to, compared with one walk of their total. */
  ghost predicate AddsUp(book: Book, side: OrderSide, fills: seq<Fill>, total: real) {
    var levels := book.Levels(ConsumedSide(side));
    && TotalFilled(fills) == Filled(levels, total)
    && TotalNotional(fills) == Notional(levels, total)
    && WorstOf(side, fills) == Worst(levels, total)
    && (CountIf(fills, Exhausted) > 0 <==> Filled(levels, total) < total)
    && (fills == [] <==> total == 0.0)
    && Touched(levels, total) <= TotalLevels(fills)
    && TotalLevels(fills) <= Touched(levels, total) + (if fills == [] then 0 else |fills| - 1)
    && (fills != [] ==> fills[0].mid == Mid(book) && fills[0].touch == BestPrice(levels)
                        && fills[0].crossedAtEntry == book.Crossed())
  }

  lemma {:induction false} SlicesAddUp(book: Book, side: OrderSide, sizes: seq<real>)
    requires book.Valid() && AllNonNegative(sizes)
    ensures AddsUp(book, side, FillsAtOnce(book, side, sizes), Sum(sizes))
    ensures |FillsAtOnce(book, side, sizes)| <= |sizes|
  {
    hide AddsUp, WalkFill, AfterOrder, WellFormed;
    if sizes == [] {
      NoSlicesAddUp(book, side);
    } else {
      var init, size := sizes[..|sizes| - 1], sizes[|sizes| - 1];
      assert AllNonNegative(init) && size >= 0.0;
      SlicesAddUp(book, side, init);
      SumSnoc(sizes);
      SumNonNegative(init);
      hide Sum, AllNonNegative;
      if size > 0.0 {
        NextSliceAddsUp(book, side, FillsAtOnce(book, side, init), Sum(init), size);
      }
    }
  }

  lemma NoSlicesAddUp(book: Book, side: OrderSide)
    ensures AddsUp(book, side, [], 0.0)
  {
    NothingDepletes(book.Levels(ConsumedSide(side)));
  }

  lemma NextSliceAddsUp(book: Book, side: OrderSide, fills: seq<Fill>, before: real, size: real)
    requires book.Valid() && before >= 0.0 && size > 0.0 && AddsUp(book, side, fills, before)
    ensures AddsUp(book, side, fills + [WalkFill(AfterOrder(book, side, before), side, size)], before + size)
  {
    hide Depleted, Filled, Notional, Touched, Worst, WellFormed, Mid, BestPrice, Average, SlippageBps, WalkFill,
        AfterOrder;
    var levels := book.Levels(ConsumedSide(side));
    var rest := Depleted(levels, before);
    var fill := WalkFill(AfterOrder(book, side, before), side, size);
    ConsumableSide(book, side);
    WalkAfter(book, side, before, size);
    NextTotals(levels, before, size);
    NextWorst(side, levels, before, size);
    AfterNothing(book, side);
    TotalsSnoc(side, fills, fill);
    hide TotalFilled, TotalNotional, WorstOf, CountIf, TotalLevels;
  }

  lemma WalkAfter(book: Book, side: OrderSide, before: real, size: real)
    ensures var after, rest := AfterOrder(book, side, before), Depleted(book.Levels(ConsumedSide(side)), before);
            && after.Levels(ConsumedSide(side)) == rest
            && WalkFill(after, side, size)
               == Report(after, side, size, Filled(rest, size), Notional(rest, size), Worst(rest, size), Touched(rest, size))
  {
    hide Depleted, Filled, Notional, Touched, Worst, Report;
  }

  lemma AfterNothing(book: Book, side: OrderSide)
    ensures AfterOrder(book, side, 0.0) == book
  {
    NothingDepletes(book.Levels(ConsumedSide(side)));
    hide Depleted;
  }

  lemma TotalsSnoc(side: OrderSide, fills: seq<Fill>, fill: Fill)
    ensures var all := fills + [fill];
            && TotalFilled(all) == TotalFilled(fills) + fill.filled
            && TotalNotional(all) == TotalNotional(fills) + fill.notional
            && TotalLevels(all) == TotalLevels(fills) + fill.levelsConsumed
            && CountIf(all, Exhausted) == CountIf(fills, Exhausted) + (if fill.exhausted then 1 else 0)
            && WorstOf(side, all) == (if fill.worst.Some? && (WorstOf(side, fills).None?
                                                              || IsWorse(side, fill.worst.value, WorstOf(side, fills).value))
                                      then fill.worst else WorstOf(side, fills))
  {
    assert (fills + [fill])[..|fills|] == fills;
  }

  lemma NextTotals(levels: seq<Level>, before: real, size: real)
    requires AllPositive(levels) && before >= 0.0 && size > 0.0
    ensures var rest := Depleted(levels, before);
            && Filled(levels, before) + Filled(rest, size) == Filled(levels, before + size)
            && Notional(levels, before) + Notional(rest, size) == Notional(levels, before + size)
            && (Filled(levels, before + size) < before + size
                <==> Filled(levels, before) < before || Filled(rest, size) < size)
            && Touched(levels, before + size) <= Touched(levels, before) + Touched(rest, size)
            && Touched(levels, before) + Touched(rest, size) <= Touched(levels, before + size) + 1
            && (before == 0.0 ==> Touched(levels, before) == 0 && rest == levels)
  {
    SplitIsOneOrder(levels, before, size);
    SplitTouches(levels, before, size);
    FilledIsMin(levels, before);
    FilledIsMin(levels, before + size);
    NothingDepletes(levels);
    hide Depleted, Filled, Notional, Touched;
    FilledAtMost(Depleted(levels, before), size);
  }

  lemma {:induction false} FilledAtMost(levels: seq<Level>, quantity: real)
    requires quantity >= 0.0
    ensures Filled(levels, quantity) <= quantity
  {
    if levels != [] && quantity > 0.0 {
      FilledAtMost(levels[1..], quantity - Min(quantity, levels[0].quantity));
    }
  }

  lemma PositiveSide(side: Side, levels: seq<Level>)
    requires WellFormed(side, levels)
    ensures AllPositive(levels)
  {
  }

  lemma NextWorst(side: OrderSide, levels: seq<Level>, before: real, size: real)
    requires WellFormed(ConsumedSide(side), levels) && before >= 0.0 && size > 0.0
    ensures var rest := Depleted(levels, before); var last := Worst(rest, size);
            && (last.Some? <==> Filled(rest, size) > 0.0)
            && Worst(levels, before + size)
               == if last.Some? && (Worst(levels, before).None? || IsWorse(side, last.value, Worst(levels, before).value))
                  then last else Worst(levels, before)
  {
    hide Depleted, Filled, Worst, WellFormed;
    var rest := Depleted(levels, before);
    PositiveSide(ConsumedSide(side), levels);
    SplitWorst(levels, before, size);
    DepletedIsWellFormed(ConsumedSide(side), levels, before);
    PositiveSide(ConsumedSide(side), rest);
    SplitWorst(rest, size, 0.0);
    if Worst(levels, before).Some? && Worst(rest, size).Some? {
      LaterSliceIsWorse(side, levels, before, size);
    }
  }

  // ---------------------------------------------------------------- the depth flag

  lemma {:induction false} TouchedGrows(levels: seq<Level>, a: real, b: real)
    requires AllPositive(levels) && 0.0 <= a <= b
    ensures Touched(levels, a) <= Touched(levels, b)
  {
    if levels != [] && a > 0.0 {
      assert AllPositive(levels[1..]);
      TouchedGrows(levels[1..], a - Min(a, levels[0].quantity), b - Min(b, levels[0].quantity));
    }
  }

  /** What is left after some of an order touches no more levels than the whole of it did. */
  lemma LaterTouches(levels: seq<Level>, a: real, b: real)
    requires AllPositive(levels) && a >= 0.0 && b >= 0.0
    ensures Touched(Depleted(levels, a), b) <= Touched(levels, a + b)
  {
    NothingDepletes(levels);
    SplitTouches(levels, a, b);
    assert levels != [] && a > 0.0 ==> Touched(levels, a) >= 1;
    assert levels == [] ==> Depleted(levels, a) == [];
  }

  /** Slice `i` alone walks past the validated depth of what the slices before it left. */
  predicate DeepSlice(levels: seq<Level>, sizes: seq<real>, i: nat)
    requires i < |sizes|
  {
    Touched(Depleted(levels, Sum(sizes[..i])), sizes[i]) > VALIDATED_DEPTH
  }

  lemma {:induction false} DeepFillsAreDeepSlices(book: Book, side: OrderSide, sizes: seq<real>)
    requires AllNonNegative(sizes)
    ensures CountIf(FillsAtOnce(book, side, sizes), BeyondDepth) > 0
       <==> exists i :: 0 <= i < |sizes| && DeepSlice(book.Levels(ConsumedSide(side)), sizes, i)
  {
    hide WalkFill, AfterOrder, DeepSlice;
    if sizes != [] {
      var n, levels := |sizes| - 1, book.Levels(ConsumedSide(side));
      var init := sizes[..n];
      assert AllNonNegative(init);
      DeepFillsAreDeepSlices(book, side, init);
      forall i | 0 <= i < n ensures DeepSlice(levels, init, i) == DeepSlice(levels, sizes, i) {
        SameSlice(levels, sizes, n, i);
      }
      LastSliceDeep(book, side, sizes);
      var fill := WalkFill(AfterOrder(book, side, Sum(init)), side, sizes[n]);
      assert (FillsAtOnce(book, side, init) + [fill])[..|FillsAtOnce(book, side, init)|] == FillsAtOnce(book, side, init);
    }
  }

  lemma SameSlice(levels: seq<Level>, sizes: seq<real>, n: nat, i: nat)
    requires i < n <= |sizes|
    ensures DeepSlice(levels, sizes[..n], i) == DeepSlice(levels, sizes, i)
  {
    assert sizes[..n][..i] == sizes[..i];
  }

  lemma LastSliceDeep(book: Book, side: OrderSide, sizes: seq<real>)
    requires sizes != []
    ensures var n, levels := |sizes| - 1, book.Levels(ConsumedSide(side));
            && (sizes[n] <= 0.0 ==> !DeepSlice(levels, sizes, n))
            && WalkFill(AfterOrder(book, side, Sum(sizes[..n])), side, sizes[n]).beyondValidatedDepth
               == DeepSlice(levels, sizes, n)
  {
    hide Depleted, Sum;
  }

  /** No slice is deep unless the one order is. */
  lemma {:induction false} DeepSliceIsDeepOrder(levels: seq<Level>, sizes: seq<real>, i: nat)
    requires AllPositive(levels) && AllNonNegative(sizes) && i < |sizes| && DeepSlice(levels, sizes, i)
    ensures Touched(levels, Sum(sizes)) > VALIDATED_DEPTH
  {
    hide Touched, Depleted, Sum;
    assert AllNonNegative(sizes[..i]) && AllNonNegative(sizes[i + 1..]);
    SumNonNegative(sizes[..i]);
    SumNonNegative(sizes[i + 1..]);
    assert sizes[..i + 1][..i] == sizes[..i];
    SumSnoc(sizes[..i + 1]);
    assert sizes == sizes[..i + 1] + sizes[i + 1..];
    SumOfConcat(sizes[..i + 1], sizes[i + 1..]);
    LaterTouches(levels, Sum(sizes[..i]), sizes[i]);
    TouchedGrows(levels, Sum(sizes[..i + 1]), Sum(sizes));
  }

  /** Slicing a valid order over zero duration, with any admissible weights, reports what the
      single order of the total size reports, leaves the same book, and touches at most one more
      level per extra slice. Slicing can clear the validated-depth flag but never raises it: it is
      raised exactly when some slice alone is too deep. */
  lemma {:induction false} SlicingIsInvariant(initial: Replayer, updates: seq<BookUpdate>, side: OrderSide, total: real,
                                              schedule: Schedule)
    requires ScheduleError(Num(total), schedule).None? && schedule.duration == 0 && Consistent(initial)
    requires initial.stats.applied > 0 ==> initial.stats.lastTimestamp <= schedule.start
    requires Replay(initial, updates[..Reach(updates, 0, schedule.start)]).error.None?
    ensures var book := Replay(initial, updates[..Reach(updates, 0, schedule.start)]).state.book;
            var one := WalkFill(book, side, total); var sliced := Simulate(initial, updates, side, Num(total), schedule);
            var sizes := Children(total, schedule);
            && sliced.Ok?
            && sliced.value.parent == one.(levelsConsumed := sliced.value.parent.levelsConsumed,
                                           beyondValidatedDepth := sliced.value.parent.beyondValidatedDepth)
            && one.levelsConsumed <= sliced.value.parent.levelsConsumed <= one.levelsConsumed + schedule.slices - 1
            && sliced.value.completed == !one.exhausted
            && (sliced.value.parent.beyondValidatedDepth
                <==> exists i :: 0 <= i < |sizes| && DeepSlice(book.Levels(ConsumedSide(side)), sizes, i))
            && (sliced.value.parent.beyondValidatedDepth ==> one.beyondValidatedDepth)
            && Slices(initial, updates, side, sizes, schedule, schedule.slices).value.replayer.book
               == AfterOrder(book, side, total)
  {
    hide SliceSizes, Weights, Slices, FillsAtOnce, Replay, Reach, AddsUp, AfterOrder, Sum, Share, DeepSlice, CountIf,
        ScheduleError, WalkFill, Finish, SliceTime;
    ChildrenAreShares(total, schedule);
    var sizes := Children(total, schedule);
    var replayed := Replay(initial, updates[..Reach(updates, 0, schedule.start)]);
    ReplayConsistent(initial, updates[..Reach(updates, 0, schedule.start)]);
    assert sizes[..schedule.slices] == sizes;
    ZeroDurationIsAtOnce(initial, updates, side, sizes, schedule, schedule.slices);
    var fills := FillsAtOnce(replayed.state.book, side, sizes);
    SlicesAddUp(replayed.state.book, side, sizes);
    SlicesRaiseTheFlag(replayed.state.book, side, sizes);
    assert AllFills(initial, updates, side, total, schedule) == Ok(fills);
    hide AllFills;
    ParentIsOneOrder(replayed.state.book, side, fills, total);
  }

  lemma ChildrenAreShares(total: real, schedule: Schedule)
    requires ScheduleError(Num(total), schedule).None?
    ensures var sizes := Children(total, schedule);
            |sizes| == schedule.slices > 0 && total > 0.0 && AllNonNegative(sizes) && Sum(sizes) == total
  {
    WeightsArePositive(Num(total), schedule);
    SizesAreShares(total, schedule);
    SizesCount(total, schedule);
  }

  lemma SlicesRaiseTheFlag(book: Book, side: OrderSide, sizes: seq<real>)
    requires book.Valid() && AllNonNegative(sizes)
    ensures var levels := book.Levels(ConsumedSide(side));
            var deep := CountIf(FillsAtOnce(book, side, sizes), BeyondDepth) > 0;
            && (deep <==> exists i :: 0 <= i < |sizes| && DeepSlice(levels, sizes, i))
            && (deep ==> WalkFill(book, side, Sum(sizes)).beyondValidatedDepth)
  {
    var levels := book.Levels(ConsumedSide(side));
    ConsumableSide(book, side);
    DeepFillsAreDeepSlices(book, side, sizes);
    hide DeepSlice, FillsAtOnce, Book.Valid, AllNonNegative, AllPositive, WellFormed, CountIf;
    forall i | 0 <= i < |sizes| && DeepSlice(levels, sizes, i) ensures Touched(levels, Sum(sizes)) > VALIDATED_DEPTH {
      DeepSliceIsDeepOrder(levels, sizes, i);
    }
  }

  lemma ParentIsOneOrder(book: Book, side: OrderSide, fills: seq<Fill>, total: real)
    requires total > 0.0 && AddsUp(book, side, fills, total)
    ensures var one := WalkFill(book, side, total); var sliced := Finish(side, total, fills);
            && sliced.parent == one.(levelsConsumed := sliced.parent.levelsConsumed,
                                     beyondValidatedDepth := sliced.parent.beyondValidatedDepth)
            && one.levelsConsumed <= sliced.parent.levelsConsumed <= one.levelsConsumed + |fills| - 1
            && sliced.completed == !one.exhausted
            && sliced.parent.beyondValidatedDepth == (CountIf(fills, BeyondDepth) > 0)
  {
    hide TotalFilled, TotalNotional, WorstOf, CountIf, TotalLevels, Filled, Notional, Worst, Touched, SlippageBps,
        Average, Mid,
      BestPrice;
  }
}
