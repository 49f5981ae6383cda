/** A market order's report in closed form: what every level gives, and what each field then says. */
module WalkReport {
  import opened Wrappers
  import opened Reals
  import opened OrderBook
  import opened ImpactSimulator

  /** What level `i` gives: what the better levels leave of the order, as far as the level goes. */
  function Given(levels: seq<Level>, quantity: real, i: nat): real
    requires i < |levels|
  {
    var left := quantity - Depth(levels[..i]);
    if left <= 0.0 then 0.0 else if left < levels[i].quantity then left else levels[i].quantity
  }

  function AllGiven(levels: seq<Level>, quantity: real): seq<real> {
    seq(|levels|, i requires 0 <= i < |levels| => Given(levels, quantity, i))
  }

  lemma DepthOfTail(levels: seq<Level>, i: nat)
    requires AllPositive(levels) && 0 < i <= |levels|
    ensures Depth(levels[..i]) == levels[0].quantity + Depth(levels[1..][..i - 1]) && Depth(levels[1..][..i - 1]) >= 0.0
  {
    assert levels[..i][1..] == levels[1..][..i - 1];
    DepthIsNatural(levels[1..][..i - 1]);
  }

  lemma {:induction false} DepthIsNatural(levels: seq<Level>)
    requires AllPositive(levels)
    ensures Depth(levels) >= 0.0 && (levels != [] ==> Depth(levels) > 0.0)
  {
    if levels != [] {
      DepthIsNatural(levels[1..]);
    }
  }

  /** Later levels give to the whole order what they give to what the first one leaves. */
  lemma GivenShifts(levels: seq<Level>, quantity: real, i: nat)
    requires AllPositive(levels) && quantity > 0.0 && 0 < i < |levels|
    ensures Given(levels, quantity, i) == Given(levels[1..], quantity - Min(quantity, levels[0].quantity), i - 1)
    ensures Depth(levels[..i]) < quantity
       <==> Depth(levels[1..][..i - 1]) < quantity - Min(quantity, levels[0].quantity)
  {
    DepthOfTail(levels, i);
    hide Depth;
  }

  lemma AllGivenShifts(levels: seq<Level>, quantity: real)
    requires AllPositive(levels) && quantity > 0.0 && levels != []
    ensures AllGiven(levels, quantity)
         == [Min(quantity, levels[0].quantity)] + AllGiven(levels[1..], quantity - Min(quantity, levels[0].quantity))
  {
    hide Given, AllPositive;
    FirstGives(levels, quantity);
    forall i | 0 < i < |levels|
      ensures AllGiven(levels, quantity)[i] == AllGiven(levels[1..], quantity - Min(quantity, levels[0].quantity))[i - 1]
    {
      GivenShifts(levels, quantity, i);
    }
  }

  lemma FirstGives(levels: seq<Level>, quantity: real)
    requires AllPositive(levels) && quantity > 0.0 && levels != []
    ensures Given(levels, quantity, 0) == Min(quantity, levels[0].quantity)
  {
    assert levels[..0] == [];
  }

  lemma {:induction false} NothingGiven(levels: seq<Level>)
    requires AllPositive(levels)
    ensures Sum(AllGiven(levels, 0.0)) == 0.0 && Cost(levels, AllGiven(levels, 0.0)) == 0.0
  {
    if levels != [] {
      var tail, rest := levels[1..], AllGiven(levels, 0.0)[1..];
      assert AllPositive(tail);
      NothingGiven(tail);
      forall i | 0 <= i < |tail| ensures rest[i] == AllGiven(tail, 0.0)[i] {
        DepthIsNatural(levels[..i + 1]);
        DepthIsNatural(tail[..i]);
      }
      assert rest == AllGiven(tail, 0.0) && levels[..0] == [];
    }
  }

  /** The walk takes from each level exactly that. */
  lemma {:induction false} WalkIsGreedy(levels: seq<Level>, quantity: real)
    requires AllPositive(levels) && quantity >= 0.0
    ensures Filled(levels, quantity) == Sum(AllGiven(levels, quantity))
    ensures Notional(levels, quantity) == Cost(levels, AllGiven(levels, quantity))
  {
    hide Times, AllPositive, AllGiven;
    GivenCount(levels, quantity);
    if quantity <= 0.0 {
      NothingGiven(levels);
    } else if levels != [] {
      PositiveTail(levels);
      WalkIsGreedy(levels[1..], quantity - Min(quantity, levels[0].quantity));
      AllGivenShifts(levels, quantity);
    }
  }

  lemma GivenCount(levels: seq<Level>, quantity: real)
    ensures |AllGiven(levels, quantity)| == |levels|
  {
  }

  lemma PositiveTail(levels: seq<Level>)
    requires AllPositive(levels) && levels != []
    ensures AllPositive(levels[1..]) && levels[0].quantity > 0.0 && levels[0].price > 0.0
  {
  }

  /** It touches the levels with less than the order ahead of them, and its worst price is the last's. */
  lemma {:induction false} TouchedAreReached(levels: seq<Level>, quantity: real)
    requires AllPositive(levels) && quantity >= 0.0
    ensures var n := Touched(levels, quantity);
            && n <= |levels| && (forall i | 0 <= i < |levels| :: i < n <==> Depth(levels[..i]) < quantity)
            && Worst(levels, quantity) == if n == 0 then None else Some(levels[n - 1].price)
  {
    hide AllPositive, Depth;
    if quantity <= 0.0 {
      forall i | 0 <= i < |levels| ensures Depth(levels[..i]) >= quantity {
        PositivePrefix(levels, i);
        DepthIsNatural(levels[..i]);
      }
    } else if levels != [] {
      var tail, left := levels[1..], quantity - Min(quantity, levels[0].quantity);
      PositiveTail(levels);
      TouchedAreReached(tail, left);
      NothingAhead(levels);
      forall i | 0 < i < |levels| ensures Depth(levels[..i]) < quantity <==> Depth(tail[..i - 1]) < left {
        GivenShifts(levels, quantity, i);
      }
    }
  }

  lemma NothingAhead(levels: seq<Level>)
    ensures Depth(levels[..0]) == 0.0
  {
  }

  lemma PositivePrefix(levels: seq<Level>, i: nat)
    requires AllPositive(levels) && i <= |levels|
    ensures AllPositive(levels[..i])
  {
  }

  // ---------------------------------------------------------------- the report

  /** A cost in basis points of a reference, against an average: buying above it or selling below
      it is positive. */
  ghost predicate IsSlippage(side: OrderSide, average: Option<real>, reference: Option<real>, bps: Option<real>) {
    && (bps.Some? <==> average.Some? && reference.Some? && reference.value != 0.0)
    && (bps.Some? ==> average.value == reference.value
                                       + (if side.Buy? then 1.0 else -1.0) * Times(reference.value, bps.value) / 10000.0)
  }

  lemma SlippageIsInBps(side: OrderSide, average: Option<real>, reference: Option<real>)
    ensures IsSlippage(side, average, reference, SlippageBps(side, average, reference))
  {
    if average.Some? && reference.Some? && reference.value != 0.0 {
      var cost := if side.Buy? then average.value - reference.value else reference.value - average.value;
      BpsOf(cost, reference.value);
    }
  }

  lemma BpsOf(cost: real, reference: real)
    requires reference != 0.0
    ensures Times(reference, cost / reference * 10000.0) / 10000.0 == cost
  {
    var x := cost / reference;
    assert x * reference == cost;
    assert reference * (x * 10000.0) == (x * reference) * 10000.0;
  }

  /** Crossed means some bid is no lower than some ask. */
  lemma {:induction false} CrossedIsAnyPair(book: Book)
    requires book.Valid()
    ensures book.Crossed()
       <==> exists i, j :: 0 <= i < |book.bids| && 0 <= j < |book.asks| && book.bids[i].price >= book.asks[j].price
  {
    if i, j :| 0 <= i < |book.bids| && 0 <= j < |book.asks| && book.bids[i].price >= book.asks[j].price {
      assert i > 0 ==> IsBetter(Bid, book.bids[0].price, book.bids[i].price);
      assert j > 0 ==> IsBetter(Ask, book.asks[0].price, book.asks[j].price);
    }
  }

  /** Every field of the report on an order of a positive quantity. */
  lemma {:induction false} ReportIsExact(book: Book, side: OrderSide, quantity: real)
    requires book.Valid() && quantity > 0.0
    ensures var fill, levels := WalkFill(book, side, quantity), book.Levels(if side.Buy? then Ask else Bid);
            var given := AllGiven(levels, quantity); var n := fill.levelsConsumed;
            && fill.requested == quantity && fill.filled == Sum(given) && fill.notional == Cost(levels, given)
            && n <= |levels| && (forall i | 0 <= i < |levels| :: i < n <==> Depth(levels[..i]) < quantity)
            && (fill.average.Some? <==> levels != [])
            && (fill.average.Some? ==> Times(fill.average.value, fill.filled) == fill.notional)
            && fill.worst == (if levels == [] then None else Some(levels[n - 1].price))
            && fill.touch == (if levels == [] then None else Some(levels[0].price))
            && (fill.mid.Some? <==> book.bids != [] && book.asks != [])
            && (fill.mid.Some? ==> fill.mid.value - book.bids[0].price == book.asks[0].price - fill.mid.value)
            && IsSlippage(side, fill.average, fill.mid, fill.slippageVsMid)
            && IsSlippage(side, fill.average, fill.touch, fill.slippageVsTouch)
            && (fill.exhausted <==> Depth(levels) < quantity) && (fill.beyondValidatedDepth <==> n > 25)
            && (fill.crossedAtEntry
                <==> exists i, j :: 0 <= i < |book.bids| && 0 <= j < |book.asks| && book.bids[i].price >= book.asks[j].price)
  {
    var levels := book.Levels(if side.Buy? then Ask else Bid);
    ConsumableSide(book, side);
    WalkIsGreedy(levels, quantity);
    TouchedAreReached(levels, quantity);
    FilledIsMin(levels, quantity);
    DepthIsNatural(levels);
    NothingAhead(levels);
    CrossedIsAnyPair(book);
    var average := Average(Filled(levels, quantity), Notional(levels, quantity));
    SlippageIsInBps(side, average, Mid(book));
    SlippageIsInBps(side, average, BestPrice(levels));
    AverageTimesFilled(Filled(levels, quantity), Notional(levels, quantity));
    hide Filled, Notional, Touched, Worst, Depth, AllGiven, Times, IsSlippage, SlippageBps, Book.Valid, Book.Crossed, Cost, Sum;
  }

  lemma AverageTimesFilled(filled: real, notional: real)
    ensures filled > 0.0 ==> Average(filled, notional).Some? && Times(Average(filled, notional).value, filled) == notional
  {
    if filled > 0.0 {
      TimesQuotient(notional, filled);
      TimesCommutes(filled, notional / filled);
    }
  }
}
