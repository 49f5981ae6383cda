/** Market orders walked over one side of the book, and the same walk consuming what it took. */
module ImpactSimulator {
  import opened Wrappers
  import opened OrderBook
  import opened Reals

  datatype OrderSide = Buy | Sell

  const VALIDATED_DEPTH: nat := 25

  /** `None` stands for the source's NaN. */
  datatype Fill = Fill(
    requested: real,
    filled: real,
    notional: real,
    average: Option<real>,
    worst: Option<real>,
    mid: Option<real>,
    touch: Option<real>,
    slippageVsMid: Option<real>,
    slippageVsTouch: Option<real>,
    levelsConsumed: nat,
    exhausted: bool,
    beyondValidatedDepth: bool,
    crossedAtEntry: bool)

  datatype OrderError = BadOrderQuantity

  function ConsumedSide(side: OrderSide): Side {
    if side.Buy? then Ask else Bid
  }

  function SlippageBps(side: OrderSide, average: Option<real>, reference: Option<real>): Option<real> {
    if reference.None? || reference.value == 0.0 || average.None? then None
    else
      var cost := if side.Buy? then average.value - reference.value else reference.value - average.value;
      Some(cost / reference.value * 10000.0)
  }

  function BestPrice(levels: seq<Level>): Option<real> {
    if levels == [] then None else Some(levels[0].price)
  }

  function Mid(book: Book): Option<real> {
    if book.bids == [] || book.asks == [] then None
    else Some((book.bids[0].price + book.asks[0].price) / 2.0)
  }

  // ---------------------------------------------------------------- the walk, level by level

  function Filled(levels: seq<Level>, quantity: real): real {
    if levels == [] || quantity <= 0.0 then 0.0
    else
      var taken := Min(quantity, levels[0].quantity);
      taken + Filled(levels[1..], quantity - taken)
  }

  function Notional(levels: seq<Level>, quantity: real): real {
    if levels == [] || quantity <= 0.0 then 0.0
    else
      var taken := Min(quantity, levels[0].quantity);
      Times(taken, levels[0].price) + Notional(levels[1..], quantity - taken)
  }

  function Touched(levels: seq<Level>, quantity: real): nat {
    if levels == [] || quantity <= 0.0 then 0
    else 1 + Touched(levels[1..], quantity - Min(quantity, levels[0].quantity))
  }

  function Worst(levels: seq<Level>, quantity: real): Option<real> {
    if levels == [] || quantity <= 0.0 then None
    else
      var later := Worst(levels[1..], quantity - Min(quantity, levels[0].quantity));
      if later.Some? then later else Some(levels[0].price)
  }

  /** What the walk leaves of the side. */
  function Depleted(levels: seq<Level>, quantity: real): seq<Level> {
    if levels == [] || quantity <= 0.0 then levels
    else if quantity < levels[0].quantity then [Level(levels[0].price, levels[0].quantity - quantity)] + levels[1..]
    else Depleted(levels[1..], quantity - levels[0].quantity)
  }

  /** The levels touched, each with the quantity left on it. */
  function Remainders(levels: seq<Level>, quantity: real): seq<Level> {
    if levels == [] || quantity <= 0.0 then []
    else
      var taken := Min(quantity, levels[0].quantity);
      [Level(levels[0].price, levels[0].quantity - taken)] + Remainders(levels[1..], quantity - taken)
  }

  function Depth(levels: seq<Level>): real {
    if levels == [] then 0.0 else levels[0].quantity + Depth(levels[1..])
  }

  function Average(filled: real, notional: real): Option<real> {
    if filled > 0.0 then Some(notional / filled) else None
  }

  /** The report on a walk that took `filled` for `notional` from `touched` levels. */
  function Report(book: Book, side: OrderSide, quantity: real, filled: real, notional: real, worst: Option<real>,
                  touched: nat): Fill {
    var average := Average(filled, notional);
    var touch := BestPrice(book.Levels(ConsumedSide(side)));
    Fill(quantity, filled, notional, average, if filled > 0.0 then worst else None, Mid(book), touch,
         SlippageBps(side, average, Mid(book)), SlippageBps(side, average, touch),
         touched, filled < quantity, touched > VALIDATED_DEPTH, book.Crossed())
  }

  function WalkFill(book: Book, side: OrderSide, quantity: real): Fill {
    var levels := book.Levels(ConsumedSide(side));
    Report(book, side, quantity, Filled(levels, quantity), Notional(levels, quantity), Worst(levels, quantity),
           Touched(levels, quantity))
  }

  function SimulateMarketOrder(book: Book, side: OrderSide, quantity: Double): Result<Fill, OrderError> {
    if quantity.NonFinite? || quantity.value <= 0.0 then Err(BadOrderQuantity)
    else Ok(WalkFill(book, side, quantity.value))
  }

  function AfterOrder(book: Book, side: OrderSide, quantity: real): Book {
    book.With(ConsumedSide(side), Depleted(book.Levels(ConsumedSide(side)), quantity))
  }

  // ---------------------------------------------------------------- conservation

  lemma {:induction false} FilledIsMin(levels: seq<Level>, quantity: real)
    requires AllPositive(levels) && quantity >= 0.0
    ensures Depth(levels) >= 0.0
    ensures Filled(levels, quantity) == Min(quantity, Depth(levels))
  {
    if levels != [] {
      var taken := Min(quantity, levels[0].quantity);
      FilledIsMin(levels[1..], quantity - taken);
    }
  }

  lemma {:induction false} DepletedIsWellFormed(side: Side, levels: seq<Level>, quantity: real)
    requires WellFormed(side, levels) && quantity >= 0.0
    ensures WellFormed(side, Depleted(levels, quantity))
    ensures Depth(Depleted(levels, quantity)) == Depth(levels) - Filled(levels, quantity)
  {
    if levels != [] && quantity > 0.0 {
      SliceWellFormed(side, levels, 1, |levels|);
      if quantity < levels[0].quantity {
        var rest := Depleted(levels, quantity);
        assert rest[1..] == levels[1..];
        forall i, j | 0 <= i < j < |rest| ensures IsBetter(side, rest[i].price, rest[j].price) {
          assert IsBetter(side, levels[i].price, levels[j].price);
        }
        assert Filled(levels[1..], 0.0) == 0.0;
      } else {
        assert levels[1..|levels|] == levels[1..];
        DepletedIsWellFormed(side, levels[1..], quantity - levels[0].quantity);
      }
    }
  }

  // ---------------------------------------------------------------- splitting an order

  /** Two orders one after the other on the depleted side are one order of their total. */
  lemma {:induction false} SplitIsOneOrder(levels: seq<Level>, a: real, b: real)
    requires AllPositive(levels) && a >= 0.0 && b >= 0.0
    ensures var rest := Depleted(levels, a);
            && Filled(levels, a) + Filled(rest, b) == Filled(levels, a + b)
            && Notional(levels, a) + Notional(rest, b) == Notional(levels, a + b)
            && Depleted(rest, b) == Depleted(levels, a + b)
    decreases |levels|
  {
    hide Filled, Notional, Depleted, Times;
    SplitNothing(levels, a, b);
    if levels != [] && a > 0.0 {
      var first := levels[0];
      if a < first.quantity {
        SplitWithinLevel(levels, a, b);
      } else {
        SplitIsOneOrder(levels[1..], a - first.quantity, b);
        SplitBeyondLevel(levels, a, b);
      }
    }
  }

  lemma SplitNothing(levels: seq<Level>, a: real, b: real)
    requires a >= 0.0 && b >= 0.0
    ensures levels == [] || a == 0.0 ==>
              && Depleted(levels, a) == levels && Filled(levels, a) == 0.0 && Notional(levels, a) == 0.0
              && Filled(levels, b) == Filled(levels, a + b) && Notional(levels, b) == Notional(levels, a + b)
              && Depleted(levels, b) == Depleted(levels, a + b)
  {
  }

  lemma SplitBeyondLevel(levels: seq<Level>, a: real, b: real)
    requires levels != [] && 0.0 < levels[0].quantity <= a && b >= 0.0
    ensures Depleted(levels, a) == Depleted(levels[1..], a - levels[0].quantity)
    ensures Depleted(levels, a + b) == Depleted(levels[1..], a - levels[0].quantity + b)
    ensures Filled(levels, a) == levels[0].quantity + Filled(levels[1..], a - levels[0].quantity)
    ensures Filled(levels, a + b) == levels[0].quantity + Filled(levels[1..], a - levels[0].quantity + b)
    ensures Notional(levels, a) == Times(levels[0].quantity, levels[0].price) + Notional(levels[1..], a - levels[0].quantity)
    ensures Notional(levels, a + b)
         == Times(levels[0].quantity, levels[0].price) + Notional(levels[1..], a - levels[0].quantity + b)
  {
    hide Times;
    assert a - levels[0].quantity + b == a + b - levels[0].quantity;
  }

  lemma SplitWithinLevel(levels: seq<Level>, a: real, b: real)
    requires AllPositive(levels) && levels != [] && 0.0 < a < levels[0].quantity && b >= 0.0
    ensures var rest := Depleted(levels, a);
            && Filled(levels, a) + Filled(rest, b) == Filled(levels, a + b)
            && Notional(levels, a) + Notional(rest, b) == Notional(levels, a + b)
            && Depleted(rest, b) == Depleted(levels, a + b)
  {
    hide Times;
    var first, tail := levels[0], levels[1..];
    var rest := Depleted(levels, a);
    assert rest == [Level(first.price, first.quantity - a)] + tail && rest[1..] == tail;
    assert Filled(tail, 0.0) == 0.0 && Notional(tail, 0.0) == 0.0;
    if b > 0.0 {
      var taken := Min(b, first.quantity - a);
      assert Min(a + b, first.quantity) == a + taken;
      assert b - taken == a + b - (a + taken);
      TimesDistributes(a, taken, first.price);
      if b < first.quantity - a {
        assert Depleted(rest, b) == Depleted(levels, a + b);
      } else {
        assert b - (first.quantity - a) == a + b - first.quantity;
      }
    }
  }

  /** A split never touches fewer levels, and at most one more. */
  lemma {:induction false} SplitTouches(levels: seq<Level>, a: real, b: real)
    requires AllPositive(levels) && a >= 0.0 && b >= 0.0
    ensures Touched(levels, a + b) <= Touched(levels, a) + Touched(Depleted(levels, a), b) <= Touched(levels, a + b) + 1
    decreases |levels|
  {
    if levels != [] && a > 0.0 {
      var first, tail := levels[0], levels[1..];
      var rest := Depleted(levels, a);
      assert AllPositive(tail);
      if a < first.quantity {
        assert rest == [Level(first.price, first.quantity - a)] + tail && rest[1..] == tail;
        assert Touched(tail, 0.0) == 0;
        if b > 0.0 {
          var taken := Min(b, first.quantity - a);
          assert b - taken == a + b - Min(a + b, first.quantity);
        }
      } else {
        SplitTouches(tail, a - first.quantity, b);
        assert a - first.quantity + b == a + b - first.quantity;
      }
    }
  }

  /** The worst price of a split is the later part's if it filled anything, else the earlier's. */
  lemma {:induction false} SplitWorst(levels: seq<Level>, a: real, b: real)
    requires AllPositive(levels) && a >= 0.0 && b >= 0.0
    ensures Worst(levels, a + b)
         == if Worst(Depleted(levels, a), b).Some? then Worst(Depleted(levels, a), b) else Worst(levels, a)
    ensures Worst(levels, a).Some? <==> Filled(levels, a) > 0.0
    decreases |levels|
  {
    FilledIsMin(levels, a);
    if levels != [] && a > 0.0 {
      var first, tail := levels[0], levels[1..];
      var rest := Depleted(levels, a);
      assert AllPositive(tail);
      FilledIsMin(tail, 0.0);
      if a < first.quantity {
        assert rest == [Level(first.price, first.quantity - a)] + tail && rest[1..] == tail;
        assert Worst(tail, 0.0) == None;
        if b > 0.0 {
          var taken := Min(b, first.quantity - a);
          assert b - taken == a + b - Min(a + b, first.quantity);
        }
      } else {
        SplitWorst(tail, a - first.quantity, b);
        assert a - first.quantity + b == a + b - first.quantity;
      }
    }
  }

  // ---------------------------------------------------------------- optimality

  /** Prices signed so that larger is worse for the trader. */
  function Signed(side: OrderSide, x: real): real {
    if side.Buy? then x else 0.0 - x
  }

  function Sum(xs: seq<real>): real {
    if xs == [] then 0.0 else xs[0] + Sum(xs[1..])
  }

  /** What taking `take[i]` from each level costs. */
  function Cost(levels: seq<Level>, take: seq<real>): real
    requires |take| == |levels|
  {
    if levels == [] then 0.0 else Times(take[0], levels[0].price) + Cost(levels[1..], take[1..])
  }

  ghost predicate Feasible(levels: seq<Level>, take: seq<real>) {
    |take| == |levels| && forall i | 0 <= i < |take| :: 0.0 <= take[i] <= levels[i].quantity
  }

  lemma {:induction false} FeasibleSum(levels: seq<Level>, take: seq<real>)
    requires Feasible(levels, take)
    ensures 0.0 <= Sum(take) <= Depth(levels)
  {
    if levels != [] {
      assert 0.0 <= take[0] <= levels[0].quantity;
      assert Feasible(levels[1..], take[1..]);
      FeasibleSum(levels[1..], take[1..]);
    }
  }

  /** Filling more costs at least the first price on the addition. */
  lemma {:induction false} MoreCostsAtLeast(side: OrderSide, levels: seq<Level>, price: real, less: real, more: real)
    requires AllPositive(levels) && 0.0 <= less <= more
    requires forall i | 0 <= i < |levels| :: Signed(side, price) <= Signed(side, levels[i].price)
    ensures Signed(side, Notional(levels, more)) - Signed(side, Notional(levels, less))
         >= Times(Filled(levels, more) - Filled(levels, less), Signed(side, price))
  {
    NothingToWalk(side, levels, less, more, price);
    hide Notional, Filled, Times, Signed;
    if levels != [] {
      var first, tail := levels[0], levels[1..];
      var t, u := Min(less, first.quantity), Min(more, first.quantity);
      forall i | 0 <= i < |tail| ensures Signed(side, price) <= Signed(side, tail[i].price) {
        assert tail[i] == levels[i + 1];
      }
      assert AllPositive(tail);
      MoreCostsAtLeast(side, tail, price, less - t, more - u);
      MoreAtFirst(side, levels, less);
      MoreAtFirst(side, levels, more);
      hide AllPositive;
      AddFirstLevel(Signed(side, price), Signed(side, first.price), t, u,
                    Filled(tail, less - t), Filled(tail, more - u),
                    Signed(side, Notional(tail, less - t)), Signed(side, Notional(tail, more - u)));
    }
  }

  lemma NothingToWalk(side: OrderSide, levels: seq<Level>, less: real, more: real, price: real)
    ensures levels == [] ==> Signed(side, Notional(levels, more)) - Signed(side, Notional(levels, less))
                             >= Times(Filled(levels, more) - Filled(levels, less), Signed(side, price))
  {
    TimesSign(0.0, Signed(side, price));
    hide Times;
  }

  lemma AddFirstLevel(p: real, f: real, t: real, u: real, less: real, more: real, cheap: real, dear: real)
    requires t <= u && p <= f && dear - cheap >= Times(more - less, p)
    ensures (Times(u, f) + dear) - (Times(t, f) + cheap) >= Times((u + more) - (t + less), p)
  {
    assert (u - t) * f >= (u - t) * p;
  }

  lemma MoreAtFirst(side: OrderSide, levels: seq<Level>, quantity: real)
    requires AllPositive(levels) && levels != [] && quantity >= 0.0
    ensures var t := Min(quantity, levels[0].quantity);
            Filled(levels, quantity) == t + Filled(levels[1..], quantity - t)
            && Signed(side, Notional(levels, quantity))
               == Times(t, Signed(side, levels[0].price)) + Signed(side, Notional(levels[1..], quantity - t))
  {
    var t := Min(quantity, levels[0].quantity);
    WalkAtFirst(levels, quantity);
    SignedSum(side, t, levels[0].price, Notional(levels[1..], quantity - t));
    hide Signed, Filled, Notional, Times;
  }

  lemma TailIsWorse(side: OrderSide, levels: seq<Level>)
    requires WellFormed(ConsumedSide(side), levels) && levels != []
    ensures WellFormed(ConsumedSide(side), levels[1..])
    ensures forall i | 0 <= i < |levels| - 1 :: Signed(side, levels[0].price) <= Signed(side, levels[1..][i].price)
  {
    SliceWellFormed(ConsumedSide(side), levels, 1, |levels|);
    assert levels[1..|levels|] == levels[1..];
    forall i | 0 <= i < |levels| - 1 ensures Signed(side, levels[0].price) <= Signed(side, levels[1..][i].price) {
      assert IsBetter(ConsumedSide(side), levels[0].price, levels[i + 1].price);
    }
  }

  lemma CostAtFirst(side: OrderSide, levels: seq<Level>, take: seq<real>)
    requires levels != [] && |take| == |levels|
    ensures Signed(side, Cost(levels, take))
         == Times(take[0], Signed(side, levels[0].price)) + Signed(side, Cost(levels[1..], take[1..]))
  {
    hide Signed, Times;
    SignedSum(side, take[0], levels[0].price, Cost(levels[1..], take[1..]));
  }

  lemma SignedSum(side: OrderSide, t: real, p: real, rest: real)
    ensures Signed(side, Times(t, p) + rest) == Times(t, Signed(side, p)) + Signed(side, rest)
  {
    TimesDistributes(t, 0.0, p);
    TimesSign(t, 0.0);
  }

  lemma ExchangeWithFirst(f: real, t: real, a: real, walked: real, rest: real, walkedCost: real, restCost: real,
                          cost: real)
    requires t + walked == a + rest
    requires restCost <= cost && restCost - walkedCost >= Times(rest - walked, f)
    ensures Times(t, f) + walkedCost <= Times(a, f) + cost
  {
    assert t * f - a * f == (rest - walked) * f;
  }

  /** A feasible taking leaves no less for the later levels than the walk does. */
  lemma FeasibleTakesLaterOrEqually(levels: seq<Level>, quantity: real, take: seq<real>)
    requires AllPositive(levels) && levels != [] && quantity >= 0.0
    requires Feasible(levels, take) && Sum(take) == Filled(levels, quantity)
    ensures var t := Min(quantity, levels[0].quantity);
            Feasible(levels[1..], take[1..]) && Sum(take[1..]) == Filled(levels[1..], Sum(take[1..]))
            && 0.0 <= Filled(levels[1..], quantity - t) <= Sum(take[1..])
            && t + Filled(levels[1..], quantity - t) == take[0] + Sum(take[1..])
  {
    var tail, rest := levels[1..], take[1..];
    assert 0.0 <= take[0] <= levels[0].quantity;
    assert Feasible(tail, rest) && AllPositive(tail);
    FeasibleSum(tail, rest);
    FilledIsMin(tail, Sum(rest));
    FilledIsMin(levels, quantity);
    FilledIsMin(tail, quantity - Min(quantity, levels[0].quantity));
    MoreAtFirst(Buy, levels, quantity);
  }

  /** The walk is optimal: no other way of taking the same quantity from the side is cheaper for
      a buy or dearer for a sell. */
  lemma {:induction false} WalkIsOptimal(side: OrderSide, levels: seq<Level>, quantity: real, take: seq<real>)
    requires WellFormed(ConsumedSide(side), levels) && quantity >= 0.0
    requires Feasible(levels, take) && Sum(take) == Filled(levels, quantity)
    ensures Signed(side, Notional(levels, quantity)) <= Signed(side, Cost(levels, take))
  {
    if levels != [] {
      var first, tail, rest := levels[0], levels[1..], take[1..];
      var s, t := Sum(rest), Min(quantity, first.quantity);
      var walked := Filled(tail, quantity - t);
      TailIsWorse(side, levels);
      FeasibleTakesLaterOrEqually(levels, quantity, take);
      hide Filled, Notional, Cost, Sum, Feasible, Times, Signed;
      WalkIsOptimal(side, tail, s, rest);
      MoreAtFirst(side, levels, quantity);
      FilledAgrees(tail, quantity - t);
      MoreCostsAtLeast(side, tail, first.price, walked, s);
      CostAtFirst(side, levels, take);
      ExchangeWithFirst(Signed(side, first.price), t, take[0], walked, s,
                        Signed(side, Notional(tail, quantity - t)), Signed(side, Notional(tail, s)),
                        Signed(side, Cost(tail, rest)));
    }
  }

  /** Asking for exactly what would be filled fills the same at the same cost. */
  lemma {:induction false} FilledAgrees(levels: seq<Level>, quantity: real)
    requires AllPositive(levels) && quantity >= 0.0
    ensures Notional(levels, Filled(levels, quantity)) == Notional(levels, quantity)
    ensures Filled(levels, Filled(levels, quantity)) == Filled(levels, quantity)
  {
    hide Filled, Notional, Signed, Depth;
    WalkFromNothing(levels);
    if levels != [] && quantity > 0.0 {
      var tail, taken := levels[1..], Min(quantity, levels[0].quantity);
      assert AllPositive(tail);
      FilledAgrees(tail, quantity - taken);
      FilledIsMin(tail, quantity - taken);
      WalkAtFirst(levels, quantity);
      WalkAtFirst(levels, Filled(levels, quantity));
    }
  }

  lemma WalkFromNothing(levels: seq<Level>)
    ensures Filled(levels, 0.0) == 0.0 && Notional(levels, 0.0) == 0.0
    ensures levels == [] ==> forall q :: Filled(levels, q) == 0.0 && Notional(levels, q) == 0.0
  {
  }

  lemma WalkAtFirst(levels: seq<Level>, quantity: real)
    requires AllPositive(levels) && levels != [] && quantity >= 0.0
    ensures var t := Min(quantity, levels[0].quantity);
            && Filled(levels, quantity) == t + Filled(levels[1..], quantity - t)
            && Notional(levels, quantity) == Times(t, levels[0].price) + Notional(levels[1..], quantity - t)
  {
    WalkFromNothing(levels[1..]);
    TimesSign(0.0, levels[0].price);
  }

  /** Everything filled so far cost at most the worst price paid, and everything further costs at
      least that much. */
  lemma {:induction false} ContinuesAtWorst(side: OrderSide, levels: seq<Level>, less: real, more: real)
    requires WellFormed(ConsumedSide(side), levels) && levels != [] && 0.0 < less <= more
    ensures Worst(levels, less).Some?
    ensures Signed(side, levels[0].price) <= Signed(side, Worst(levels, less).value)
    ensures Signed(side, Notional(levels, less)) <= Times(Filled(levels, less), Signed(side, Worst(levels, less).value))
    ensures Signed(side, Notional(levels, more)) - Signed(side, Notional(levels, less))
         >= Times(Filled(levels, more) - Filled(levels, less), Signed(side, Worst(levels, less).value))
  {
    var first, tail := levels[0], levels[1..];
    var t, u := Min(less, first.quantity), Min(more, first.quantity);
    TailIsWorse(side, levels);
    MoreAtFirst(side, levels, less);
    MoreAtFirst(side, levels, more);
    FilledIsMin(tail, 0.0);
    if less - t <= 0.0 || tail == [] {
      assert Notional(tail, less - t) == 0.0 && Filled(tail, less - t) == 0.0 && Worst(tail, less - t) == None;
      forall i | 0 <= i < |levels| ensures Signed(side, first.price) <= Signed(side, levels[i].price) {
        assert i > 0 ==> levels[i] == tail[i - 1];
      }
      hide Filled, Notional, Times;
      MoreCostsAtLeast(side, levels, first.price, less, more);
      assert Signed(side, 0.0) == 0.0;
    } else {
      assert Signed(side, first.price) <= Signed(side, tail[0].price);
      ContinuesAtWorst(side, tail, less - t, more - u);
      assert Worst(levels, less) == Worst(tail, less - t);
      hide Filled, Notional, Worst, Signed;
      var w := Signed(side, Worst(tail, less - t).value);
      PaidAtMost(Signed(side, first.price), w, t, Filled(tail, less - t), Signed(side, Notional(tail, less - t)));
    }
  }

  lemma PaidAtMost(f: real, w: real, t: real, filled: real, cost: real)
    requires t >= 0.0 && f <= w && cost <= Times(filled, w)
    ensures Times(t, f) + cost <= Times(t + filled, w)
  {
    assert t * f <= t * w;
  }

  lemma AveragesCompare(n1: real, f1: real, n2: real, f2: real, w: real)
    requires 0.0 < f1 <= f2 && n1 <= Times(f1, w) && n2 - n1 >= Times(f2 - f1, w)
    ensures n1 / f1 <= n2 / f2
  {
    var a := n1 / f1;
    TimesQuotient(n1, f1);
    TimesCommutes(f1, w);
    QuotientOrder(n1, f1, w);
    TimesGrows(f2 - f1, a, w);
    TimesCommutes(f2 - f1, a);
    TimesCommutes(f1, a);
    TimesDistributes(a, f1, f2 - f1);
    QuotientOrder(n2, f2, a);
    hide Times;
    assert f1 + (f2 - f1) == f2;
  }

  lemma SignedQuotient(side: OrderSide, n: real, f: real)
    requires f > 0.0
    ensures Signed(side, n / f) == Signed(side, n) / f
  {
  }

  lemma AverageOnLevels(side: OrderSide, levels: seq<Level>, less: real, more: real)
    requires WellFormed(ConsumedSide(side), levels) && levels != [] && 0.0 < less <= more
    ensures 0.0 < Filled(levels, less) <= Filled(levels, more)
    ensures Signed(side, Notional(levels, less) / Filled(levels, less))
         <= Signed(side, Notional(levels, more) / Filled(levels, more))
  {
    FilledIsMin(levels, less);
    FilledIsMin(levels, more);
    FilledIsMin(levels[1..], 0.0);
    ContinuesAtWorst(side, levels, less, more);
    TouchBoundsAverage(side, levels, less);
    TouchBoundsAverage(side, levels, more);
    SignedQuotient(side, Notional(levels, less), Filled(levels, less));
    SignedQuotient(side, Notional(levels, more), Filled(levels, more));
    hide Notional, Filled, Worst, Times, Signed;
    AveragesCompare(Signed(side, Notional(levels, less)), Filled(levels, less),
                    Signed(side, Notional(levels, more)), Filled(levels, more),
                    Signed(side, Worst(levels, less).value));
  }

  lemma NoBetterThanTouch(side: OrderSide, average: real, touch: real)
    requires touch > 0.0 && Signed(side, touch) <= Signed(side, average)
    ensures SlippageBps(side, Some(average), Some(touch)).Some?
            && SlippageBps(side, Some(average), Some(touch)).value >= 0.0
  {
  }

  /** A larger order never gets a better average price, and no order beats the touch. */
  lemma {:induction false} AverageNeverImproves(book: Book, side: OrderSide, less: real, more: real)
    requires book.Valid() && 0.0 < less <= more && book.Levels(ConsumedSide(side)) != []
    ensures WalkFill(book, side, less).average.Some? && WalkFill(book, side, more).average.Some?
    ensures Signed(side, WalkFill(book, side, less).average.value) <= Signed(side, WalkFill(book, side, more).average.value)
    ensures WalkFill(book, side, more).slippageVsTouch.Some? && WalkFill(book, side, more).slippageVsTouch.value >= 0.0
  {
    var levels := book.Levels(ConsumedSide(side));
    AverageOnLevels(side, levels, less, more);
    var average := Notional(levels, more) / Filled(levels, more);
    TouchBoundsAverage(side, levels, more);
    SignedQuotient(side, Notional(levels, more), Filled(levels, more));
    NoBetterThanTouch(side, average, levels[0].price);
    hide Notional, Filled, Worst, Touched, Signed, SlippageBps;
  }

  lemma TouchBoundsAverage(side: OrderSide, levels: seq<Level>, quantity: real)
    requires WellFormed(ConsumedSide(side), levels) && levels != [] && quantity > 0.0
    ensures Filled(levels, quantity) > 0.0
    ensures Signed(side, levels[0].price) <= Signed(side, Notional(levels, quantity)) / Filled(levels, quantity)
  {
    FilledIsMin(levels, quantity);
    FilledIsMin(levels, 0.0);
    FilledIsMin(levels[1..], 0.0);
    TailIsWorse(side, levels);
    forall i | 0 <= i < |levels| ensures Signed(side, levels[0].price) <= Signed(side, levels[i].price) {
      assert i > 0 ==> levels[i] == levels[1..][i - 1];
    }
    MoreCostsAtLeast(side, levels, levels[0].price, 0.0, quantity);
    assert Notional(levels, 0.0) == 0.0;
    AtLeast(Signed(side, Notional(levels, quantity)), Filled(levels, quantity), Signed(side, levels[0].price));
  }

  lemma AtLeast(n: real, f: real, p: real)
    requires f > 0.0 && n >= Times(f, p)
    ensures n / f >= p
  {
    assert n / f - p == (n - f * p) / f;
  }

  // ---------------------------------------------------------------- the two loops

  /** What the walk's variables hold once the first `i` levels have been taken. */
  ghost predicate WalkedTo(levels: seq<Level>, quantity: real, i: nat, remaining: real, filled: real, notional: real,
                           worst: Option<real>, consumed: seq<Level>)
  {
    && i <= |levels| && remaining == quantity - filled
    && filled + Filled(levels[i..], remaining) == Filled(levels, quantity)
    && notional + Notional(levels[i..], remaining) == Notional(levels, quantity)
    && i + Touched(levels[i..], remaining) == Touched(levels, quantity)
    && consumed + Remainders(levels[i..], remaining) == Remainders(levels, quantity)
    && Worst(levels, quantity) == if Worst(levels[i..], remaining).Some? then Worst(levels[i..], remaining) else worst
  }

  lemma WalkBegins(levels: seq<Level>, quantity: real)
    ensures WalkedTo(levels, quantity, 0, quantity, 0.0, 0.0, None, [])
  {
    assert levels[0..] == levels;
  }

  lemma WalkOn(levels: seq<Level>, quantity: real, i: nat, remaining: real, filled: real, notional: real,
               worst: Option<real>, consumed: seq<Level>)
    requires i < |levels| && remaining > 0.0
    requires WalkedTo(levels, quantity, i, remaining, filled, notional, worst, consumed)
    ensures var level := levels[i]; var taken := Min(remaining, level.quantity);
            WalkedTo(levels, quantity, i + 1, remaining - taken, filled + taken, notional + Times(taken, level.price),
                     Some(level.price), consumed + [Level(level.price, level.quantity - taken)])
  {
    var level := levels[i];
    var taken := Min(remaining, level.quantity);
    assert levels[i..][1..] == levels[i + 1..] && levels[i..][0] == level;
    var rest := Remainders(levels[i + 1..], remaining - taken);
    assert consumed + ([Level(level.price, level.quantity - taken)] + rest)
        == (consumed + [Level(level.price, level.quantity - taken)]) + rest;
  }

  lemma WalkEnds(levels: seq<Level>, quantity: real, i: nat, remaining: real, filled: real, notional: real,
                 worst: Option<real>, consumed: seq<Level>)
    requires WalkedTo(levels, quantity, i, remaining, filled, notional, worst, consumed)
    requires i == |levels| || remaining <= 0.0
    ensures filled == Filled(levels, quantity) && notional == Notional(levels, quantity)
    ensures i == Touched(levels, quantity) && consumed == Remainders(levels, quantity) && worst == Worst(levels, quantity)
  {
  }

  /** The source's `walk`: one pass over the consumed side, noting what is left of each level. */
  method Walk(book: Book, side: OrderSide, quantity: Double)
    returns (fill: Result<Fill, OrderError>, consumed: seq<Level>)
    ensures fill == SimulateMarketOrder(book, side, quantity)
    ensures fill.Ok? ==> consumed == Remainders(book.Levels(ConsumedSide(side)), quantity.value)
  {
    consumed := [];
    if quantity.NonFinite? || quantity.value <= 0.0 {
      return Err(BadOrderQuantity), consumed;
    }
    var levels := book.Levels(ConsumedSide(side));
    var remaining, filled, notional := quantity.value, 0.0, 0.0;
    var worst: Option<real> := None;
    var i := 0;
    WalkBegins(levels, quantity.value);
    hide WalkedTo, Filled, Notional, Touched, Worst, Remainders, Report, Times;
    while i < |levels| && remaining > 0.0
      invariant 0 <= i <= |levels|
      invariant remaining == quantity.value - filled
      invariant WalkedTo(levels, quantity.value, i, remaining, filled, notional, worst, consumed)
    {
      WalkOn(levels, quantity.value, i, remaining, filled, notional, worst, consumed);
      var level := levels[i];
      var taken := if remaining < level.quantity then remaining else level.quantity;
      notional := notional + Times(taken, level.price);
      filled := filled + taken;
      worst := Some(level.price);
      remaining := remaining - taken;
      consumed := consumed + [Level(level.price, level.quantity - taken)];
      i := i + 1;
    }
    WalkEnds(levels, quantity.value, i, remaining, filled, notional, worst, consumed);
    fill := Ok(Report(book, side, quantity.value, filled, notional, worst, i));
  }

  /** Consuming the book applies each remainder as an ordinary level update; together they leave
      the depleted side and nothing else changed. */
  method ExecuteMarketOrder(book: LiveBook, side: OrderSide, quantity: Double) returns (fill: Result<Fill, OrderError>)
    requires book.View().Valid()
    modifies book
    ensures fill == SimulateMarketOrder(old(book.View()), side, quantity)
    ensures fill.Err? ==> book.View() == old(book.View())
    ensures fill.Ok? ==> book.View() == AfterOrder(old(book.View()), side, quantity.value)
    ensures book.View().Valid()
  {
    hide Remainders, WalkFill, Validate, Depleted, Updated, WellFormed, AllPositive, Book.Valid;
    var consumed;
    ConsumableSide(book.View(), side);
    fill, consumed := Walk(book.View(), side, quantity);
    if fill.Err? {
      return;
    }
    ghost var before := book.View();
    ghost var levels := before.Levels(ConsumedSide(side));
    RemaindersCount(levels, quantity.value);
    DepletedIsWellFormed(ConsumedSide(side), levels, quantity.value);
    for i := 0 to |consumed|
      invariant book.View().Valid()
      invariant |consumed| <= |levels|
      invariant book.View()
             == before.With(ConsumedSide(side), if i < |consumed| then levels[i..] else Depleted(levels, quantity.value))
    {
      RemainderStep(ConsumedSide(side), levels, quantity.value, i);
      LevelApplied(book.View(), ConsumedSide(side), consumed[i]);
      hide ApplyLevel;
      var error := book.Apply(ConsumedSide(side), Num(consumed[i].price), Num(consumed[i].quantity));
    }
  }

  lemma ConsumableSide(book: Book, side: OrderSide)
    requires book.Valid()
    ensures WellFormed(ConsumedSide(side), book.Levels(ConsumedSide(side))) && AllPositive(book.Levels(ConsumedSide(side)))
  {
  }

  lemma LevelApplied(book: Book, side: Side, level: Level)
    requires level.price > 0.0 && level.quantity >= 0.0
    ensures Validate(Num(level.price), Num(level.quantity)).None?
    ensures ApplyLevel(book, side, Num(level.price), Num(level.quantity))
         == Ok(book.With(side, Updated(side, book.Levels(side), level.price, level.quantity)))
  {
    hide Updated;
  }

  lemma {:induction false} RemaindersCount(levels: seq<Level>, quantity: real)
    ensures |Remainders(levels, quantity)| <= |levels|
    ensures Remainders(levels, quantity) == [] ==> Depleted(levels, quantity) == levels
  {
    if levels != [] && quantity > 0.0 {
      RemaindersCount(levels[1..], quantity - Min(quantity, levels[0].quantity));
    }
  }

  lemma FirstRemainder(side: Side, levels: seq<Level>, quantity: real)
    requires WellFormed(side, levels) && levels != [] && quantity > 0.0
    ensures var rest := Remainders(levels, quantity);
            && rest != [] && rest[0].price == levels[0].price && rest[0].quantity >= 0.0
            && rest[1..] == Remainders(levels[1..], quantity - Min(quantity, levels[0].quantity))
            && (|rest| > 1 ==> quantity > levels[0].quantity)
            && Updated(side, levels, rest[0].price, rest[0].quantity)
               == if |rest| > 1 then levels[1..] else Depleted(levels, quantity)
  {
    var rest := Remainders(levels, quantity);
    var tail := levels[1..];
    assert Remainders(tail, 0.0) == [];
    FrontReplaced(side, levels, rest[0].quantity);
    hide Updated, WellFormed;
  }

  lemma FrontReplaced(side: Side, levels: seq<Level>, quantity: real)
    requires levels != []
    ensures Updated(side, levels, levels[0].price, quantity) == Single(levels[0].price, quantity) + levels[1..]
  {
    hide Single;
    assert Rank(side, levels, levels[0].price) == 0 && AtRank(side, levels, levels[0].price);
  }

  /** Each remainder is applied to what the earlier ones left: the rest of the side, and after
      the last one the depleted side. */
  lemma {:induction false} RemainderStep(side: Side, levels: seq<Level>, quantity: real, i: nat)
    requires WellFormed(side, levels) && i < |Remainders(levels, quantity)| <= |levels|
    ensures var rest := Remainders(levels, quantity);
            && rest[i].price == levels[i].price && rest[i].quantity >= 0.0
            && Updated(side, levels[i..], rest[i].price, rest[i].quantity)
               == if i + 1 < |rest| then levels[i + 1..] else Depleted(levels, quantity)
  {
    NoRemainder(levels, quantity);
    hide Depleted, Remainders, Updated, WellFormed;
    FirstRemainder(side, levels, quantity);
    assert levels[0..] == levels;
    if i > 0 {
      var tail, left := levels[1..], quantity - levels[0].quantity;
      BeyondFirst(side, levels, quantity);
      RemainderStep(side, tail, left, i - 1);
      assert tail[i - 1..] == levels[i..] && tail[i..] == levels[i + 1..];
    }
  }

  lemma NoRemainder(levels: seq<Level>, quantity: real)
    ensures Remainders(levels, quantity) != [] ==> levels != [] && quantity > 0.0
  {
  }

  lemma BeyondFirst(side: Side, levels: seq<Level>, quantity: real)
    requires WellFormed(side, levels) && levels != [] && quantity > levels[0].quantity
    ensures WellFormed(side, levels[1..])
    ensures Depleted(levels, quantity) == Depleted(levels[1..], quantity - levels[0].quantity)
    ensures |Remainders(levels[1..], quantity - levels[0].quantity)| <= |levels[1..]|
  {
    SliceWellFormed(side, levels, 1, |levels|);
    RemaindersCount(levels[1..], quantity - levels[0].quantity);
    assert levels[1..|levels|] == levels[1..];
    hide Remainders;
  }
}
