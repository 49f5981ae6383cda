/** Profit-optimal sizing over whole lots, inside the limits and behind the entry gate. */
module Sizing {
  import opened Wrappers
  import opened Reals
  import opened Clock
  import opened Carry
  import opened Costs

  datatype SizingInputs = SizingInputs(
    symbol: string, observedAt: int, validUntil: int, price: real, advBase: real, advEnd: int,
    quantityStep: real, minQuantity: real, minNotional: real, maxNotional: real, maxAdvFraction: real,
    validatedQuantity: real, metadataFrom: int, metadataUntil: int) {
    /** Among what the constructor enforces: the 30 days before `advEnd` are whole UTC days since the epoch. */
    predicate Valid() {
      advEnd % DAY_MS == 0 && advEnd >= 30 * DAY_MS && 0 <= metadataFrom < metadataUntil
      && price > 0.0 && advBase > 0.0 && maxNotional > 0.0 && maxAdvFraction > 0.0 && validatedQuantity > 0.0
      && minNotional >= 0.0 && quantityStep > 0.0 && minQuantity >= 0.0 && observedAt >= 0 && observedAt < validUntil
    }
  }

  /** Everything a sizing call is asked about. */
  datatype Ask = Ask(
    strategy: Strategy, now: int, forecast: Option<Forecast>, approval: Option<Approval>,
    market: SizingInputs, curve: ImpactCurve, charges: Charges) {
    predicate Valid() {
      strategy.policy.Valid() && market.Valid() && curve.Valid() && charges.Valid() && now >= 0
    }
  }

  datatype BreakEven = Unavailable | NoFiniteRoot | BelowSupport | AboveSupport | WithinSupport

  datatype Limit = EntryGate | ModelSupport | ValidatedDepth | MaxAdv | MaxNotional

  datatype SizingResult = SizingResult(
    quantity: real, notional: real, fraction: real, expectedNet: real, marginal: Option<real>, decision: Decision,
    estimate: Option<CostEstimate>, feasibleMaxFraction: Option<real>, breakEven: Option<real>, status: BreakEven,
    binding: set<Limit>, feasibleMaxNotional: Option<real>, breakEvenNotional: Option<real>)

  function Empty(decision: Decision): SizingResult {
    SizingResult(0.0, 0.0, 0.0, 0.0, None, decision, None, None, None, Unavailable, {}, None, None)
  }

  function Refused(reason: Reason): SizingResult {
    Empty(Decision(Wait, reason, None, None))
  }

  // ---------------------------------------------------------------- lots

  function Ceiling(x: real): int {
    -((-x).Floor)
  }

  function Bound(a: Ask, limit: Limit): real
    requires a.Valid()
  {
    match limit
    case ModelSupport => Times(a.curve.sizeMax, a.market.advBase)
    case ValidatedDepth => a.market.validatedQuantity
    case MaxAdv => Times(a.market.maxAdvFraction, a.market.advBase)
    case _ => a.market.maxNotional / a.market.price
  }

  function Upper(a: Ask): real
    requires a.Valid()
  {
    Min(Min(Min(Bound(a, ModelSupport), Bound(a, ValidatedDepth)), Bound(a, MaxAdv)), Bound(a, MaxNotional))
  }

  function Lower(a: Ask): real
    requires a.Valid()
  {
    Max(Max(Times(a.curve.sizeMin, a.market.advBase), a.market.minQuantity), a.market.minNotional / a.market.price)
  }

  function First(a: Ask): int
    requires a.Valid()
  {
    var n := Ceiling(Lower(a) / a.market.quantityStep);
    if n > 1 then n else 1
  }

  function Last(a: Ask): int
    requires a.Valid()
  {
    (Upper(a) / a.market.quantityStep).Floor
  }

  function Quantity(a: Ask, lots: int): real {
    Times(lots as real, a.market.quantityStep)
  }

  /** A whole positive number of lots no limit forbids: enough for the impact model's support and
      the venue's minima, and within the support, the validated depth, the share of daily volume
      and the notional allowed. */
  predicate InLimits(a: Ask, lots: int)
    requires a.Valid()
  {
    var quantity, adv := Times(lots as real, a.market.quantityStep), a.market.advBase;
    && lots >= 1
    && Times(a.curve.sizeMin, adv) <= quantity <= Times(a.curve.sizeMax, adv)
    && a.market.minQuantity <= quantity <= a.market.validatedQuantity
    && quantity <= Times(a.market.maxAdvFraction, adv)
    && a.market.minNotional <= Times(quantity, a.market.price) <= a.market.maxNotional
  }

  /** The bounds computed in lots admit exactly the lots inside the limits. */
  lemma {:induction false} LotsAreLimits(a: Ask, lots: int)
    requires a.Valid()
    ensures First(a) <= lots <= Last(a) <==> InLimits(a, lots)
  {
    QuotientOrder(Lower(a), a.market.quantityStep, lots as real);
    QuotientOrder(Upper(a), a.market.quantityStep, lots as real);
    QuotientOrder(a.market.minNotional, a.market.price, Quantity(a, lots));
    QuotientOrder(a.market.maxNotional, a.market.price, Quantity(a, lots));
    hide Times;
  }

  // ---------------------------------------------------------------- one quote

  predicate Admissible(a: Ask) {
    a.market.symbol == a.strategy.symbol && a.curve.symbol == a.strategy.symbol
    && a.market.observedAt <= a.now < a.market.validUntil && a.market.advEnd == a.now / DAY_MS * DAY_MS
    && a.market.metadataFrom <= a.now < a.market.metadataUntil
    && a.curve.admittedAt <= a.now && a.curve.evidenceEnd <= a.now
  }

  function Fraction(a: Ask, lots: int): real
    requires a.Valid()
  {
    Quantity(a, lots) / a.market.advBase
  }

  function Notional(a: Ask, lots: int): real {
    Times(Quantity(a, lots), a.market.price)
  }

  function Estimate(root: real -> real, a: Ask, lots: int): Result<CostEstimate, CostError>
    requires a.Valid()
  {
    FromCurve(root, a.curve, a.now, a.market.validUntil, Notional(a, lots), Fraction(a, lots),
              a.strategy.policy.horizon, a.charges)
  }

  function DecisionAt(root: real -> real, a: Ask, lots: int): Decision
    requires a.Valid() && Estimate(root, a, lots).Ok?
  {
    Decide(a.strategy, a.now, a.forecast, Some(Estimate(root, a, lots).value), a.approval, None).value
  }

  predicate Enters(root: real -> real, a: Ask, lots: int)
    requires a.Valid()
  {
    Estimate(root, a, lots).Ok? && DecisionAt(root, a, lots).action == Enter
  }

  /** Expected gain of entering with this many lots. */
  function Profit(root: real -> real, a: Ask, lots: int): real
    requires a.Valid() && Enters(root, a, lots)
  {
    Times(Notional(a, lots), DecisionAt(root, a, lots).edge.value)
  }

  /** Inside the limits a quote never leaves the impact model's support. */
  lemma {:induction false} QuoteIsSupported(root: real -> real, a: Ask, lots: int)
    requires a.Valid() && Admissible(a) && InLimits(a, lots)
    ensures Estimate(root, a, lots).Ok?
    ensures a.curve.sizeMin <= Fraction(a, lots) <= a.curve.sizeMax && Fraction(a, lots) > 0.0 && Notional(a, lots) > 0.0
  {
    var adv := a.market.advBase;
    QuotientOrder(Quantity(a, lots), adv, a.curve.sizeMin);
    QuotientOrder(Quantity(a, lots), adv, a.curve.sizeMax);
    TimesPositive(lots as real, a.market.quantityStep);
    TimesPositive(Quantity(a, lots), a.market.price);
    hide Times;
  }

  lemma FractionGrows(a: Ask, j: int, k: int)
    requires a.Valid() && j <= k
    ensures Fraction(a, j) <= Fraction(a, k)
  {
    TimesGrows(a.market.quantityStep, j as real, k as real);
    assert Times(a.market.quantityStep, j as real) == Quantity(a, j);
    assert Times(a.market.quantityStep, k as real) == Quantity(a, k);
    QuotientGrows(Quantity(a, j), Quantity(a, k), a.market.advBase);
  }

  /** If a lot count passes the gate, so does every smaller one inside the limits. */
  lemma {:induction false} GateIsMonotone(root: real -> real, a: Ask, j: int, k: int)
    requires IsRoot(root) && a.Valid() && Admissible(a) && InLimits(a, j) && InLimits(a, k) && j <= k
    requires Enters(root, a, k)
    ensures Enters(root, a, j)
  {
    QuoteIsSupported(root, a, j);
    QuoteIsSupported(root, a, k);
    FractionGrows(a, j, k);
    ImpactGrows(root, a.curve, Fraction(a, j), Fraction(a, k));
    HurdleAt(root, a, j);
    HurdleAt(root, a, k);
    hide FromCurve, Hurdle, IsRoot, Times, InLimits;
    SameEvidenceAt(root, a, j, k);
    CheaperStillEnters(a.strategy, a.now, a.forecast, Estimate(root, a, j).value, Estimate(root, a, k).value, a.approval);
  }

  lemma HurdleAt(root: real -> real, a: Ask, lots: int)
    requires a.Valid() && Estimate(root, a, lots).Ok?
    ensures Hurdle(Estimate(root, a, lots).value, false)
         == a.charges.FixedFraction() + Times(a.curve.RoundTrip(), root(Fraction(a, lots)))
  {
    hide FromCurve, Hurdle, Times;
    HurdleIsFixedPlusImpact(root, a.curve, a.now, a.market.validUntil, Notional(a, lots), Fraction(a, lots),
                            a.strategy.policy.horizon, a.charges);
  }

  lemma SameEvidenceAt(root: real -> real, a: Ask, j: int, k: int)
    requires a.Valid() && Estimate(root, a, j).Ok? && Estimate(root, a, k).Ok?
    ensures SameEvidence(Estimate(root, a, j).value, Estimate(root, a, k).value)
  {
    hide Times;
  }

  // ---------------------------------------------------------------- the shape of the profit

  /** Edge before impact. */
  function Edge(a: Ask): real
    requires HasSample(a.forecast)
  {
    Mean(a.forecast.value.samples) - a.charges.FixedFraction()
  }

  /** Profit per unit of scale at a square-root size `s`: s^2 (edge - c s). */
  function Shape(edge: real, c: real, s: real): real {
    Times(Times(s, s), edge - Times(c, s))
  }

  lemma {:induction false} ProfitIsShape(root: real -> real, a: Ask, lots: int)
    requires IsRoot(root) && a.Valid() && Enters(root, a, lots) && Fraction(a, lots) >= 0.0
    ensures HasSample(a.forecast)
    ensures Profit(root, a, lots)
         == Times(Times(a.market.advBase, a.market.price), Shape(Edge(a), a.curve.RoundTrip(), root(Fraction(a, lots))))
    ensures DecisionAt(root, a, lots).edge.value == Edge(a) - Times(a.curve.RoundTrip(), root(Fraction(a, lots))) > 0.0
  {
    ActingIsProfitable(a.strategy, a.now, a.forecast, Some(Estimate(root, a, lots).value), a.approval, None);
    HurdleAt(root, a, lots);
    var s := root(Fraction(a, lots));
    assert Times(s, s) == Fraction(a, lots);
    var edge := DecisionAt(root, a, lots).edge.value;
    EdgeIsMeanOverHurdle(root, a, lots);
    hide FromCurve, Hurdle, IsRoot, Decide, Mean;
    ScaleOut(Quantity(a, lots), a.market.advBase, a.market.price, edge);
  }

  lemma EdgeIsMeanOverHurdle(root: real -> real, a: Ask, lots: int)
    requires a.Valid() && Enters(root, a, lots)
    ensures HasSample(a.forecast)
    ensures DecisionAt(root, a, lots).edge
         == Some(Mean(a.forecast.value.samples) - Hurdle(Estimate(root, a, lots).value, false))
  {
    hide FromCurve, Hurdle, Mean, Probability;
  }

  lemma ScaleOut(q: real, adv: real, price: real, edge: real)
    requires adv > 0.0
    ensures Times(Times(q, price), edge) == Times(Times(adv, price), Times(q / adv, edge))
  {
    var f := q / adv;
    assert q == f * adv;
    assert q * price * edge == adv * price * (f * edge);
  }

  /** What is left of the slope between `a` and `b`. */
  function Slope(edge: real, c: real, a: real, b: real): real {
    Times(edge, a + b) - Times(a, Times(c, a)) - Times(a, Times(c, b)) - Times(b, Times(c, b))
  }

  lemma ShapeDifference(edge: real, c: real, a: real, b: real)
    ensures Shape(edge, c, b) - Shape(edge, c, a) == Times(b - a, Slope(edge, c, a, b))
    ensures Times(a, Times(c, b)) == Times(b, Times(c, a))
  {
    assert b * b * (edge - c * b) - a * a * (edge - c * a)
        == (b - a) * (edge * (a + b) - a * (c * a) - a * (c * b) - b * (c * b));
  }

  /** With `t` two thirds of the edge, the edge's own terms against a third of its spread. */
  lemma TwoThirds(edge: real, a: real, b: real)
    ensures var t := edge * 2.0 / 3.0;
            && Times(edge, a + b) - Times(a, t) - Times(a, t) - Times(b, t) == Times(b - a, edge / 3.0)
            && Times(edge, a + b) - Times(a, t) - Times(b, t) - Times(b, t) == -Times(b - a, edge / 3.0)
  {
  }

  /** Below two thirds of edge over cost, more is better; above it, less is. */
  lemma ShapeRises(edge: real, c: real, a: real, b: real)
    requires edge >= 0.0 && c >= 0.0 && 0.0 <= a <= b && 1.5 * Times(c, b) <= edge
    ensures Shape(edge, c, a) <= Shape(edge, c, b)
  {
    var t := edge * 2.0 / 3.0;
    ShapeDifference(edge, c, a, b);
    TwoThirds(edge, a, b);
    TimesGrows(c, a, b);
    TimesGrows(a, Times(c, a), t);
    TimesGrows(a, Times(c, b), t);
    TimesGrows(b, Times(c, b), t);
    TimesSign(b - a, edge / 3.0);
    TimesSign(b - a, Slope(edge, c, a, b));
    hide Times, Shape;
  }

  lemma ShapeFalls(edge: real, c: real, a: real, b: real)
    requires edge >= 0.0 && c >= 0.0 && 0.0 <= a <= b && 1.5 * Times(c, a) >= edge
    ensures Shape(edge, c, a) >= Shape(edge, c, b)
  {
    var t := edge * 2.0 / 3.0;
    ShapeDifference(edge, c, a, b);
    TwoThirds(edge, a, b);
    TimesGrows(c, a, b);
    TimesGrows(a, t, Times(c, a));
    TimesGrows(b, t, Times(c, a));
    TimesGrows(b, t, Times(c, b));
    TimesSign(b - a, edge / 3.0);
    TimesSign(b - a, Slope(edge, c, a, b));
    hide Times, Shape;
  }

  // ---------------------------------------------------------------- the optimum

  /** The last lot count the gate admits, all smaller ones being admitted too. */
  ghost predicate IsFeasibleLast(root: real -> real, a: Ask, last: int)
    requires a.Valid()
  {
    InLimits(a, last) && (forall k | InLimits(a, k) :: Enters(root, a, k) <==> k <= last)
  }

  /** No admitted lot count inside the limits is expected to gain more. */
  ghost predicate IsBest(root: real -> real, a: Ask, lots: int)
    requires a.Valid()
  {
    InLimits(a, lots) && Enters(root, a, lots)
    && forall k | InLimits(a, k) && Enters(root, a, k) :: Profit(root, a, k) <= Profit(root, a, lots)
  }

  /** The square-root size at which the profit stops rising. */
  function Peak(edge: real, c: real): real
    requires c > 0.0
  {
    edge / (1.5 * c)
  }

  /** The lot count at or just below the peak, or the last feasible one if the peak is beyond it. */
  function Target(root: real -> real, a: Ask, last: int, edge: real): int
    requires a.Valid()
  {
    var c := a.curve.RoundTrip();
    if c <= 0.0 || edge >= 1.5 * Times(c, root(Fraction(a, last))) then last
    else
      var peak := Peak(edge, c);
      (Times(Times(peak, peak), a.market.advBase) / a.market.quantityStep).Floor
  }

  function Clamp(low: int, high: int, x: int): int {
    var y := if x < high then x else high;
    if y > low then y else low
  }

  lemma PeakIsPeak(edge: real, c: real, s: real)
    requires c > 0.0
    ensures s <= Peak(edge, c) <==> 1.5 * Times(c, s) <= edge
  {
    QuotientOrder(edge, 1.5 * c, s);
    assert Times(s, 1.5 * c) == 1.5 * Times(c, s);
  }

  /** Up to the target the profit rises with size, and beyond it it falls. */
  lemma {:induction false} TargetSplits(root: real -> real, a: Ask, last: int, edge: real, k: int)
    requires IsRoot(root) && a.Valid() && InLimits(a, k) && k <= last && edge >= 0.0 && Fraction(a, k) >= 0.0
    ensures k <= Target(root, a, last, edge) ==> 1.5 * Times(a.curve.RoundTrip(), root(Fraction(a, k))) <= edge
    ensures k > Target(root, a, last, edge) ==> 1.5 * Times(a.curve.RoundTrip(), root(Fraction(a, k))) >= edge
  {
    var c := a.curve.RoundTrip();
    var s := root(Fraction(a, k));
    if c <= 0.0 {
      NoCost(c, s);
    } else if edge >= 1.5 * Times(c, root(Fraction(a, last))) {
      FractionGrows(a, k, last);
      ImpactGrows(root, a.curve, Fraction(a, k), Fraction(a, last));
    } else {
      var peak := Peak(edge, c);
      var lots := Times(Times(peak, peak), a.market.advBase) / a.market.quantityStep;
      PeakIsPeak(edge, c, s);
      PeakIsPeak(edge, c, peak);
      PeakIsPeak(edge, c, 0.0);
      assert Times(c, 0.0) == 0.0;
      QuotientOrder(Times(Times(peak, peak), a.market.advBase), a.market.quantityStep, k as real);
      QuotientOrder(Quantity(a, k), a.market.advBase, Times(peak, peak));
      RootGrows(root, Fraction(a, k), Times(peak, peak));
      SquareIsNonnegative(peak);
      RootOfSquare(root, peak);
      RootGrows(root, Times(peak, peak), Fraction(a, k));
      FloorSplits(lots, k);
      BeyondPeak(edge, c, s, peak);
      hide Times, Peak, Upper, Lower;
    }
  }

  lemma NoCost(c: real, s: real)
    ensures c == 0.0 ==> Times(c, s) == 0.0
  {
  }

  lemma FloorSplits(x: real, k: int)
    ensures k <= x.Floor <==> k as real <= x
  {
  }

  lemma BeyondPeak(edge: real, c: real, s: real, peak: real)
    requires c > 0.0 && peak == Peak(edge, c)
    ensures s >= peak ==> 1.5 * Times(c, s) >= edge
  {
    QuotientOrder(edge, 1.5 * c, s);
    assert Times(s, 1.5 * c) == 1.5 * Times(c, s);
  }

  /** More of the shape is more profit. */
  lemma ProfitOrder(root: real -> real, a: Ask, j: int, k: int)
    requires IsRoot(root) && a.Valid() && Enters(root, a, j) && Enters(root, a, k)
    requires Fraction(a, j) >= 0.0 && Fraction(a, k) >= 0.0
    ensures HasSample(a.forecast)
    ensures var c := a.curve.RoundTrip();
            Shape(Edge(a), c, root(Fraction(a, j))) <= Shape(Edge(a), c, root(Fraction(a, k)))
            ==> Profit(root, a, j) <= Profit(root, a, k)
  {
    ProfitIsShape(root, a, j);
    ProfitIsShape(root, a, k);
    hide Profit, Shape, Edge, IsRoot, Enters;
    TimesPositive(a.market.advBase, a.market.price);
    var c := a.curve.RoundTrip();
    var x, y := Shape(Edge(a), c, root(Fraction(a, j))), Shape(Edge(a), c, root(Fraction(a, k)));
    if x <= y {
      TimesGrows(Times(a.market.advBase, a.market.price), x, y);
    }
  }

  /** One of the two lot counts around the target is at least as good as any admitted one. */
  lemma {:induction false} CandidatesDominate(root: real -> real, a: Ask, first: int, last: int, j: int)
    requires IsRoot(root) && a.Valid() && Admissible(a) && IsFeasibleLast(root, a, last) && first == First(a)
    requires InLimits(a, j) && Enters(root, a, j)
    ensures HasSample(a.forecast)
    ensures var target := Target(root, a, last, Edge(a));
            var x, y := Clamp(first, last, target), Clamp(first, last, target + 1);
            && InLimits(a, x) && Enters(root, a, x) && InLimits(a, y) && Enters(root, a, y)
            && Profit(root, a, j) <= (if j <= target then Profit(root, a, x) else Profit(root, a, y))
  {
    hide Target, Profit, Shape, Edge, IsFeasibleLast, InLimits, Times, Enters, IsRoot;
    QuoteIsSupported(root, a, j);
    ProfitIsShape(root, a, j);
    EdgeIsPositive(root, a, j);
    var target := Target(root, a, last, Edge(a));
    var k := if j <= target then Clamp(first, last, target) else Clamp(first, last, target + 1);
    ClampInLimits(root, a, first, last, target);
    ClampInLimits(root, a, first, last, target + 1);
    LotsAreLimits(a, j);
    EnteringIsFeasible(root, a, last, j);
    QuoteIsSupported(root, a, k);
    TargetSplits(root, a, last, Edge(a), j);
    TargetSplits(root, a, last, Edge(a), k);
    ProfitOrder(root, a, j, k);
    ProfitOrder(root, a, k, j);
    var sj, sk, c := root(Fraction(a, j)), root(Fraction(a, k)), a.curve.RoundTrip();
    RootIsNonnegative(root, Fraction(a, j));
    RootIsNonnegative(root, Fraction(a, k));
    if j <= target {
      FractionGrows(a, j, k);
      RootGrows(root, Fraction(a, j), Fraction(a, k));
      ShapeRises(Edge(a), c, sj, sk);
    } else {
      FractionGrows(a, k, j);
      RootGrows(root, Fraction(a, k), Fraction(a, j));
      ShapeFalls(Edge(a), c, sk, sj);
    }
  }

  lemma EnteringIsFeasible(root: real -> real, a: Ask, last: int, j: int)
    requires a.Valid() && IsFeasibleLast(root, a, last) && InLimits(a, j) && Enters(root, a, j)
    ensures j <= last
  {
    hide InLimits, Enters;
  }

  lemma RootIsNonnegative(root: real -> real, x: real)
    requires IsRoot(root) && x >= 0.0
    ensures root(x) >= 0.0
  {
  }

  lemma EdgeIsPositive(root: real -> real, a: Ask, j: int)
    requires IsRoot(root) && a.Valid() && Enters(root, a, j) && Fraction(a, j) >= 0.0
    ensures HasSample(a.forecast)
    ensures Edge(a) > 0.0
  {
    ProfitIsShape(root, a, j);
    TimesSign(a.curve.RoundTrip(), root(Fraction(a, j)));
    hide Enters, Profit, Times, Shape, DecisionAt;
  }

  lemma ClampInLimits(root: real -> real, a: Ask, first: int, last: int, x: int)
    requires a.Valid() && IsFeasibleLast(root, a, last) && first == First(a)
    ensures InLimits(a, Clamp(first, last, x)) && Enters(root, a, Clamp(first, last, x))
    ensures first <= Clamp(first, last, x) <= last
  {
    LotsAreLimits(a, last);
    LotsAreLimits(a, Clamp(first, last, x));
    hide InLimits, Enters;
  }

  // ---------------------------------------------------------------- break-even

  function Square(x: real): real {
    Times(x, x)
  }

  /** The size at which impact eats the whole edge, and where it falls against the support. */
  function BreakEvenOf(root: real -> real, curve: ImpactCurve, edge: real): (Option<real>, BreakEven) {
    var c := curve.RoundTrip();
    if c == 0.0 then (None, NoFiniteRoot)
    else if edge < Times(c, root(curve.sizeMin)) then (None, BelowSupport)
    else if edge > Times(c, root(curve.sizeMax)) then (None, AboveSupport)
    else (Some(Square(edge / c)), WithinSupport)
  }

  /** The reported root separates the sizes with an edge left from those without, exactly; with no
      root in the support, every supported size is on one side. */
  lemma {:induction false} BreakEvenIsExact(root: real -> real, curve: ImpactCurve, edge: real, f: real)
    requires IsRoot(root) && curve.Valid() && edge > 0.0 && curve.sizeMin <= f <= curve.sizeMax
    ensures var (at, status) := BreakEvenOf(root, curve, edge); var left := edge - Times(curve.RoundTrip(), root(f));
            && (status == WithinSupport ==> at.Some? && curve.sizeMin <= at.value <= curve.sizeMax
                                            && (left > 0.0 <==> f < at.value) && (left == 0.0 <==> f == at.value))
            && (status == NoFiniteRoot || status == AboveSupport ==> left > 0.0)
            && (status == BelowSupport ==> left < 0.0)
  {
    var c := curve.RoundTrip();
    ImpactGrows(root, curve, curve.sizeMin, f);
    ImpactGrows(root, curve, f, curve.sizeMax);
    NoCost(c, root(f));
    if BreakEvenOf(root, curve, edge).1 == WithinSupport {
      var q := edge / c;
      QuotientOrder(edge, c, 0.0);
      AtRoot(root, c, edge, curve.sizeMin);
      AtRoot(root, c, edge, curve.sizeMax);
      AtRoot(root, c, edge, f);
      hide Times, IsRoot;
    }
  }

  lemma AtRoot(root: real -> real, c: real, edge: real, f: real)
    requires IsRoot(root) && c > 0.0 && edge > 0.0 && f >= 0.0
    ensures Times(c, root(f)) < edge <==> f < Square(edge / c)
    ensures Times(c, root(f)) > edge <==> f > Square(edge / c)
  {
    var q := edge / c;
    QuotientOrder(edge, c, root(f));
    QuotientOrder(edge, c, 0.0);
    assert Times(c, root(f)) == Times(root(f), c);
    assert Times(0.0, c) == 0.0;
    SquareIsNonnegative(q);
    RootOfSquare(root, q);
    RootGrows(root, f, Square(q));
    RootGrows(root, Square(q), f);
    hide Times, IsRoot;
  }

  // ---------------------------------------------------------------- the call

  /** What stops a larger order. */
  function Binding(a: Ask, last: int): set<Limit>
    requires a.Valid()
  {
    if last < Last(a) then {EntryGate} else set limit: Limit | limit != EntryGate && Bound(a, limit) == Upper(a)
  }

  /** No upper limit on the quantity is lower. */
  predicate Tightest(a: Ask, bound: real)
    requires a.Valid()
  {
    && bound <= Times(a.curve.sizeMax, a.market.advBase) && bound <= a.market.validatedQuantity
    && bound <= Times(a.market.maxAdvFraction, a.market.advBase) && bound <= a.market.maxNotional / a.market.price
  }

  /** The gate binds alone if a larger lot count is inside the limits; otherwise the tightest limits do. */
  ghost predicate IsBinding(a: Ask, last: int, binding: set<Limit>)
    requires a.Valid()
  {
    var gated := exists k :: k > last && InLimits(a, k);
    && (EntryGate in binding <==> gated)
    && (ModelSupport in binding <==> !gated && Tightest(a, Times(a.curve.sizeMax, a.market.advBase)))
    && (ValidatedDepth in binding <==> !gated && Tightest(a, a.market.validatedQuantity))
    && (MaxAdv in binding <==> !gated && Tightest(a, Times(a.market.maxAdvFraction, a.market.advBase)))
    && (MaxNotional in binding <==> !gated && Tightest(a, a.market.maxNotional / a.market.price))
  }

  lemma BindingIsBinding(a: Ask, last: int)
    requires a.Valid() && InLimits(a, last)
    ensures IsBinding(a, last, Binding(a, last))
  {
    hide InLimits, Times;
    LotsAreLimits(a, last);
    LotsAreLimits(a, Last(a));
    forall k | k > last ensures InLimits(a, k) ==> last < Last(a) {
      LotsAreLimits(a, k);
    }
  }

  /** The report on the best lot count, once the last feasible one is known. */
  function Outcome(root: real -> real, a: Ask, lots: int, last: int): SizingResult
    requires a.Valid() && Enters(root, a, lots)
    requires HasSample(a.forecast)
  {
    var (at, status) := BreakEvenOf(root, a.curve, Edge(a));
    SizingResult(
      Quantity(a, lots), Notional(a, lots), Fraction(a, lots), Profit(root, a, lots),
      Some(Edge(a) - 1.5 * Times(a.curve.RoundTrip(), root(Fraction(a, lots)))),
      DecisionAt(root, a, lots), Some(Estimate(root, a, lots).value), Some(Fraction(a, last)), at, status,
      Binding(a, last),
      Some(Notional(a, last)),
      if at.Some? then Some(Times(Times(at.value, a.market.advBase), a.market.price)) else None)
  }

  lemma FeasibleLast(root: real -> real, a: Ask, low: int)
    requires IsRoot(root) && a.Valid() && Admissible(a) && InLimits(a, low) && Enters(root, a, low)
    requires low == Last(a) || (InLimits(a, low + 1) && !Enters(root, a, low + 1))
    ensures IsFeasibleLast(root, a, low)
  {
    hide Enters, InLimits;
    forall k | InLimits(a, k) ensures Enters(root, a, k) <==> k <= low {
      LotsAreLimits(a, k);
      if k <= low {
        GateIsMonotone(root, a, k, low);
      } else if Enters(root, a, k) {
        GateIsMonotone(root, a, low + 1, k);
      }
    }
  }

  lemma EntersIsEnter(root: real -> real, a: Ask, lots: int)
    requires a.Valid() && Estimate(root, a, lots).Ok?
    ensures Enters(root, a, lots) <==> DecisionAt(root, a, lots).action == Enter
  {
  }

  lemma ProfitIsPositive(root: real -> real, a: Ask, lots: int)
    requires IsRoot(root) && a.Valid() && Admissible(a) && InLimits(a, lots) && Enters(root, a, lots)
    ensures Profit(root, a, lots) > 0.0
  {
    QuoteIsSupported(root, a, lots);
    ProfitIsShape(root, a, lots);
    TimesPositive(Notional(a, lots), DecisionAt(root, a, lots).edge.value);
    hide Times, DecisionAt;
  }

  lemma OutcomeEnters(root: real -> real, a: Ask, lots: int, last: int)
    requires a.Valid() && Enters(root, a, lots)
    requires HasSample(a.forecast)
    ensures Outcome(root, a, lots, last).decision.action == Enter
  {
    hide DecisionAt, Bound, Profit, BreakEvenOf;
  }

  /** The better of the two candidates is the best lot count of all. */
  lemma OneCandidateIsBest(root: real -> real, a: Ask, first: int, last: int, best: int)
    requires IsRoot(root) && a.Valid() && Admissible(a) && IsFeasibleLast(root, a, last) && first == First(a)
    requires HasSample(a.forecast)
    requires var target := Target(root, a, last, Edge(a));
             var x, y := Clamp(first, last, target), Clamp(first, last, target + 1);
             && Enters(root, a, x) && Enters(root, a, y) && InLimits(a, x) && InLimits(a, y)
             && best == if y != x && Profit(root, a, y) > Profit(root, a, x) then y else x
    ensures IsBest(root, a, best)
  {
    hide Enters, InLimits, Profit, Edge, Target, IsRoot, IsFeasibleLast;
    forall j | InLimits(a, j) && Enters(root, a, j) ensures Profit(root, a, j) <= Profit(root, a, best) {
      CandidatesDominate(root, a, first, last, j);
    }
  }

  /** The last admitted lot count at or below `k`, or the first lot count. */
  function LastEntering(root: real -> real, a: Ask, k: int): (low: int)
    requires a.Valid()
    ensures low == First(a) || (First(a) < low <= k && Enters(root, a, low))
    decreases k - First(a)
  {
    if k <= First(a) then First(a)
    else if Enters(root, a, k) then k
    else LastEntering(root, a, k - 1)
  }

  function Chosen(root: real -> real, a: Ask, last: int): int
    requires a.Valid()
    requires HasSample(a.forecast)
  {
    var target := Target(root, a, last, Edge(a));
    var x, y := Clamp(First(a), last, target), Clamp(First(a), last, target + 1);
    if y != x && Enters(root, a, x) && Enters(root, a, y) && Profit(root, a, y) > Profit(root, a, x) then y else x
  }

  /** The result of sizing, with the last admitted lot count searched for one by one. */
  function SizingOf(root: real -> real, a: Ask): SizingResult
    requires a.Valid()
  {
    if !Admissible(a) then Refused(SizingNotAdmitted)
    else if First(a) > Last(a) then Refused(NoExecutableSize)
    else if Estimate(root, a, First(a)).Err? || DecisionAt(root, a, First(a)).action != Enter then
      Empty(if Estimate(root, a, First(a)).Err? then Decision(Wait, CostsUnavailable, None, None)
            else DecisionAt(root, a, First(a)))
    else
      EdgeIsMeanOverHurdle(root, a, First(a));
      var last := LastEntering(root, a, Last(a));
      var lots := Chosen(root, a, last);
      if Enters(root, a, lots) then Outcome(root, a, lots, last) else Refused(NonpositiveProfit)
  }

  lemma {:induction false} LastEnteringIsFeasible(root: real -> real, a: Ask, k: int)
    requires IsRoot(root) && a.Valid() && Admissible(a) && InLimits(a, First(a)) && Enters(root, a, First(a))
    requires First(a) <= k <= Last(a) && (k == Last(a) || (InLimits(a, k + 1) && !Enters(root, a, k + 1)))
    ensures IsFeasibleLast(root, a, LastEntering(root, a, k))
    decreases k - First(a)
  {
    hide IsRoot, Enters, InLimits;
    LotsAreLimits(a, k);
    if k <= First(a) || Enters(root, a, k) {
      FeasibleLast(root, a, k);
    } else {
      LastEnteringIsFeasible(root, a, k - 1);
    }
  }

  lemma FeasibleLastIsUnique(root: real -> real, a: Ask, x: int, y: int)
    requires a.Valid() && IsFeasibleLast(root, a, x) && IsFeasibleLast(root, a, y)
    ensures x == y
  {
    hide InLimits, Enters;
    assert Enters(root, a, x) && Enters(root, a, y);
  }

  /** The last admitted lot count, found by halving. */
  method Bisect(root: real -> real, a: Ask, first: int, last: int) returns (low: int)
    requires IsRoot(root) && a.Valid() && Admissible(a) && first == First(a) && last == Last(a)
    requires InLimits(a, first) && Enters(root, a, first)
    ensures IsFeasibleLast(root, a, low) && first <= low <= last
  {
    hide IsRoot, InLimits, Enters, Estimate;
    LotsAreLimits(a, first);
    low := first;
    var high := last;
    while low < high
      invariant first <= low <= high <= last && InLimits(a, low) && Enters(root, a, low)
      invariant high == last || (InLimits(a, high + 1) && !Enters(root, a, high + 1))
      decreases high - low
    {
      var middle := (low + high + 1) / 2;
      LotsAreLimits(a, middle);
      QuoteIsSupported(root, a, middle);
      EntersIsEnter(root, a, middle);
      if DecisionAt(root, a, middle).action == Enter {
        low := middle;
      } else {
        high := middle - 1;
      }
    }
    FeasibleLast(root, a, low);
  }

  /** Enters exactly when the inputs are of this symbol and current and some lot count inside the
      limits passes the gate, and then with the most profitable one; the report names the last
      admitted lot count. Otherwise nothing is sized, and the reason is that of the inputs, of the
      limits, or of the smallest lot count inside them. */
  ghost predicate IsOptimal(root: real -> real, a: Ask, r: SizingResult)
    requires a.Valid()
  {
    var m := a.market;
    var current := && m.symbol == a.strategy.symbol == a.curve.symbol
                   && m.observedAt <= a.now < m.validUntil && m.metadataFrom <= a.now < m.metadataUntil
                   && m.advEnd <= a.now < m.advEnd + DAY_MS
                   && a.curve.admittedAt <= a.now && a.curve.evidenceEnd <= a.now;
    && (r.decision.action == Enter <==> current && exists k :: InLimits(a, k) && Enters(root, a, k))
    && (r.decision.action == Enter
        ==> exists lots, last :: IsBest(root, a, lots) && IsFeasibleLast(root, a, last)
                                 && IsReport(root, a, lots, last, r))
    && (r.decision.action != Enter ==> r == Empty(r.decision))
    && (!current ==> r.decision == Decision(Wait, SizingNotAdmitted, None, None))
    && (current && !(exists k :: InLimits(a, k)) ==> r.decision == Decision(Wait, NoExecutableSize, None, None))
    && (current && r.decision.action != Enter && (exists k :: InLimits(a, k)) ==>
          exists k :: InLimits(a, k) && (forall j :: InLimits(a, j) ==> k <= j)
                      && Estimate(root, a, k).Ok? && r.decision == DecisionAt(root, a, k))
  }

  /** The specified result is that optimum. */
  lemma {:induction false} SizingIsOptimal(root: real -> real, a: Ask)
    requires IsRoot(root) && a.Valid()
    ensures IsOptimal(root, a, SizingOf(root, a))
  {
    hide IsRoot, InLimits, Enters, Estimate, Profit, Edge, Outcome, IsFeasibleLast, IsBest, IsReport, LastEntering;
    CurrentIsAdmissible(a);
    if Admissible(a) {
      LotsAreLimits(a, First(a));
      if First(a) > Last(a) {
        forall k ensures !InLimits(a, k) { LotsAreLimits(a, k); }
      } else {
        QuoteIsSupported(root, a, First(a));
        EntersIsEnter(root, a, First(a));
        if DecisionAt(root, a, First(a)).action == Enter {
          EdgeIsMeanOverHurdle(root, a, First(a));
          var last := LastEntering(root, a, Last(a));
          LastEnteringIsFeasible(root, a, Last(a));
          CandidatesDominate(root, a, First(a), last, First(a));
          var lots := Chosen(root, a, last);
          OneCandidateIsBest(root, a, First(a), last, lots);
          BestEnters(root, a, lots);
          LastIsInside(root, a, last);
          OutcomeEnters(root, a, lots, last);
          OutcomeIsReport(root, a, lots, last);
        } else {
          forall k | InLimits(a, k) ensures !Enters(root, a, k) && First(a) <= k {
            LotsAreLimits(a, k);
            if Enters(root, a, k) { GateIsMonotone(root, a, First(a), k); }
          }
        }
      }
    }
  }

  lemma CurrentIsAdmissible(a: Ask)
    requires a.Valid()
    ensures var m := a.market;
            Admissible(a)
            <==> && m.symbol == a.strategy.symbol == a.curve.symbol
                 && m.observedAt <= a.now < m.validUntil && m.metadataFrom <= a.now < m.metadataUntil
                 && m.advEnd <= a.now < m.advEnd + DAY_MS
                 && a.curve.admittedAt <= a.now && a.curve.evidenceEnd <= a.now
  {
    var days := a.market.advEnd / DAY_MS;
    assert a.market.advEnd == days * DAY_MS;
    assert days * DAY_MS <= a.now < days * DAY_MS + DAY_MS <==> a.now / DAY_MS == days;
  }

  lemma LastIsInside(root: real -> real, a: Ask, last: int)
    requires a.Valid() && IsFeasibleLast(root, a, last)
    ensures InLimits(a, last)
  {
  }

  lemma BestEnters(root: real -> real, a: Ask, lots: int)
    requires a.Valid() && IsBest(root, a, lots)
    ensures InLimits(a, lots) && Enters(root, a, lots)
  {
  }

  /** What the report says of the chosen lots, read off the definitions alone. */
  ghost predicate IsReport(root: real -> real, a: Ask, lots: int, last: int, r: SizingResult)
    requires a.Valid()
  {
    var most := Times(last as real, a.market.quantityStep);
    && Enters(root, a, lots) && r.decision == DecisionAt(root, a, lots) && r.decision.edge.Some?
    && r.quantity == Times(lots as real, a.market.quantityStep) && r.notional == Times(r.quantity, a.market.price)
    && r.fraction == r.quantity / a.market.advBase && r.expectedNet == Times(r.notional, r.decision.edge.value)
    && r.estimate == Some(Estimate(root, a, lots).value)
    && r.feasibleMaxFraction == Some(most / a.market.advBase)
    && r.feasibleMaxNotional == Some(Times(most, a.market.price))
    && IsBinding(a, last, r.binding)
    && HasSample(a.forecast)
    && (r.breakEven, r.status) == BreakEvenOf(root, a.curve, Edge(a)) && r.status != BelowSupport
    && (r.breakEven.Some? ==> r.breakEvenNotional == Some(Times(Times(r.breakEven.value, a.market.advBase), a.market.price)))
    && r.marginal == Some(Edge(a) - 1.5 * Times(a.curve.RoundTrip(), root(r.fraction)))
  }

  /** An admitted size leaves an edge over its own impact, so the root is never below the support. */
  lemma {:induction false} RootIsNotBelowSupport(root: real -> real, a: Ask, lots: int)
    requires IsRoot(root) && a.Valid() && Admissible(a) && InLimits(a, lots) && Enters(root, a, lots)
    ensures HasSample(a.forecast)
    ensures BreakEvenOf(root, a.curve, Edge(a)).1 != BelowSupport
  {
    QuoteIsSupported(root, a, lots);
    ProfitIsShape(root, a, lots);
    ImpactGrows(root, a.curve, a.curve.sizeMin, Fraction(a, lots));
    hide Times, Enters, InLimits, Profit, DecisionAt, Edge, IsRoot;
  }

  lemma OutcomeIsReport(root: real -> real, a: Ask, lots: int, last: int)
    requires IsRoot(root) && a.Valid() && Admissible(a) && InLimits(a, lots) && Enters(root, a, lots)
    requires HasSample(a.forecast) && InLimits(a, last)
    ensures IsReport(root, a, lots, last, Outcome(root, a, lots, last))
  {
    RootIsNotBelowSupport(root, a, lots);
    BindingIsBinding(a, last);
    EdgeIsMeanOverHurdle(root, a, lots);
    hide Enters, DecisionAt, Binding, IsBinding, BreakEvenOf, Edge, IsRoot, InLimits, Times, Estimate, Mean, Hurdle;
  }

  /** A flat candidate's size: the best admitted whole number of lots, if there is one. */
  method SizePosition(root: real -> real, a: Ask) returns (r: SizingResult)
    requires IsRoot(root) && a.Valid()
    ensures r == SizingOf(root, a) && IsOptimal(root, a, r)
  {
    hide IsOptimal, IsRoot, InLimits, Enters, Estimate, Profit, Target, Edge, Outcome, IsFeasibleLast, IsBest, LastEntering;
    SizingIsOptimal(root, a);
    if !Admissible(a) {
      return Refused(SizingNotAdmitted);
    }
    var first, last := First(a), Last(a);
    LotsAreLimits(a, first);
    if first > last {
      return Refused(NoExecutableSize);
    }
    QuoteIsSupported(root, a, first);
    EntersIsEnter(root, a, first);
    if DecisionAt(root, a, first).action != Enter {
      return Empty(DecisionAt(root, a, first));
    }
    var low := Bisect(root, a, first, last);
    LastEnteringIsFeasible(root, a, last);
    FeasibleLastIsUnique(root, a, low, LastEntering(root, a, last));
    CandidatesDominate(root, a, first, low, first);
    var target := Target(root, a, low, Edge(a));
    var best := Clamp(first, low, target);
    var other := Clamp(first, low, target + 1);
    if other != best && Profit(root, a, other) > Profit(root, a, best) {
      best := other;
    }
    ProfitIsPositive(root, a, best);
    if Profit(root, a, best) <= 0.0 {
      return Refused(NonpositiveProfit);
    }
    return Outcome(root, a, best, low);
  }
}
