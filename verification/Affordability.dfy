/** Whatever sizing approves, inferred execution can fill and the account can carry. */
module Affordability {
  import opened Wrappers
  import opened Reals
  import opened Fees
  import opened Accounting
  import opened Carry
  import opened Costs
  import opened Sizing
  import opened Execution
  import opened WalkForward
  import opened Protocol
  import RollingFunding

  /** The executor is the inferred one. */
  ghost predicate Infers(w: World) {
    forall e, quantity, opening :: w.execute(e, quantity, opening) == InferredFills(w.root, e, quantity, opening)
  }

  /** The moment of a scheduled decision on a flat account, with its evidence admitted. */
  ghost predicate Ready(w: World, c: Config, s: State, e: MarketEvent, o: Opportunity) {
    && Proper(w, c, s, e) && o.Valid() && e.opportunity == Some(o) && Admit(w, c, s, e) == Ok((s, Some(o)))
    && Hedged(s.ledger) && s.ledger.perp.quantity == 0.0 && s.ledger.symbol == c.symbol
    && e.marks.symbol == c.symbol && s.ledger.time <= e.time && e.time < s.ledger.nextFunding && !Guarded(s.ledger, e.time)
  }

  /** The identifiers the two fills will carry are unused. */
  predicate FreshIds(l: Ledger, id: string) {
    id + ":spot" !in l.ids && id + ":perp" !in l.ids
  }

  // ---------------------------------------------------------------- what sizing has already granted

  /** What the venue, the model and the policy of the evidence allow of a quantity, whole lots of it. */
  ghost predicate Permitted(o: Opportunity, quantity: real) {
    && (exists lots :: lots >= 1 && quantity == LotsOf(o, lots))
    && Times(o.curve.sizeMin, o.market.advBase) <= quantity <= Times(o.curve.sizeMax, o.market.advBase)
    && o.market.minQuantity <= quantity <= o.market.validatedQuantity
    && quantity <= Times(o.market.maxAdvFraction, o.market.advBase)
    && o.market.minNotional <= Times(quantity, o.market.price) <= o.market.maxNotional
  }

  function LotsOf(o: Opportunity, lots: int): real {
    Times(lots as real, o.market.quantityStep)
  }

  lemma SizedIsPermitted(w: World, c: Config, e: MarketEvent, o: Opportunity, forecast: Option<Forecast>, cap: real,
                         charges: Charges, lots: int)
    requires var a := AskFor(c, e, o, forecast, cap, charges); a.Valid() && InLimits(a, lots)
    ensures Permitted(o, Quantity(AskFor(c, e, o, forecast, cap, charges), lots))
  {
    hide Times;
    assert LotsOf(o, lots) == Quantity(AskFor(c, e, o, forecast, cap, charges), lots);
  }

  /** A sized quantity is within every limit of its evidence, can be inferred and is within the cash. */
  lemma {:induction false} SizedIsAffordable(w: World, c: Config, s: State, e: MarketEvent, o: Opportunity,
                                             forecast: Option<Forecast>)
    requires Ready(w, c, s, e, o) && SizeEntry(w, c, s, e, o, forecast).Ok?
    requires var r := SizeEntry(w, c, s, e, o, forecast).value; r.Some? && r.value.decision.action == Enter
    ensures Quote(s.ledger.fees, c.symbol, Spot, e.time).Some? && Quote(s.ledger.fees, c.symbol, Perp, e.time).Some?
    ensures var q := SizeEntry(w, c, s, e, o, forecast).value.value.quantity;
            var perUnit := PerUnit(w, c, e, o, Quote(s.ledger.fees, c.symbol, Spot, e.time).value,
                                   Quote(s.ledger.fees, c.symbol, Perp, e.time).value);
            && q > 0.0 && Inferable(e, q) && Times(q, perUnit) <= s.ledger.cash && Permitted(o, q)
  {
    hide SizingOf, PerUnit, IsRoot, Quote, Hedged, Guarded, InLimits, Permitted;
    var spotFee := Quote(s.ledger.fees, c.symbol, Spot, e.time).value;
    var perpFee := Quote(s.ledger.fees, c.symbol, Perp, e.time).value;
    HedgedFees(s.ledger);
    QuotesAreFractions(s.ledger.fees, c.symbol, e.time);
    PerUnitIsPositive(w, c, s, e, o, spotFee, perpFee);
    var perUnit := PerUnit(w, c, e, o, spotFee, perpFee);
    var cap := Cap(s.ledger.cash, perUnit, e.perpMid);
    AskIsValid(w, c, s, e, o, forecast, cap, spotFee, perpFee);
    var ask := AskFor(c, e, o, forecast, cap, ChargesFor(o, e, spotFee, perpFee));
    var q := SizingOf(w.root, ask).quantity;
    SizingIsWithinLimits(w.root, ask);
    var lots :| InLimits(ask, lots) && q == Quantity(ask, lots);
    SizedIsPermitted(w, c, e, o, forecast, cap, ChargesFor(o, e, spotFee, perpFee), lots);
    EvidenceIsInferable(w, c, s, e, o, q);
    WithinCash(q, ask.market.maxNotional, cap, perUnit, s.ledger.cash, e.perpMid);
  }

  lemma SizingIsWithinLimits(root: real -> real, a: Ask)
    requires IsRoot(root) && a.Valid() && SizingOf(root, a).decision.action == Enter
    ensures var q := SizingOf(root, a).quantity;
            && q > 0.0 && a.curve.sizeMin <= q / a.market.advBase <= a.curve.sizeMax
            && q <= a.market.validatedQuantity && q <= a.market.maxNotional / a.market.price
            && Admissible(a) && exists lots :: InLimits(a, lots) && q == Quantity(a, lots)
  {
    SizingIsOptimal(root, a);
    CurrentIsAdmissible(a);
    var r := SizingOf(root, a);
    var lots, last :| IsBest(root, a, lots) && IsFeasibleLast(root, a, last) && IsReport(root, a, lots, last, r);
    BestEnters(root, a, lots);
    QuoteIsSupported(root, a, lots);
    QuotientOrder(a.market.maxNotional, a.market.price, Quantity(a, lots));
    hide SizingOf, IsRoot, Times, Enters;
    EnterQuantityIsPositive(root, a);
  }

  lemma EvidenceIsInferable(w: World, c: Config, s: State, e: MarketEvent, o: Opportunity, q: real)
    requires Ready(w, c, s, e, o)
    requires o.curve.sizeMin <= q / o.market.advBase <= o.curve.sizeMax && q <= o.market.validatedQuantity
    requires o.curve.evidenceEnd <= e.time
    ensures Inferable(e, q) && o.market.price == e.perpMid
  {
    AdmitKeeps(w, c, s, e);
    hide IsRoot, Hedged, Guarded;
  }

  /** A notional capped by the cash over its worst use per unit is paid for in full. */
  lemma WithinCash(q: real, maxNotional: real, cap: real, perUnit: real, cash: real, mid: real)
    requires q > 0.0 && perUnit > 0.0 && mid > 0.0 && q <= maxNotional / mid && maxNotional <= cap
    requires cap == Times(Max(0.0, cash) / perUnit, mid)
    ensures Times(q, perUnit) <= cash
  {
    QuotientGrows(maxNotional, cap, mid);
    TimesQuotientCancels(Max(0.0, cash) / perUnit, mid);
    QuotientOrder(Max(0.0, cash), perUnit, q);
    TimesPositive(q, perUnit);
    hide Times;
  }

  lemma TimesQuotientCancels(x: real, y: real)
    requires y > 0.0
    ensures Times(x, y) / y == x
  {
  }

  // ---------------------------------------------------------------- what executing it uses

  lemma ImpactIsBounded(w: World, o: Opportunity, q: real)
    requires IsRoot(w.root) && o.Valid() && q > 0.0 && q / o.market.advBase <= o.curve.sizeMax
    ensures 0.0 <= PerpImpact(w.root, o, q, true) <= WorstImpact(w, o)
  {
    var f := q / o.market.advBase;
    QuotientSign(q, o.market.advBase);
    RootGrows(w.root, f, o.curve.sizeMax);
    TimesGrows(o.curve.sellBps, w.root(f), w.root(o.curve.sizeMax));
    TimesSign(o.curve.sellBps, w.root(f));
    hide Times;
  }

  /** Cash and perp P&L left after the fills, less the collateral, is the cash less the units used. */
  lemma UsedPerUnit(cash: real, q: real, spot: real, spotFee: real, perp: real, perpFee: real, mark: real,
                    collateral: real)
    ensures (cash - Times(q, spot) - Times(Times(q, spot), spotFee) - Times(Times(q, perp), perpFee))
            + (Times(-q, mark) - Times(-q, perp)) - Times(Times(q, mark), collateral)
         == cash - Times(q, Times(spot, 1.0 + spotFee) + Times(perp, perpFee) + (mark - perp) + Times(mark, collateral))
  {
  }

  /** No unit uses more than the worst case set aside for it. */
  lemma UseIsBounded(spot: real, spotFee: real, mid: real, impact: real, worst: real, perpFee: real, mark: real,
                     collateral: real)
    requires 0.0 <= impact <= worst && perpFee >= 0.0 && mid > 0.0
    ensures var perp := Times(mid, 1.0 - impact);
            Times(spot, 1.0 + spotFee) + Times(perp, perpFee) + (mark - perp) + Times(mark, collateral)
            <= Times(spot, 1.0 + spotFee) + Times(mark, collateral) + Max(0.0, mark - mid) + Times(mid, worst + perpFee)
  {
    var perp := Times(mid, 1.0 - impact);
    TimesDistributes(mid, 1.0, impact);
    TimesDistributes(mid, worst, perpFee);
    assert Times(mid, 1.0) == mid;
    TimesGrows(mid, impact, worst);
    TimesSign(mid, impact);
    TimesGrows(perpFee, perp, mid);
    assert Times(perp, perpFee) == Times(perpFee, perp) && Times(mid, perpFee) == Times(perpFee, mid);
    hide Times;
  }

  /** The cash set aside for a unit is no more than its worst use: where the mark is no lower than
      the mid, what the units at the curve's worst impact use falls short of it by the fee on that
      impact alone. */
  lemma {:induction false} PerUnitIsWorstUse(w: World, c: Config, e: MarketEvent, o: Opportunity, spotFee: real,
                                             perpFee: real)
    requires e.marks.perp >= e.perpMid
    ensures var spot := Times(e.spotMid, 1.0 + o.spotExecution / 10000.0);
            var worst := (Times(o.curve.sellBps, w.root(o.curve.sizeMax)) + o.perpHalfSpread) / 10000.0;
            var perp := Times(e.perpMid, 1.0 - worst);
            PerUnit(w, c, e, o, spotFee, perpFee)
            == Times(spot, 1.0 + spotFee) + Times(perp, perpFee) + (e.marks.perp - perp) + Times(e.marks.perp, c.collateral)
               + Times(Times(e.perpMid, worst), perpFee)
  {
    var worst := WorstImpact(w, o);
    TimesDistributes(e.perpMid, 1.0, worst);
    TimesDistributes(e.perpMid, worst, perpFee);
    var perp := Times(e.perpMid, 1.0 - worst);
    TimesDistributes(perp, Times(e.perpMid, worst), perpFee);
    assert Times(e.perpMid, 1.0) == e.perpMid;
    hide Times;
    assert perp + Times(e.perpMid, worst) == e.perpMid;
  }

  // ---------------------------------------------------------------- the two fills

  /** A fill that opens or extends a leg: what it does to the account. */
  lemma OpeningFill(l: Ledger, f: Fill)
    requires Sound(l) && l.Leg(f.market).quantity == 0.0 && f.quantity != 0.0 && (f.market.Spot? <==> f.quantity > 0.0)
    requires f.symbol == l.symbol && f.time >= l.time && f.time >= 0 && f.time < l.nextFunding && !Guarded(l, f.time)
    requires f.price > 0.0 && f.referenceMid > 0.0 && f.id != "" && Quote(l.fees, l.symbol, f.market, f.time).Some?
    ensures ApplyFill(l, f).Ok? <==> f.id !in l.ids
    ensures ApplyFill(l, f).Ok? ==>
              var m := ApplyFill(l, f).value;
              var fee := Times(Times(Magnitude(f.quantity), f.price), Quote(l.fees, l.symbol, f.market, f.time).value);
              && m.Leg(f.market) == Leg(f.quantity, Times(f.quantity, f.price), l.Leg(f.market).realized)
              && m == l.With(f.market, m.Leg(f.market)).(cash := m.cash, feesPaid := m.feesPaid,
                                                         executionCost := m.executionCost,
                                                         time := f.time, ids := l.ids + {f.id})
              && m.cash == l.cash - fee - (if f.market.Spot? then Times(f.quantity, f.price) else 0.0)
  {
    TimesSign(l.Leg(f.market).quantity, f.quantity);
    hide Times, QuoteFrom, Guarded;
  }

  lemma WorthlessFill(l: Ledger, f: Fill)
    requires f.price <= 0.0
    ensures ApplyFill(l, f).Err?
  {
    hide Times, QuoteFrom, Guarded;
  }

  /** Both inferred legs of a sized entry, one after the other on the same account. */
  lemma BothLegsFill(w: World, c: Config, s: State, e: MarketEvent, o: Opportunity, q: real)
    requires Ready(w, c, s, e, o) && q > 0.0 && Inferable(e, q) && e.id != ""
    requires Quote(s.ledger.fees, c.symbol, Spot, e.time).Some? && Quote(s.ledger.fees, c.symbol, Perp, e.time).Some?
    ensures InferredFills(w.root, e, q, true).Some?
    ensures var fills := InferredFills(w.root, e, q, true).value;
            && Paired(c, e, fills, q, true)
            && (FillBoth(s.ledger, fills).Ok? <==> FreshIds(s.ledger, e.id) && PerpImpact(w.root, o, q, true) < 1.0)
            && (FillBoth(s.ledger, fills).Ok? ==>
                  var m := FillBoth(s.ledger, fills).value;
                  var spot := Times(e.spotMid, 1.0 + SpotImpact(o));
                  var perp := Times(e.perpMid, 1.0 - PerpImpact(w.root, o, q, true));
                  && m.perp.quantity == -q && m.perp.basis == Times(-q, perp)
                  && m.cash == s.ledger.cash - Times(q, spot)
                               - Times(Times(q, spot), Quote(s.ledger.fees, c.symbol, Spot, e.time).value)
                               - Times(Times(q, perp), Quote(s.ledger.fees, c.symbol, Perp, e.time).value))
  {
    ImpactIsBounded(w, o, q);
    var impact := PerpImpact(w.root, o, q, true);
    var fills := InferredFills(w.root, e, q, true).value;
    UnitSign(SpotImpact(o));
    UnitSign(impact);
    SignedQuantity(q);
    TimesPositive(e.spotMid, 1.0 + SpotImpact(o));
    TimesPositive(e.perpMid, 1.0 - impact);
    TimesSign(e.perpMid, 1.0 - impact);
    IdsDiffer(e.id);
    hide IsRoot, PerpImpact, SpotImpact, Inferable, WorstImpact, Guarded, ApplyFill, Times;
    OpeningFill(s.ledger, fills[0]);
    if ApplyFill(s.ledger, fills[0]).Ok? {
      var half := ApplyFill(s.ledger, fills[0]).value;
      FillMoves(s.ledger, fills[0]);
      SameGuard(s.ledger, half, e.time);
      if impact < 1.0 {
        OpeningFill(half, fills[1]);
      } else {
        WorthlessFill(half, fills[1]);
      }
    }
  }

  lemma UnitSign(x: real)
    ensures Times(1.0, x) == x
  {
  }

  lemma SameGuard(l: Ledger, m: Ledger, time: int)
    requires SameAccount(l, m)
    ensures Guarded(l, time) == Guarded(m, time)
  {
  }

  lemma IdsDiffer(id: string)
    ensures id + ":spot" != id + ":perp" && id + ":spot" != "" && id + ":perp" != ""
  {
    assert (id + ":spot")[|id| + 1] == 's' && (id + ":perp")[|id| + 1] == 'p';
  }

  /** After the fills the account still covers its collateral at the event's marks. */
  lemma ReserveHolds(w: World, c: Config, s: State, e: MarketEvent, o: Opportunity, q: real, m: Ledger)
    requires Ready(w, c, s, e, o) && q > 0.0 && q / o.market.advBase <= o.curve.sizeMax
    requires Quote(s.ledger.fees, c.symbol, Spot, e.time).Some? && Quote(s.ledger.fees, c.symbol, Perp, e.time).Some?
    requires var spotFee := Quote(s.ledger.fees, c.symbol, Spot, e.time).value;
             var perpFee := Quote(s.ledger.fees, c.symbol, Perp, e.time).value;
             var spot, perp := Times(e.spotMid, 1.0 + SpotImpact(o)), Times(e.perpMid, 1.0 - PerpImpact(w.root, o, q, true));
             && Times(q, PerUnit(w, c, e, o, spotFee, perpFee)) <= s.ledger.cash
             && m.perp.quantity == -q && m.perp.basis == Times(-q, perp)
             && m.cash == s.ledger.cash - Times(q, spot) - Times(Times(q, spot), spotFee) - Times(Times(q, perp), perpFee)
    ensures Reserved(m, e.marks.perp, c.collateral)
  {
    var spotFee := Quote(s.ledger.fees, c.symbol, Spot, e.time).value;
    var perpFee := Quote(s.ledger.fees, c.symbol, Perp, e.time).value;
    var impact := PerpImpact(w.root, o, q, true);
    var spot, perp, mark := Times(e.spotMid, 1.0 + SpotImpact(o)), Times(e.perpMid, 1.0 - impact), e.marks.perp;
    HedgedFees(s.ledger);
    QuotesAreFractions(s.ledger.fees, c.symbol, e.time);
    ImpactIsBounded(w, o, q);
    UsedPerUnit(s.ledger.cash, q, spot, spotFee, perp, perpFee, mark, c.collateral);
    UseIsBounded(spot, spotFee, e.perpMid, impact, WorstImpact(w, o), perpFee, mark, c.collateral);
    hide IsRoot, PerpImpact, SpotImpact, Times, Quote, Hedged, Guarded;
    var used := Times(spot, 1.0 + spotFee) + Times(perp, perpFee) + (mark - perp) + Times(mark, c.collateral);
    TimesGrows(q, used, PerUnit(w, c, e, o, spotFee, perpFee));
  }

  /** An approved entry is executed in full exactly when its fills' identifiers are unused and its
      own impact leaves the perp a price: nothing else can reject it, and `Trade` never answers no. */
  lemma {:induction false} ApprovedEntryExecutes(w: World, c: Config, s: State, e: MarketEvent, o: Opportunity,
                                                 forecast: Option<Forecast>)
    requires Ready(w, c, s, e, o) && Infers(w) && e.id != ""
    requires SizeEntry(w, c, s, e, o, forecast).Ok?
    requires var r := SizeEntry(w, c, s, e, o, forecast).value; r.Some? && r.value.decision.action == Enter
    ensures EnterAt(w, c, s, e, Some(o), forecast).Ok?
       <==> && FreshIds(s.ledger, e.id)
            && PerpImpact(w.root, o, SizeEntry(w, c, s, e, o, forecast).value.value.quantity, true) < 1.0
    ensures EnterAt(w, c, s, e, Some(o), forecast).Ok? ==>
              var d := EnterAt(w, c, s, e, Some(o), forecast).value;
              var q := SizeEntry(w, c, s, e, o, forecast).value.value.quantity;
              && d.decision.action == Enter && q > 0.0
              && d.state.position == Some(Position(c.symbol, Times(q, e.perpMid), e.time, c.policy.horizon, 0, c.intervalHours))
              && d.state.ledger.perp.quantity == -q && d.state.ledger.spot.quantity == q
              && Reserved(d.state.ledger, e.marks.perp, c.collateral)
              && d.state.foldCurves == s.foldCurves && d.state.ledger.time == e.time && SameClock(s, d.state)
  {
    SizedIsAffordable(w, c, s, e, o, forecast);
    var q := SizeEntry(w, c, s, e, o, forecast).value.value.quantity;
    BothLegsFill(w, c, s, e, o, q);
    var fills := InferredFills(w.root, e, q, true).value;
    assert w.execute(e, q, true) == Some(fills);
    if FillBoth(s.ledger, fills).Ok? {
      ReserveHolds(w, c, s, e, o, q, FillBoth(s.ledger, fills).value);
      FillBothMoves(s.ledger, fills);
    }
    hide IsRoot, Infers, SizeEntry, InferredFills, Reserved, FillBoth, PerUnit, Quote, Hedged, Guarded, Admit,
        Inferable, PerpImpact, SpotImpact, Times;
  }

  lemma FillBothMoves(l: Ledger, fills: seq<Fill>)
    requires Sound(l) && |fills| == 2 && FillBoth(l, fills).Ok? && fills[0].market.Spot? && fills[1].market.Perp?
    ensures var m := FillBoth(l, fills).value;
            && SameAccount(l, m) && m.time == fills[1].time
            && m.spot.quantity == l.spot.quantity + fills[0].quantity
            && m.perp.quantity == l.perp.quantity + fills[1].quantity
  {
    hide ApplyFill, Sound;
    FillMoves(l, fills[0]);
    FillMoves(ApplyFill(l, fills[0]).value, fills[1]);
  }

  // ---------------------------------------------------------------- the whole event

  function ForecastAt(w: World, c: Config, s: State, time: int): Option<Forecast> {
    var left := SettlementsLeft(c, s);
    if left > 0 then w.predict(RollingFunding.Accepted(s.observations), left, time) else None
  }

  /** A decision event on a flat account for which sizing says enter. */
  ghost predicate Approved(w: World, c: Config, s: State, e: MarketEvent, o: Opportunity) {
    && ValidConfig(w, c) && s.ledger.fees.Valid() && OfMarket(e).Valid() && IsRoot(w.root) && e.time >= 0
    && e.decide && MarketRefusal(c, s, e).None? && s.position.None? && Marked(c, s, e).Ok? && e.marks.perp > 0.0
    && var marked := Marked(c, s, e).value;
       && marked.ledger.fees.Valid() && e.opportunity == Some(o)
       && Admit(w, c, marked, e).Ok? && Admit(w, c, marked, e).value.1 == Some(o)
       && Admit(w, c, marked, e).value.0.ledger.fees.Valid() && e.spotMid > 0.0 && e.perpMid > 0.0
       && var r := SizeEntry(w, c, Admit(w, c, marked, e).value.0, e, o, ForecastAt(w, c, marked, e.time));
          r.Ok? && r.value.Some? && r.value.value.decision.action == Enter
  }

  function SizedQuantity(w: World, c: Config, s: State, e: MarketEvent, o: Opportunity): real
    requires Approved(w, c, s, e, o)
  {
    var marked := Marked(c, s, e).value;
    SizeEntry(w, c, Admit(w, c, marked, e).value.0, e, o, ForecastAt(w, c, marked, e.time)).value.value.quantity
  }

  lemma AdmitTwice(w: World, c: Config, s: State, e: MarketEvent)
    requires Admit(w, c, s, e).Ok?
    ensures forall t: State | t.foldCurves == Admit(w, c, s, e).value.0.foldCurves ::
              Admit(w, c, t, e) == Ok((t, Admit(w, c, s, e).value.1))
  {
    hide Evident;
    forall t: State | t.foldCurves == Admit(w, c, s, e).value.0.foldCurves
      ensures Admit(w, c, t, e) == Ok((t, Admit(w, c, s, e).value.1))
    {
      if Admit(w, c, s, e).value.1.Some? {
        var o := e.opportunity.value;
        assert t.foldCurves[o.foldStart := o.curve.artifact] == t.foldCurves;
      }
    }
  }

  lemma DecisionIsReady(w: World, c: Config, s: State, e: MarketEvent, o: Opportunity, n: nat)
    requires Inv(c, s, n) && e.time == s.lastTime && Approved(w, c, s, e, o)
    ensures Ready(w, c, Admit(w, c, Marked(c, s, e).value, e).value.0, e, o)
  {
    hide IsRoot, Times, SizeEntry, Evident, Hedged, Reserved, Sound;
    MarkedKeeps(c, s, e);
    var marked := Marked(c, s, e).value;
    AdmitKeeps(w, c, marked, e);
    AdmitTwice(w, c, marked, e);
    DecisionIsClear(w, c, s, e.time, n);
    SameGuard(s.ledger, marked.ledger, e.time);
    hide Marked, Admit, Guarded;
  }

  lemma DecisionIsClear(w: World, c: Config, s: State, time: int, n: nat)
    requires ValidConfig(w, c) && Clocked(c, s, n) && time == s.nextDecision && time < s.ledger.nextFunding
    ensures !Guarded(s.ledger, time)
  {
    DecisionIsDue(c, s, time, n);
    Halves(n);
    assert (n / 2 + 1) * c.Interval() == n / 2 * c.Interval() + c.Interval();
  }

  /** The whole event completes, with the position on record, exactly when the fills' identifiers
      are unused and the entry's own impact is below 1: no guard, no reserve check and no executor
      refusal stands in between. */
  lemma {:induction false} ApprovedEventCompletes(w: World, c: Config, s: State, e: MarketEvent, o: Opportunity, n: nat)
    requires Inv(c, s, n) && e.time == s.lastTime && Approved(w, c, s, e, o)
    requires Infers(w) && e.id != ""
    ensures ProcessMarket(w, c, s, e).Ok?
       <==> FreshIds(Marked(c, s, e).value.ledger, e.id) && PerpImpact(w.root, o, SizedQuantity(w, c, s, e, o), true) < 1.0
    ensures ProcessMarket(w, c, s, e).Ok? ==>
              var after := ProcessMarket(w, c, s, e).value.0;
              var q := SizedQuantity(w, c, s, e, o);
              && after.position == Some(Position(c.symbol, Times(q, e.perpMid), e.time, c.policy.horizon, 0, c.intervalHours))
              && after.ledger.spot.quantity == q > 0.0
              && after.ledger.perp.quantity == -after.ledger.spot.quantity
  {
    hide IsRoot, Times, SizeEntry, Evident, Hedged, Reserved, Sound, EnterAt, Infers, FreshIds, Recorded, HeldAt,
        ApplyFill, PerpImpact;
    DecisionIsReady(w, c, s, e, o, n);
    var marked := Marked(c, s, e).value;
    MarkedKeeps(c, s, e);
    AdmitKeeps(w, c, marked, e);
    AdmitTwice(w, c, marked, e);
    var admitted := Admit(w, c, marked, e).value.0;
    var forecast := ForecastAt(w, c, marked, e.time);
    ApprovedEntryExecutes(w, c, admitted, e, o, forecast);
    SameIds(marked.ledger, admitted.ledger, e.id);
    var entered := EnterAt(w, c, admitted, e, Some(o), forecast);
    assert DecideAt(w, c, marked, e) == entered;
    MarksStillHold(c, s, e);
    if entered.Ok? {
      ScoredSucceeds(w, c, entered.value.state, e, Some(entered.value.decision), entered.value.sizing);
      ScoredKeeps(w, c, entered.value.state, e, Some(entered.value.decision), entered.value.sizing);
    }
    hide Marked, Admit, DecideAt, Scored, Ready, Guarded, MarketRefusal;
  }

  /** No approved size is charged more impact than the worst the curve supports. */
  lemma {:induction false} SizedImpactIsBounded(w: World, c: Config, s: State, e: MarketEvent, o: Opportunity, n: nat)
    requires Inv(c, s, n) && e.time == s.lastTime && Approved(w, c, s, e, o)
    ensures 0.0 <= PerpImpact(w.root, o, SizedQuantity(w, c, s, e, o), true) <= WorstImpact(w, o)
  {
    DecisionIsReady(w, c, s, e, o, n);
    hide IsRoot, SizeEntry, Marked, PerpImpact, WorstImpact, Hedged, Guarded, Evident;
    var marked := Marked(c, s, e).value;
    SizedIsAffordable(w, c, Admit(w, c, marked, e).value.0, e, o, ForecastAt(w, c, marked, e.time));
    hide Admit;
    ImpactIsBounded(w, o, SizedQuantity(w, c, s, e, o));
  }

  lemma SameIds(l: Ledger, m: Ledger, id: string)
    requires l.ids == m.ids
    ensures FreshIds(l, id) == FreshIds(m, id)
  {
  }

  lemma MarksStillHold(c: Config, s: State, e: MarketEvent)
    requires Marked(c, s, e).Ok? && e.marks.time == e.time && e.marks.symbol == c.symbol
    ensures e.marks.spot > 0.0 && e.marks.perp > 0.0 && e.time >= 0 && s.ledger.symbol == c.symbol
  {
    hide Times;
  }

  lemma ScoredSucceeds(w: World, c: Config, s: State, e: MarketEvent, decision: Option<Decision>,
                       sizing: Option<SizingResult>)
    requires e.marks.spot > 0.0 && e.marks.perp > 0.0 && e.marks.time == e.time >= 0
    requires e.marks.symbol == s.ledger.symbol && s.ledger.time == e.time && e.time < s.ledger.nextFunding
    requires Reserved(s.ledger, e.marks.perp, c.collateral) && Admit(w, c, s, e).Ok?
    ensures Scored(w, c, s, e, decision, sizing).Ok?
  {
    hide Times, Recorded, Admit;
  }

  // ---------------------------------------------------------------- what was estimated is what is paid

  /** What a fill cost against its mid. */
  function ExecutionCost(f: Fill): real {
    Times(f.quantity, f.price - f.referenceMid)
  }

  /** The cost fraction of a leg of the round trip, opening or closing, as the gate was quoted it. */
  function QuotedFraction(c: CostEstimate, opening: bool): real {
    if opening then c.entry else c.closeNow
  }

  /** The quoted cost of a trade is, to the last digit, the execution cost its inferred fills book
      plus the fees at the mids: sizing, execution and accounting price the same trade. */
  lemma {:induction false} QuotedCostIsBooked(w: World, e: MarketEvent, o: Opportunity, q: real, horizon: int,
                                              spotFee: real, perpFee: real, opening: bool)
    requires e.opportunity == Some(o) && q > 0.0 && Inferable(e, q) && e.perpMid > 0.0
    requires FromCurve(w.root, o.curve, e.time, o.market.validUntil, Times(q, e.perpMid), q / o.market.advBase, horizon,
                       ChargesFor(o, e, spotFee, perpFee)).Ok?
    ensures var quoted := FromCurve(w.root, o.curve, e.time, o.market.validUntil, Times(q, e.perpMid), q / o.market.advBase,
                                    horizon, ChargesFor(o, e, spotFee, perpFee)).value;
            var fills := InferredFills(w.root, e, q, opening);
            fills.Some?
            && Times(Times(q, e.perpMid), QuotedFraction(quoted, opening))
               == ExecutionCost(fills.value[0]) + ExecutionCost(fills.value[1])
                  + Times(Times(q, e.spotMid), spotFee) + Times(Times(q, e.perpMid), perpFee)
  {
    var sign := if opening then 1.0 else -1.0;
    var impact := PerpImpact(w.root, o, q, opening);
    LegCost(sign, q, e.spotMid, SpotImpact(o));
    LegCost(-sign, q, e.perpMid, impact);
    TimesDistributes(sign, impact, impact);
    var hedge := Times(spotFee * 10000.0 + o.spotExecution, e.spotMid / e.perpMid);
    HedgeInPerp(q, e.spotMid, e.perpMid, spotFee, o.spotExecution);
    TimesDistributes(Times(q, e.perpMid), impact + perpFee, hedge / 10000.0);
    TimesDistributes(Times(q, e.perpMid), impact, perpFee);
    hide Times;
  }

  lemma LegCost(sign: real, q: real, mid: real, impact: real)
    requires sign == 1.0 || sign == -1.0
    ensures Times(Times(sign, q), Times(mid, 1.0 + Times(sign, impact)) - mid) == Times(Times(q, mid), impact)
  {
  }

  lemma HedgeInPerp(q: real, spot: real, perp: real, fee: real, bps: real)
    requires perp > 0.0
    ensures Times(Times(q, perp), Times(fee * 10000.0 + bps, spot / perp) / 10000.0)
         == Times(Times(q, spot), fee) + Times(Times(q, spot), bps / 10000.0)
  {
    var ratio := spot / perp;
    assert ratio * perp == spot;
    assert q * perp * ((fee * 10000.0 + bps) * ratio / 10000.0) == q * (ratio * perp) * (fee + bps / 10000.0);
  }

  // ---------------------------------------------------------------- identifiers

  /** The names the ledger derives from a market event's own. */
  function Derived(id: string): set<string> {
    {id + ":finance", id + ":spot", id + ":perp"}
  }

  function SettledBy(c: Config, e: Event): set<string> {
    if e.OfFunding? && e.funding.time >= c.start then {e.funding.id} else {}
  }

  /** The identifiers of the settlements a stream has had paid. */
  function SettledIds(c: Config, events: seq<Event>): set<string> {
    if events == [] then {} else SettledIds(c, events[..|events| - 1]) + SettledBy(c, events[|events| - 1])
  }

  /** The ledger holds the settlements' own names and names derived from events seen. */
  ghost predicate NamesInStep(s: State, settled: set<string>) {
    settled <= s.ledger.ids
    && forall x | x in s.ledger.ids :: x in settled || exists r :: r in s.ids && x in Derived(r)
  }

  /** No two events share a derived name. */
  lemma DerivedAreDistinct(r: string, id: string)
    requires id + ":spot" in Derived(r) || id + ":perp" in Derived(r)
    ensures r == id
  {
    var x, y := id + ":spot", id + ":perp";
    var f, g, h := r + ":finance", r + ":spot", r + ":perp";
    assert x[|x| - 1] == 't' && y[|y| - 1] == 'p' && f[|f| - 1] == 'e' && g[|g| - 1] == 't' && h[|h| - 1] == 'p';
    assert x == g ==> r == x[..|x| - 5] == id;
    assert y == h ==> r == y[..|y| - 5] == id;
  }

  /** A new event's fills have fresh names exactly when no settlement has taken them. */
  lemma FreshUnlessSettled(s: State, settled: set<string>, id: string, l: Ledger)
    requires NamesInStep(s, settled) && id !in s.ids && l.ids == s.ledger.ids + {id + ":finance"}
    ensures FreshIds(l, id) <==> id + ":spot" !in settled && id + ":perp" !in settled
  {
    hide Derived;
    forall r | r in s.ids ensures id + ":spot" !in Derived(r) && id + ":perp" !in Derived(r) {
      if id + ":spot" in Derived(r) || id + ":perp" in Derived(r) {
        DerivedAreDistinct(r, id);
      }
    }
    var x, y, f := id + ":spot", id + ":perp", id + ":finance";
    assert x[|x| - 1] == 't' && y[|y| - 1] == 'p' && f[|f| - 1] == 'e';
  }

  lemma TradeNames(w: World, c: Config, s: State, e: MarketEvent, quantity: real, opening: bool)
    requires Infers(w) && Trade(w, c, s, e, quantity, opening).Ok?
    ensures var after := Trade(w, c, s, e, quantity, opening).value.0;
            s.ledger.ids <= after.ledger.ids <= s.ledger.ids + Derived(e.id) && after.ids == s.ids
  {
    hide Evident, Reserved, PerpImpact, SpotImpact, Inferable, Times, Guarded, QuoteFrom;
    if Admit(w, c, s, e).Ok? {
      AdmitKeeps(w, c, s, e);
    }
    hide Admit;
    var origin := if c.inferred then Admit(w, c, s, e).value.0 else s;
    var fills := InferredFills(w.root, e, quantity, opening).value;
    FillBothNames(origin.ledger, fills);
    hide FillBoth;
  }

  lemma FillBothNames(l: Ledger, fills: seq<Fill>)
    requires |fills| == 2
    ensures FillBoth(l, fills).Ok? ==> FillBoth(l, fills).value.ids == l.ids + {fills[0].id, fills[1].id}
  {
    hide Times, Guarded, QuoteFrom;
    FillNames(l, fills[0]);
    if ApplyFill(l, fills[0]).Ok? {
      FillNames(ApplyFill(l, fills[0]).value, fills[1]);
    }
    hide ApplyFill;
  }

  lemma FillNames(l: Ledger, f: Fill)
    ensures ApplyFill(l, f).Ok? ==> ApplyFill(l, f).value.ids == l.ids + {f.id}
  {
    hide Times, Guarded, QuoteFrom;
  }

  lemma DecideNames(w: World, c: Config, s: State, e: MarketEvent)
    requires Infers(w) && Proper(w, c, s, e) && DecideAt(w, c, s, e).Ok?
    ensures var after := DecideAt(w, c, s, e).value.state;
            s.ledger.ids <= after.ledger.ids <= s.ledger.ids + Derived(e.id) && after.ids == s.ids
  {
    hide Admit, Infers, EnterAt, HeldAt, IsRoot, Derived, Evident, RollingFunding.Accepted;
    AdmitKeeps(w, c, s, e);
    var (admitted, o) := Admit(w, c, s, e).value;
    if s.position.None? {
      EnterNames(w, c, admitted, e, o, ForecastAt(w, c, s, e.time));
    } else {
      HeldNames(w, c, admitted, e, o, ForecastAt(w, c, s, e.time));
    }
  }

  lemma HeldNames(w: World, c: Config, s: State, e: MarketEvent, o: Option<Opportunity>, forecast: Option<Forecast>)
    requires Infers(w) && Proper(w, c, s, e) && (o.Some? ==> o.value.Valid()) && s.position.Some?
    requires HeldAt(w, c, s, e, o, forecast).Ok?
    ensures var after := HeldAt(w, c, s, e, o, forecast).value.state;
            s.ledger.ids <= after.ledger.ids <= s.ledger.ids + Derived(e.id) && after.ids == s.ids
  {
    hide Infers, Trade, IsRoot, Derived, FromCurve, Decide, ChargesFor, Quote;
    var quantity := -s.ledger.perp.quantity;
    if Trade(w, c, s, e, quantity, false).Ok? {
      TradeNames(w, c, s, e, quantity, false);
    }
  }

  lemma EnterNames(w: World, c: Config, s: State, e: MarketEvent, o: Option<Opportunity>, forecast: Option<Forecast>)
    requires Infers(w) && Proper(w, c, s, e) && (o.Some? ==> o.value.Valid()) && EnterAt(w, c, s, e, o, forecast).Ok?
    ensures var after := EnterAt(w, c, s, e, o, forecast).value.state;
            s.ledger.ids <= after.ledger.ids <= s.ledger.ids + Derived(e.id) && after.ids == s.ids
  {
    hide Infers, Trade, SizeEntry, IsRoot, Derived;
    if o.Some? && SizeEntry(w, c, s, e, o.value, forecast).Ok? && SizeEntry(w, c, s, e, o.value, forecast).value.Some? {
      var q := SizeEntry(w, c, s, e, o.value, forecast).value.value.quantity;
      if Trade(w, c, s, e, q, true).Ok? {
        TradeNames(w, c, s, e, q, true);
      }
    }
  }

  lemma MarketNames(w: World, c: Config, s: State, e: MarketEvent)
    requires Infers(w) && ValidConfig(w, c) && s.ledger.fees.Valid() && OfMarket(e).Valid() && IsRoot(w.root) && e.time >= 0
    requires ProcessMarket(w, c, s, e).Ok?
    ensures var after := ProcessMarket(w, c, s, e).value.0;
            s.ledger.ids <= after.ledger.ids <= s.ledger.ids + Derived(e.id) && after.ids == s.ids
  {
    hide Infers, IsRoot, DecideAt, Scored, Reserved, Times, Derived;
    var marked := Marked(c, s, e).value;
    assert marked.ledger.ids == s.ledger.ids + {e.id + ":finance"} && marked.ids == s.ids;
    FinanceIsAName(e.id);
    if e.decide {
      DecideNames(w, c, marked, e);
      var decided := DecideAt(w, c, marked, e).value;
      ScoredKeeps(w, c, decided.state, e, Some(decided.decision), decided.sizing);
    } else {
      ScoredKeeps(w, c, marked, e, None, None);
    }
    hide Marked;
  }

  lemma FinanceIsAName(id: string)
    ensures id + ":finance" in Derived(id)
  {
  }

  lemma ProcessKeepsNames(w: World, c: Config, s: State, settled: set<string>, e: Event)
    requires Infers(w) && ValidConfig(w, c) && s.ledger.fees.Valid() && e.Valid() && IsRoot(w.root)
    requires Process(w, c, s, e).Ok? && NamesInStep(s, settled)
    ensures NamesInStep(Process(w, c, s, e).value.0, settled + SettledBy(c, e))
    ensures Process(w, c, s, e).value.0.ids == s.ids + {e.Id()}
  {
    hide Infers, IsRoot, ProcessMarket, Derived, Recorded, Times, Reserved, RollingFunding.Accepted,
        RollingFunding.Refusal;
    var seen := s.(lastTime := e.Time(), ids := s.ids + {e.Id()});
    if e.OfMarket? {
      MarketNames(w, c, seen, e.market);
    }
  }

  lemma {:induction false} RunKeepsNames(w: World, c: Config, s: State, events: seq<Event>)
    requires ValidConfig(w, c) && s.ledger.fees.Valid() && IsRoot(w.root) && AllValid(events) && Inv(c, s, 0)
    requires Infers(w) && s.ids == {} && s.ledger.ids == {} && RunAll(w, c, s, events).Ok?
    ensures NamesInStep(RunAll(w, c, s, events).value, SettledIds(c, events))
  {
    hide Inv, Process, IsRoot, OnSchedule, ValidConfig, FeeSchedule.Valid, Infers, Derived, Ticks, SettledBy;
    if events != [] {
      var n := |events| - 1;
      RunKeepsNames(w, c, s, events[..n]);
      ProcessKeepsNames(w, c, RunAll(w, c, s, events[..n]).value, SettledIds(c, events[..n]), events[n]);
    }
  }

  /** The event is new, named, in order and inside the window. */
  predicate Arrives(c: Config, s: State, e: Event) {
    e.Id() != "" && e.Id() !in s.ids && s.lastTime <= e.Time() && c.warmupStart <= e.Time() < c.end
  }

  /** The state that has taken note of the event. */
  function Seen(s: State, e: Event): State {
    s.(lastTime := e.Time(), ids := s.ids + {e.Id()})
  }

  /** After any accepted run, a decision that sizing approves ends with the sized position on both
      legs exactly when no settlement of the run carries the name of one of its fills and its own
      impact is below 1. Otherwise the approved entry is lost and the run with it. */
  lemma {:induction false} EveryApprovedEntryIsExecuted(w: World, c: Config, fees: FeeSchedule, events: seq<Event>,
                                                        e: MarketEvent, o: Opportunity)
    requires fees.Valid() && IsRoot(w.root) && AllValid(events) && Infers(w)
    requires Backtest(w, c, fees, events).Ok?
    requires var s := Backtest(w, c, fees, events).value;
             Arrives(c, s, OfMarket(e)) && Approved(w, c, Seen(s, OfMarket(e)), e, o)
    ensures var s := Backtest(w, c, fees, events).value;
            var q := SizedQuantity(w, c, Seen(s, OfMarket(e)), e, o);
            && (Process(w, c, s, OfMarket(e)).Ok?
                <==> {e.id + ":spot", e.id + ":perp"} !! SettledIds(c, events) && PerpImpact(w.root, o, q, true) < 1.0)
            && (Process(w, c, s, OfMarket(e)).Ok? ==>
                  var after := Process(w, c, s, OfMarket(e)).value.0;
                  && after.ledger.spot.quantity == -after.ledger.perp.quantity == q > 0.0
                  && after.position
                     == Some(Position(c.symbol, Times(q, e.perpMid), e.time, c.policy.horizon, 0, c.intervalHours)))
  {
    hide Infers, Marked, Approved, ProcessMarket, SizedQuantity, FreshIds, Derived, IsRoot, PerpImpact, SettledIds;
    RunKeepsNamesFromStart(w, c, fees, events);
    var s := Backtest(w, c, fees, events).value;
    var seen := Seen(s, OfMarket(e));
    var n := |Ticks(c, events)|;
    ApprovedIsScheduled(w, c, seen, e, o);
    MarkedNames(c, seen, e);
    ApprovedParts(w, c, seen, e, o);
    InvFees(c, s, n);
    ProcessIsMarket(w, c, s, e);
    hide Backtest, Process, Hedged, OnSchedule, Ticks, FeeSchedule.Valid;
    assert Inv(c, seen, n);
    FreshUnlessSettled(s, SettledIds(c, events), e.id, Marked(c, seen, e).value.ledger);
    ApprovedEventCompletes(w, c, seen, e, o, n);
  }

  predicate Colonless(id: string) {
    ':' !in id
  }

  /** Where no settlement's identifier holds a colon, no fill's name is taken. */
  lemma {:induction false} ColonlessNeverClash(c: Config, events: seq<Event>, id: string)
    requires forall i | 0 <= i < |events| :: events[i].OfFunding? ==> Colonless(events[i].Id())
    ensures {id + ":spot", id + ":perp"} !! SettledIds(c, events)
  {
    assert (id + ":spot")[|id|] == ':' && (id + ":perp")[|id|] == ':';
    if events != [] {
      ColonlessNeverClash(c, events[..|events| - 1], id);
    }
  }

  lemma RunKeepsNamesFromStart(w: World, c: Config, fees: FeeSchedule, events: seq<Event>)
    requires fees.Valid() && IsRoot(w.root) && AllValid(events) && Infers(w) && Backtest(w, c, fees, events).Ok?
    ensures NamesInStep(Backtest(w, c, fees, events).value, SettledIds(c, events))
  {
    hide Infers, IsRoot, RunAll, NamesInStep, OnSchedule, FeeSchedule.Valid, SettledIds;
    var start := Initial(w, c, fees).value;
    InitialInv(w, c, fees);
    hide Inv;
    InvFees(c, start, 0);
    RunKeepsNames(w, c, start, events);
  }

  lemma ProcessIsMarket(w: World, c: Config, s: State, e: MarketEvent)
    requires ValidConfig(w, c) && s.ledger.fees.Valid() && OfMarket(e).Valid() && IsRoot(w.root) && e.time >= 0
    requires Arrives(c, s, OfMarket(e)) && e.time <= s.nextDecision
    ensures Process(w, c, s, OfMarket(e)) == ProcessMarket(w, c, Seen(s, OfMarket(e)), e)
  {
    hide ProcessMarket, IsRoot;
  }

  lemma ApprovedIsScheduled(w: World, c: Config, s: State, e: MarketEvent, o: Opportunity)
    requires Approved(w, c, s, e, o)
    ensures e.time == s.nextDecision && Marked(c, s, e).Ok? && o.market.advBase > 0.0
  {
    hide IsRoot, Marked, Admit, SizeEntry;
  }

  lemma ApprovedParts(w: World, c: Config, s: State, e: MarketEvent, o: Opportunity)
    requires Approved(w, c, s, e, o)
    ensures ValidConfig(w, c) && OfMarket(e).Valid() && e.time >= 0
  {
    hide IsRoot, Marked, Admit, SizeEntry;
  }

  lemma MarkedNames(c: Config, s: State, e: MarketEvent)
    requires Marked(c, s, e).Ok?
    ensures Marked(c, s, e).value.ledger.ids == s.ledger.ids + {e.id + ":finance"}
  {
    hide Times;
  }
}
