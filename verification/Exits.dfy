/** Exactly when a decided exit closes the position under inferred execution. */
module Exits {
  import opened Wrappers
  import opened Reals
  import opened Fees
  import opened Accounting
  import opened Carry
  import opened Costs
  import opened Sizing
  import opened Execution
  import opened WalkForward
  import opened Protocol
  import opened Affordability

  /** The moment of a scheduled decision on an open account, with its evidence admitted. */
  ghost predicate Holding(w: World, c: Config, s: State, e: MarketEvent, o: Option<Opportunity>) {
    && Proper(w, c, s, e) && s.position.Some? && Admit(w, c, s, e) == Ok((s, o)) && e.id != ""
    && Hedged(s.ledger) && s.ledger.perp.quantity < 0.0 && s.ledger.symbol == c.symbol && e.marks.symbol == c.symbol
    && s.ledger.time <= e.time && e.time < s.ledger.nextFunding && !Guarded(s.ledger, e.time)
  }

  /** What closing asks of the market: evidence (admitted, if execution must be inferred) that
      supports the whole position, a spot leg left with a price, and fees on both legs. */
  predicate Supported(c: Config, s: State, e: MarketEvent, o: Option<Opportunity>) {
    && Quote(s.ledger.fees, c.symbol, Spot, e.time).Some? && Quote(s.ledger.fees, c.symbol, Perp, e.time).Some?
    && (c.inferred ==> o.Some?) && e.opportunity.Some?
    && var (evidence, quantity) := (e.opportunity.value, -s.ledger.perp.quantity);
       && evidence.market.advBase > 0.0 && evidence.curve.symbol == e.marks.symbol
       && evidence.curve.admittedAt <= e.time && evidence.curve.evidenceEnd <= e.time
       && evidence.market.observedAt <= e.time < evidence.market.validUntil
       && evidence.curve.sizeMin <= quantity / evidence.market.advBase <= evidence.curve.sizeMax
       && quantity <= evidence.market.validatedQuantity && evidence.spotExecution < 10000.0
  }

  predicate Closable(c: Config, s: State, e: MarketEvent, o: Option<Opportunity>) {
    Supported(c, s, e, o) && FreshIds(s.ledger, e.id)
  }

  lemma SupportedIsInferable(c: Config, s: State, e: MarketEvent, o: Option<Opportunity>)
    ensures Supported(c, s, e, o)
       <==> && (c.inferred ==> o.Some?) && Inferable(e, -s.ledger.perp.quantity) && SpotImpact(e.opportunity.value) < 1.0
            && Quote(s.ledger.fees, c.symbol, Spot, e.time).Some? && Quote(s.ledger.fees, c.symbol, Perp, e.time).Some?
  {
    hide Quote;
  }

  /** What the account is worth closed at the inferred prices, fees paid. */
  function Worth(w: World, c: Config, s: State, e: MarketEvent, o: Option<Opportunity>): real
    requires Supported(c, s, e, o)
  {
    var q, evidence := -s.ledger.perp.quantity, e.opportunity.value;
    var spot := Times(e.spotMid, 1.0 - SpotImpact(evidence));
    var perp := Times(e.perpMid, 1.0 + PerpImpact(w.root, evidence, q, false));
    s.ledger.cash + Times(q, spot) + s.ledger.perp.Unrealized(perp)
    - Times(Times(q, spot), Quote(s.ledger.fees, c.symbol, Spot, e.time).value)
    - Times(Times(q, perp), Quote(s.ledger.fees, c.symbol, Perp, e.time).value)
  }

  /** A fill that closes a leg. */
  lemma ClosingFill(l: Ledger, f: Fill)
    requires Sound(l) && l.Leg(f.market).quantity == -f.quantity && f.quantity != 0.0
    requires f.symbol == l.symbol && f.time >= l.time && f.time >= 0 && f.time < l.nextFunding && !Guarded(l, f.time)
    requires f.referenceMid > 0.0 && f.id != ""
    ensures ApplyFill(l, f).Ok? <==> f.id !in l.ids && f.price > 0.0 && Quote(l.fees, l.symbol, f.market, f.time).Some?
    ensures ApplyFill(l, f).Ok? ==>
              var m := ApplyFill(l, f).value;
              var fee := Times(Times(Magnitude(f.quantity), f.price), Quote(l.fees, l.symbol, f.market, f.time).value);
              && m == l.With(f.market, m.Leg(f.market)).(cash := m.cash, feesPaid := m.feesPaid,
                                                         executionCost := m.executionCost,
                                                         time := f.time, ids := l.ids + {f.id})
              && m.cash == l.cash - fee + if f.market.Spot? then Times(-f.quantity, f.price) else l.perp.Unrealized(f.price)
  {
    OppositeSigns(l.Leg(f.market).quantity);
    TimesDistributes(f.quantity, f.price, f.price);
    ClosingRealizes(l.perp, f.price);
    hide Times, QuoteFrom, Guarded;
  }

  /** Closing a leg realizes what it had not. */
  lemma ClosingRealizes(leg: Leg, price: real)
    requires Closed(leg)
    ensures leg.Trade(-leg.quantity, price).1 == leg.Unrealized(price)
  {
    TradeMovesPnl(leg, -leg.quantity, price, price);
    TradeKeepsClosed(leg, -leg.quantity, price);
    TimesSign(leg.quantity - leg.quantity, price);
    hide Times;
  }

  /** Two closing fills, one after the other on the same account. */
  lemma BothFillsClose(l: Ledger, spot: Fill, perp: Fill)
    requires Sound(l) && spot.market.Spot? && perp.market.Perp? && spot.time == perp.time
    requires l.spot.quantity == -spot.quantity && l.perp.quantity == -perp.quantity && spot.quantity < 0.0 < perp.quantity
    requires spot.symbol == l.symbol == perp.symbol && !Guarded(l, spot.time)
    requires spot.time >= 0 && l.time <= spot.time < l.nextFunding
    requires spot.referenceMid > 0.0 && perp.referenceMid > 0.0 && spot.id != "" && perp.id != "" && spot.id != perp.id
    ensures FillBoth(l, [spot, perp]).Ok?
       <==> && spot.id !in l.ids && perp.id !in l.ids && spot.price > 0.0 && perp.price > 0.0
            && Quote(l.fees, l.symbol, Spot, spot.time).Some? && Quote(l.fees, l.symbol, Perp, spot.time).Some?
    ensures FillBoth(l, [spot, perp]).Ok? ==>
              FillBoth(l, [spot, perp]).value.cash
              == l.cash + Times(-spot.quantity, spot.price) + l.perp.Unrealized(perp.price)
                 - Times(Times(-spot.quantity, spot.price), Quote(l.fees, l.symbol, Spot, spot.time).value)
                 - Times(Times(perp.quantity, perp.price), Quote(l.fees, l.symbol, Perp, spot.time).value)
  {
    hide Guarded, ApplyFill, Times, Quote;
    ClosingFill(l, spot);
    if ApplyFill(l, spot).Ok? {
      var half := ApplyFill(l, spot).value;
      FillMoves(l, spot);
      SameGuard(l, half, spot.time);
      ClosingFill(half, perp);
    }
  }

  /** Both inferred legs of an exit. */
  lemma BothLegsClose(w: World, c: Config, s: State, e: MarketEvent, o: Option<Opportunity>)
    requires Holding(w, c, s, e, o) && Inferable(e, -s.ledger.perp.quantity)
    ensures var fills := InferredFills(w.root, e, -s.ledger.perp.quantity, false);
            && fills.Some? && Paired(c, e, fills.value, -s.ledger.perp.quantity, false)
            && (FillBoth(s.ledger, fills.value).Ok?
                <==> && FreshIds(s.ledger, e.id) && SpotImpact(e.opportunity.value) < 1.0
                     && Quote(s.ledger.fees, c.symbol, Spot, e.time).Some?
                     && Quote(s.ledger.fees, c.symbol, Perp, e.time).Some?)
            && (FillBoth(s.ledger, fills.value).Ok? && Supported(c, s, e, o) ==>
                  FillBoth(s.ledger, fills.value).value.cash == Worth(w, c, s, e, o))
  {
    hide IsRoot, PerpImpact, SpotImpact, Guarded, FillBoth, Times, Quote, Admit;
    var q, evidence := -s.ledger.perp.quantity, e.opportunity.value;
    var fills := InferredFills(w.root, e, q, false).value;
    ClosingPrices(w, e, q);
    SignedQuantity(q);
    NegativeUnit(SpotImpact(evidence));
    NegativeUnit(PerpImpact(w.root, evidence, q, false));
    IdsDiffer(e.id);
    BothFillsClose(s.ledger, fills[0], fills[1]);
    assert fills == [fills[0], fills[1]];
  }

  lemma NegativeUnit(x: real)
    ensures 1.0 + Times(-1.0, x) == 1.0 - x && 1.0 - Times(-1.0, x) == 1.0 + x
  {
  }

  /** Selling the spot below its mid may leave no price; buying the perp back always has one. */
  lemma ClosingPrices(w: World, e: MarketEvent, q: real)
    requires IsRoot(w.root) && OfMarket(e).Valid() && Inferable(e, q) && q > 0.0 && e.spotMid > 0.0 && e.perpMid > 0.0
    ensures var fills := InferredFills(w.root, e, q, false).value;
            (fills[0].price > 0.0 <==> SpotImpact(e.opportunity.value) < 1.0) && fills[1].price > 0.0
  {
    var o := e.opportunity.value;
    var impact := PerpImpact(w.root, o, q, false);
    QuotientSign(q, o.market.advBase);
    TimesSign(o.curve.buyBps, w.root(q / o.market.advBase));
    assert Times(-1.0, SpotImpact(o)) == -SpotImpact(o) && Times(-1.0, impact) == -impact;
    TimesPositive(e.spotMid, 1.0 - SpotImpact(o));
    TimesSign(e.spotMid, 1.0 - SpotImpact(o));
    TimesPositive(e.perpMid, 1.0 + impact);
    hide Times, IsRoot;
  }

  /** A decided exit closes both legs exactly when the position can be closed. */
  lemma {:induction false} DecidedExitCloses(w: World, c: Config, s: State, e: MarketEvent, o: Option<Opportunity>,
                                             forecast: Option<Forecast>)
    requires Holding(w, c, s, e, o) && Infers(w) && (o.Some? ==> o.value.Valid())
    requires var d := HeldDecision(w, c, s, e, o, forecast); d.Ok? && d.value.action == Exit
    ensures HeldAt(w, c, s, e, o, forecast).Ok? <==> Closable(c, s, e, o)
    ensures HeldAt(w, c, s, e, o, forecast).Ok? ==>
              var d := HeldAt(w, c, s, e, o, forecast).value;
              && d.decision.action == Exit && d.state.position.None? && SameClock(s, d.state)
              && d.state.ledger.perp.quantity == 0.0 && d.state.ledger.spot.quantity == 0.0 && d.state.ledger.time == e.time
              && Hedged(d.state.ledger) && d.state.foldCurves == s.foldCurves
              && d.state.ledger.cash == Worth(w, c, s, e, o)
  {
    hide IsRoot, Infers, HeldDecision, InferredFills, Reserved, Quote, Guarded, Inferable, SpotImpact, FreshIds, Sound,
        Worth, Supported;
    SupportedIsInferable(c, s, e, o);
    var q := -s.ledger.perp.quantity;
    ExecutesInferred(w, e, q);
    if Inferable(e, q) {
      BothLegsClose(w, c, s, e, o);
      var fills := InferredFills(w.root, e, q, false).value;
      if FillBoth(s.ledger, fills).Ok? {
        FillBothMoves(s.ledger, fills);
        FillMoves(s.ledger, fills[0]);
        FillMoves(ApplyFill(s.ledger, fills[0]).value, fills[1]);
      }
    }
    hide FillBoth, Admit, ApplyFill;
  }

  lemma ExecutesInferred(w: World, e: MarketEvent, q: real)
    requires Infers(w)
    ensures w.execute(e, q, false) == InferredFills(w.root, e, q, false)
    ensures InferredFills(w.root, e, q, false).Some? <==> Inferable(e, q)
  {
  }

  // ---------------------------------------------------------------- the whole event

  /** A decision event on an open account for which the decision is to exit. */
  ghost predicate Leaving(w: World, c: Config, s: State, e: MarketEvent) {
    && ValidConfig(w, c) && s.ledger.fees.Valid() && OfMarket(e).Valid() && IsRoot(w.root) && e.time >= 0 && e.id != ""
    && e.decide && MarketRefusal(c, s, e).None? && s.position.Some? && Marked(c, s, e).Ok? && e.marks.perp > 0.0
    && var marked := Marked(c, s, e).value;
       && marked.position.Some? && marked.ledger.fees.Valid() && Admit(w, c, marked, e).Ok?
       && var (admitted, o) := Admit(w, c, marked, e).value;
          && admitted.position.Some? && admitted.ledger.fees.Valid() && (o.Some? ==> o.value.Valid())
          && e.spotMid > 0.0 && e.perpMid > 0.0
          && var d := HeldDecision(w, c, admitted, e, o, ForecastAt(w, c, marked, e.time));
             d.Ok? && d.value.action == Exit
  }

  /** The account and the evidence the exit is decided on. */
  function Deciding(w: World, c: Config, s: State, e: MarketEvent): (State, Option<Opportunity>)
    requires Leaving(w, c, s, e)
  {
    Admit(w, c, Marked(c, s, e).value, e).value
  }

  lemma ExitIsHolding(w: World, c: Config, s: State, e: MarketEvent, n: nat)
    requires Inv(c, s, n) && e.time == s.lastTime && Leaving(w, c, s, e)
    ensures var (admitted, o) := Deciding(w, c, s, e); Holding(w, c, admitted, e, o)
  {
    hide IsRoot, Times, HeldDecision, Evident, Hedged, Reserved, Sound;
    MarkedKeeps(c, s, e);
    var marked := Marked(c, s, e).value;
    AdmitKeeps(w, c, marked, e);
    AdmitTwice(w, c, marked, e);
    DecisionIsClear(w, c, s, e.time, n);
    SameGuard(s.ledger, marked.ledger, e.time);
    HedgedLegSigns(s.ledger);
    hide Marked, Admit, Guarded;
  }

  lemma HedgedLegSigns(l: Ledger)
    requires Hedged(l)
    ensures l.perp.quantity <= 0.0
  {
  }

  /** An empty account holds its reserve exactly when it is not in debt. */
  lemma FlatReserve(l: Ledger, mark: real, collateral: real)
    requires Hedged(l) && l.perp.quantity == 0.0
    ensures Reserved(l, mark, collateral) <==> l.cash >= 0.0
  {
    TimesSign(0.0, mark);
    TimesSign(Times(0.0, mark), collateral);
    hide Times;
  }

  /** The whole event completes, flat and without a position, exactly when the position can be
      closed and the account is worth no less than nothing closed. */
  lemma {:induction false} ExitEventCompletes(w: World, c: Config, s: State, e: MarketEvent, n: nat)
    requires Inv(c, s, n) && e.time == s.lastTime && Leaving(w, c, s, e) && Infers(w)
    ensures var (admitted, o) := Deciding(w, c, s, e);
            ProcessMarket(w, c, s, e).Ok? <==> Closable(c, admitted, e, o) && Worth(w, c, admitted, e, o) >= 0.0
    ensures ProcessMarket(w, c, s, e).Ok? ==>
              var after := ProcessMarket(w, c, s, e).value.0;
              after.position.None? && after.ledger.perp.quantity == 0.0 && after.ledger.spot.quantity == 0.0
  {
    hide IsRoot, Times, Evident, Hedged, Reserved, Sound, HeldAt, HeldDecision, Infers, Closable, Worth, Recorded,
        EnterAt,
        ApplyFill;
    ExitIsHolding(w, c, s, e, n);
    var marked := Marked(c, s, e).value;
    MarkedKeeps(c, s, e);
    AdmitKeeps(w, c, marked, e);
    AdmitTwice(w, c, marked, e);
    var (admitted, o) := Admit(w, c, marked, e).value;
    var forecast := ForecastAt(w, c, marked, e.time);
    DecidedExitCloses(w, c, admitted, e, o, forecast);
    var left := HeldAt(w, c, admitted, e, o, forecast);
    assert DecideAt(w, c, marked, e) == left;
    MarksStillHold(c, s, e);
    if left.Ok? {
      var after := left.value.state;
      FlatReserve(after.ledger, e.marks.perp, c.collateral);
      ScoredNeedsReserve(w, c, after, e, Some(left.value.decision), left.value.sizing);
      if Scored(w, c, after, e, Some(left.value.decision), left.value.sizing).Ok? {
        ScoredKeeps(w, c, after, e, Some(left.value.decision), left.value.sizing);
      }
    }
    hide Marked, Admit, DecideAt, Scored, Holding, Guarded, MarketRefusal;
  }

  lemma ScoredNeedsReserve(w: World, c: Config, s: State, e: MarketEvent, decision: Option<Decision>,
                           sizing: Option<SizingResult>)
    requires e.marks.spot > 0.0 && e.marks.perp > 0.0 && e.marks.time == e.time >= 0
    requires e.marks.symbol == s.ledger.symbol && s.ledger.time == e.time && e.time < s.ledger.nextFunding
    requires Admit(w, c, s, e).Ok?
    ensures Scored(w, c, s, e, decision, sizing).Ok? <==> Reserved(s.ledger, e.marks.perp, c.collateral)
  {
    hide Times, Recorded, Admit, Reserved;
  }

  // ---------------------------------------------------------------- the whole run

  /** After any accepted run, an exit the strategy decides on is executed exactly when no settlement
      of the run has the name of one of its fills, the market supports it and it leaves no debt. */
  lemma {:induction false} EveryExitIsExecuted(w: World, c: Config, fees: FeeSchedule, events: seq<Event>,
                                               e: MarketEvent)
    requires fees.Valid() && IsRoot(w.root) && AllValid(events) && Infers(w)
    requires Backtest(w, c, fees, events).Ok?
    requires var s := Backtest(w, c, fees, events).value;
             Arrives(c, s, OfMarket(e)) && Leaving(w, c, Seen(s, OfMarket(e)), e)
    ensures var s := Backtest(w, c, fees, events).value;
            var (admitted, o) := Deciding(w, c, Seen(s, OfMarket(e)), e);
            && (Process(w, c, s, OfMarket(e)).Ok?
                <==> && {e.id + ":spot", e.id + ":perp"} !! SettledIds(c, events)
                     && Supported(c, admitted, e, o) && Worth(w, c, admitted, e, o) >= 0.0)
            && (Process(w, c, s, OfMarket(e)).Ok? ==>
                  var after := Process(w, c, s, OfMarket(e)).value.0;
                  after.position.None? && after.ledger.spot.quantity == 0.0 && after.ledger.perp.quantity == 0.0)
  {
    hide Infers, Marked, Leaving, ProcessMarket, Supported, Worth, Deciding, FreshIds, Derived, IsRoot, SettledIds;
    RunKeepsNamesFromStart(w, c, fees, events);
    var s := Backtest(w, c, fees, events).value;
    var seen := Seen(s, OfMarket(e));
    var n := |Ticks(c, events)|;
    ExitIsScheduled(w, c, seen, e);
    MarkedNames(c, seen, e);
    InvFees(c, s, n);
    ProcessIsMarket(w, c, s, e);
    hide Backtest, Process, Hedged, OnSchedule, Ticks, FeeSchedule.Valid;
    assert Inv(c, seen, n);
    FreshUnlessSettled(s, SettledIds(c, events), e.id, Marked(c, seen, e).value.ledger);
    ExitEventCompletes(w, c, seen, e, n);
    SameIds(Marked(c, seen, e).value.ledger, Deciding(w, c, seen, e).0.ledger, e.id);
  }

  lemma ExitIsScheduled(w: World, c: Config, s: State, e: MarketEvent)
    requires Leaving(w, c, s, e)
    ensures e.time == s.nextDecision && Marked(c, s, e).Ok? && ValidConfig(w, c) && OfMarket(e).Valid() && e.time >= 0
    ensures Deciding(w, c, s, e).0.ledger == Marked(c, s, e).value.ledger
  {
    hide IsRoot, Marked, HeldDecision, Evident, ValidConfig, Opportunity.Valid;
  }
}
