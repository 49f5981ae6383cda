/** Economic cash accounting of a long-spot, short-perp carry: every event returns a new ledger. */
module Accounting {
  import opened Wrappers
  import opened Reals
  import opened Clock
  import opened Fees

  datatype Fill = Fill(
    id: string, symbol: string, time: int, market: Market, quantity: real, price: real, referenceMid: real)

  datatype FundingSettlement = FundingSettlement(
    id: string, symbol: string, time: int, intervalHours: int, rate: real, markPrice: real)

  datatype Marks = Marks(symbol: string, time: int, spot: real, perp: real)

  datatype LedgerError = BadStart | BadEvent | BadNumber | BadFill | MissingSettlement | AmbiguousSettlement
                       | Reversal | NoFee | BadSettlement | BadFinancing | BadMarks

  // ---------------------------------------------------------------- one leg

  /** A signed quantity, its signed remaining cost basis and what closing it has realized. */
  datatype Leg = Leg(quantity: real, basis: real, realized: real) {
    function Trade(traded: real, price: real): (Leg, real) {
      if Times(quantity, traded) < 0.0 then
        var average := basis / quantity;
        var gain := Times(-traded, price - average);
        (Leg(quantity + traded, Times(quantity + traded, average), realized + gain), gain)
      else
        (Leg(quantity + traded, basis + Times(traded, price), realized), 0.0)
    }

    function Unrealized(mark: real): real {
      Times(quantity, mark) - basis
    }

    /** Price P&L at a mark, closed or not. */
    function Pnl(mark: real): real {
      realized + Unrealized(mark)
    }
  }

  const FLAT := Leg(0.0, 0.0, 0.0)

  /** Trading moves value between what is realized and the basis, and adds the cash paid: at any
      mark the P&L changes by the quantity traded times the mark's distance from the price. */
  lemma {:induction false} TradeMovesPnl(leg: Leg, traded: real, price: real, mark: real)
    ensures var after := leg.Trade(traded, price);
            && after.0.quantity == leg.quantity + traded
            && after.0.realized == leg.realized + after.1
            && after.0.realized - after.0.basis == leg.realized - leg.basis - Times(traded, price)
            && after.0.Pnl(mark) == leg.Pnl(mark) + Times(traded, mark) - Times(traded, price)
  {
    TimesDistributes(leg.quantity, traded, mark);
    if Times(leg.quantity, traded) < 0.0 {
      var average := leg.basis / leg.quantity;
      TimesQuotient(leg.basis, leg.quantity);
      TimesDistributes(leg.quantity, traded, average);
      TimesDistributes(-traded, price, average);
      TimesDistributes(traded, price, average);
      TimesDistributes(traded, average, price);
    }
    hide Times;
  }

  /** Basis is average cost: adding to a leg adds what was paid and realizes nothing; reducing it
      leaves what remains at the average it had. */
  lemma {:induction false} TradeKeepsAverage(leg: Leg, traded: real, price: real)
    requires leg.quantity == 0.0 ==> leg.basis == 0.0
    ensures var (after, gain) := leg.Trade(traded, price);
            if (leg.quantity > 0.0 && traded < 0.0) || (leg.quantity < 0.0 && traded > 0.0)
            then Times(after.basis, leg.quantity) == Times(leg.basis, after.quantity)
            else after.basis == leg.basis + Times(traded, price) && after.realized == leg.realized && gain == 0.0
  {
    assert Times(leg.quantity, traded) < 0.0
      <==> (leg.quantity > 0.0 && traded < 0.0) || (leg.quantity < 0.0 && traded > 0.0) by {
      SignsDiffer(leg.quantity, traded);
    }
    if Times(leg.quantity, traded) < 0.0 {
      AverageScales(leg.basis, leg.quantity, leg.quantity + traded);
    }
    hide Times;
  }

  lemma SignsDiffer(a: real, b: real)
    ensures Times(a, b) < 0.0 <==> (a > 0.0 && b < 0.0) || (a < 0.0 && b > 0.0)
  {
    var x, y := -a, -b;
    TimesPositive(a, b);
    TimesPositive(x, y);
    TimesPositive(a, y);
    TimesPositive(x, b);
    assert Times(x, y) == Times(a, b) && Times(a, y) == -Times(a, b) && Times(x, b) == -Times(a, b);
    TimesSign(a, b);
  }

  lemma AverageScales(basis: real, quantity: real, rest: real)
    requires quantity != 0.0
    ensures Times(Times(rest, basis / quantity), quantity) == Times(basis, rest)
  {
    var average := basis / quantity;
    assert average * quantity == basis;
    assert rest * average * quantity == (average * quantity) * rest;
  }

  /** A leg with no quantity has no basis left: everything is realized. */
  ghost predicate Closed(leg: Leg) {
    leg.quantity == 0.0 ==> leg.basis == 0.0
  }

  lemma {:induction false} TradeKeepsClosed(leg: Leg, traded: real, price: real)
    requires Closed(leg)
    ensures Closed(leg.Trade(traded, price).0)
  {
    if leg.quantity != 0.0 && leg.quantity + traded == 0.0 {
      OppositeSigns(leg.quantity);
    }
  }

  lemma OppositeSigns(a: real)
    requires a != 0.0
    ensures Times(a, -a) < 0.0
  {
    TimesDistributes(a, 0.0, a);
    SquareIsPositive(a);
    TimesSign(a, 0.0);
    hide Times;
    assert -a == 0.0 - a;
  }

  // ---------------------------------------------------------------- the ledger

  datatype Ledger = Ledger(
    symbol: string, initialCapital: real, nextFunding: int, fees: FeeSchedule, cash: real, time: int,
    spot: Leg, perp: Leg, funding: real, feesPaid: real, financing: real, executionCost: real,
    lastFunding: Option<int>, ids: set<string>) {
    function Leg(market: Market): Leg {
      if market.Spot? then spot else perp
    }

    function With(market: Market, leg: Leg): Ledger {
      if market.Spot? then this.(spot := leg) else this.(perp := leg)
    }
  }

  datatype Valuation = Valuation(
    time: int, cash: real, spotQuantity: real, perpQuantity: real, pricePnl: real, funding: real, fees: real,
    financing: real, executionCost: real, grossPnl: real, netPnl: real, grossEquity: real, netEquity: real)

  function Start(symbol: string, capital: real, nextFunding: int, fees: FeeSchedule): Result<Ledger, LedgerError> {
    if capital <= 0.0 || nextFunding < 0 || symbol == "" || nextFunding % HOUR_MS != 0 then Err(BadStart)
    else Ok(Ledger(symbol, capital, nextFunding, fees, capital, 0, FLAT, FLAT, 0.0, 0.0, 0.0, 0.0, None, {}))
  }

  /** The identifier is new, the scope and the order right. */
  predicate Admits(l: Ledger, id: string, symbol: string, time: int) {
    time >= 0 && id != "" && id !in l.ids && symbol == l.symbol && time >= l.time
  }

  /** A perp fill too close to a settlement, on either side, may or may not be paid by it. */
  predicate Guarded(l: Ledger, time: int) {
    l.nextFunding - time <= SETTLEMENT_GUARD_MS
    || (l.lastFunding.Some? && time - l.lastFunding.value <= SETTLEMENT_GUARD_MS)
  }

  function Magnitude(x: real): real {
    if x < 0.0 then -x else x
  }

  function ApplyFill(l: Ledger, f: Fill): Result<Ledger, LedgerError> {
    if !Admits(l, f.id, f.symbol, f.time) then Err(BadEvent)
    else if f.price <= 0.0 || f.referenceMid <= 0.0 then Err(BadNumber)
    else if f.quantity == 0.0 then Err(BadFill)
    else if f.time >= l.nextFunding then Err(MissingSettlement)
    else if f.market.Perp? && Guarded(l, f.time) then Err(AmbiguousSettlement)
    else
      var (leg, gain) := l.Leg(f.market).Trade(f.quantity, f.price);
      if (f.market.Spot? && leg.quantity < 0.0) || (f.market.Perp? && leg.quantity > 0.0) then Err(Reversal)
      else
        match Quote(l.fees, l.symbol, f.market, f.time)
        case None => Err(NoFee)
        case Some(rate) =>
          var fee := Times(Times(Magnitude(f.quantity), f.price), rate);
          var change := if f.market.Spot? then -Times(f.quantity, f.price) else gain;
          Ok(l.With(f.market, leg).(
             cash := l.cash + change - fee,
             feesPaid := l.feesPaid + fee,
             executionCost := l.executionCost + Times(f.quantity, f.price - f.referenceMid),
             time := f.time,
             ids := l.ids + {f.id}))
  }

  function Settle(l: Ledger, s: FundingSettlement): Result<Ledger, LedgerError> {
    if !Admits(l, s.id, s.symbol, s.time) then Err(BadEvent)
    else if s.markPrice <= 0.0 then Err(BadNumber)
    else if s.time != l.nextFunding || !(1 <= s.intervalHours <= 24) then Err(BadSettlement)
    else
      var payment := Times(Times(-l.perp.quantity, s.markPrice), s.rate);
      Ok(l.(cash := l.cash + payment,
            funding := l.funding + payment,
            nextFunding := s.time + s.intervalHours * HOUR_MS,
            lastFunding := Some(s.time),
            time := s.time,
            ids := l.ids + {s.id}))
  }

  function Finance(l: Ledger, id: string, time: int, cost: real): Result<Ledger, LedgerError> {
    if !Admits(l, id, l.symbol, time) then Err(BadEvent)
    else if cost < 0.0 || time >= l.nextFunding then Err(BadFinancing)
    else Ok(l.(cash := l.cash - cost, financing := l.financing + cost, time := time, ids := l.ids + {id}))
  }

  function Value(l: Ledger, m: Marks): Result<Valuation, LedgerError> {
    if m.time < 0 || m.spot <= 0.0 || m.perp <= 0.0 then Err(BadNumber)
    else if m.symbol != l.symbol || m.time < l.time || m.time >= l.nextFunding then Err(BadMarks)
    else
      var pricePnl := l.spot.realized + l.spot.Unrealized(m.spot) + l.perp.realized + l.perp.Unrealized(m.perp);
      var equity := l.cash + Times(l.spot.quantity, m.spot) + l.perp.Unrealized(m.perp);
      var gross := pricePnl + l.funding + l.executionCost;
      Ok(Valuation(m.time, l.cash, l.spot.quantity, l.perp.quantity, pricePnl, l.funding, l.feesPaid, l.financing,
                   l.executionCost, gross, equity - l.initialCapital, l.initialCapital + gross, equity))
  }

  // ---------------------------------------------------------------- runs

  datatype LedgerEvent =
    | Filled(fill: Fill)
    | Settled(settlement: FundingSettlement)
    | Charged(id: string, time: int, cost: real)

  function Step(l: Ledger, e: LedgerEvent): Result<Ledger, LedgerError> {
    match e
    case Filled(f) => ApplyFill(l, f)
    case Settled(s) => Settle(l, s)
    case Charged(id, time, cost) => Finance(l, id, time, cost)
  }

  function Run(l: Ledger, events: seq<LedgerEvent>): Result<Ledger, LedgerError> {
    if events == [] then Ok(l)
    else
      match Run(l, events[..|events| - 1])
      case Err(error) => Err(error)
      case Ok(before) => Step(before, events[|events| - 1])
  }

  /** Cash is the capital plus everything that ever moved it. */
  ghost predicate Balanced(l: Ledger) {
    l.cash == l.initialCapital - l.spot.basis + l.spot.realized + l.perp.realized + l.funding - l.feesPaid - l.financing
  }

  /** The carry never reverses a leg, closed legs keep no basis, and settlements precede the clock. */
  ghost predicate Sound(l: Ledger) {
    && Balanced(l)
    && l.spot.quantity >= 0.0 && l.perp.quantity <= 0.0 && Closed(l.spot) && Closed(l.perp)
    && l.fees.Valid() && l.feesPaid >= 0.0 && l.financing >= 0.0
    && l.time <= l.nextFunding
    && (l.lastFunding.Some? ==> l.lastFunding.value <= l.time && l.lastFunding.value < l.nextFunding)
  }

  lemma {:induction false} FillKeepsSound(l: Ledger, f: Fill)
    requires Sound(l) && ApplyFill(l, f).Ok?
    ensures Sound(ApplyFill(l, f).value)
  {
    TradeMovesPnl(l.Leg(f.market), f.quantity, f.price, f.price);
    TradeKeepsClosed(l.Leg(f.market), f.quantity, f.price);
    var rate := Quote(l.fees, l.symbol, f.market, f.time).value;
    QuoteIsFraction(l.fees.periods, l.fees.allowAssumptions, l.symbol, f.market, f.time);
    TimesSign(Magnitude(f.quantity), f.price);
    TimesSign(Times(Magnitude(f.quantity), f.price), rate);
    hide Times, QuoteFrom, Closed;
  }

  lemma SettleKeepsSound(l: Ledger, s: FundingSettlement)
    requires Sound(l) && Settle(l, s).Ok?
    ensures Sound(Settle(l, s).value)
  {
    hide Times;
  }

  lemma {:induction false} StepKeepsSound(l: Ledger, e: LedgerEvent)
    requires Sound(l) && Step(l, e).Ok?
    ensures Sound(Step(l, e).value) && Step(l, e).value.initialCapital == l.initialCapital
  {
    match e
    case Filled(f) => FillKeepsSound(l, f); hide Times, Sound;
    case Settled(s) => SettleKeepsSound(l, s); hide Times;
    case Charged(id, time, cost) =>
  }

  lemma {:induction false} RunKeepsSound(l: Ledger, events: seq<LedgerEvent>)
    requires Sound(l) && Run(l, events).Ok?
    ensures Sound(Run(l, events).value) && Run(l, events).value.initialCapital == l.initialCapital
  {
    hide Step, Sound;
    if events != [] {
      RunKeepsSound(l, events[..|events| - 1]);
      StepKeepsSound(Run(l, events[..|events| - 1]).value, events[|events| - 1]);
    }
  }

  lemma StartIsSound(symbol: string, capital: real, nextFunding: int, fees: FeeSchedule)
    requires fees.Valid() && Start(symbol, capital, nextFunding, fees).Ok?
    ensures Sound(Start(symbol, capital, nextFunding, fees).value)
  {
  }

  /** What a valuation owes to its parts, given the capital it started from. */
  predicate AddsUp(v: Valuation, capital: real) {
    && v.netPnl == v.pricePnl + v.funding - v.fees - v.financing
    && v.grossPnl - v.netPnl == v.fees + v.financing + v.executionCost
    && v.netEquity == capital + v.netPnl && v.grossEquity == capital + v.grossPnl
  }

  lemma SoundValueAddsUp(l: Ledger, m: Marks)
    requires Sound(l) && Value(l, m).Ok?
    ensures AddsUp(Value(l, m).value, l.initialCapital)
  {
    hide Times;
  }

  /** The accounting identities, after every accepted run and at every mark it can be valued at. */
  lemma {:induction false} ProfitAddsUp(symbol: string, capital: real, nextFunding: int, fees: FeeSchedule,
                                        events: seq<LedgerEvent>, m: Marks)
    requires fees.Valid() && Start(symbol, capital, nextFunding, fees).Ok?
    requires Run(Start(symbol, capital, nextFunding, fees).value, events).Ok?
    requires Value(Run(Start(symbol, capital, nextFunding, fees).value, events).value, m).Ok?
    ensures AddsUp(Value(Run(Start(symbol, capital, nextFunding, fees).value, events).value, m).value, capital)
  {
    var l := Start(symbol, capital, nextFunding, fees).value;
    StartIsSound(symbol, capital, nextFunding, fees);
    RunKeepsSound(l, events);
    SoundValueAddsUp(Run(l, events).value, m);
    hide Run, Times, AddsUp;
  }

  // ---------------------------------------------------------------- the frictionless twin

  /** The same event at its reference mid and free of financing. */
  function TwinEvent(e: LedgerEvent): LedgerEvent {
    match e
    case Filled(f) => Filled(f.(price := f.referenceMid))
    case Settled(s) => e
    case Charged(id, time, cost) => Charged(id, time, 0.0)
  }

  function Twins(events: seq<LedgerEvent>): seq<LedgerEvent> {
    if events == [] then [] else Twins(events[..|events| - 1]) + [TwinEvent(events[|events| - 1])]
  }

  /** What trading has brought in so far, marks apart. */
  function TradedCash(l: Ledger): real {
    l.spot.realized - l.spot.basis + l.perp.realized - l.perp.basis
  }

  /** The twin holds the same quantities and has been paid the same funding; its trading differs
      by exactly the execution cost. */
  ghost predicate Twinned(l: Ledger, t: Ledger) {
    && t.symbol == l.symbol && t.nextFunding == l.nextFunding && t.time == l.time && t.ids == l.ids
    && t.lastFunding == l.lastFunding && t.initialCapital == l.initialCapital && t.funding == l.funding
    && t.fees == Free(l.fees) && t.feesPaid == 0.0 && t.financing == 0.0 && t.executionCost == 0.0
    && t.spot.quantity == l.spot.quantity && t.perp.quantity == l.perp.quantity
    && TradedCash(t) == TradedCash(l) + l.executionCost
  }

  lemma FillTwins(l: Ledger, t: Ledger, f: Fill)
    requires Twinned(l, t) && ApplyFill(l, f).Ok?
    ensures ApplyFill(t, f.(price := f.referenceMid)).Ok?
    ensures Twinned(ApplyFill(l, f).value, ApplyFill(t, f.(price := f.referenceMid)).value)
  {
    TradeMovesPnl(l.Leg(f.market), f.quantity, f.price, 0.0);
    TradeMovesPnl(t.Leg(f.market), f.quantity, f.referenceMid, 0.0);
    FreeQuote(l.fees.periods, l.fees.allowAssumptions, l.symbol, f.market, f.time);
    TimesSign(Times(Magnitude(f.quantity), f.referenceMid), 0.0);
    TimesDistributes(f.quantity, f.price, f.referenceMid);
    TimesDistributes(f.quantity, f.referenceMid, f.referenceMid);
    hide Times, QuoteFrom, Freed;
    var (a, gain) := l.Leg(f.market).Trade(f.quantity, f.price);
    var (b, twinGain) := t.Leg(f.market).Trade(f.quantity, f.referenceMid);
    assert a.quantity == b.quantity;
  }

  lemma StepTwins(l: Ledger, t: Ledger, e: LedgerEvent)
    requires Twinned(l, t) && Step(l, e).Ok?
    ensures Step(t, TwinEvent(e)).Ok? && Twinned(Step(l, e).value, Step(t, TwinEvent(e)).value)
  {
    match e
    case Filled(f) => FillTwins(l, t, f); hide Times, Twinned;
    case Settled(s) => hide Times;
    case Charged(id, time, cost) =>
  }

  lemma {:induction false} RunTwins(l: Ledger, t: Ledger, events: seq<LedgerEvent>)
    requires Twinned(l, t) && Run(l, events).Ok?
    ensures Run(t, Twins(events)).Ok? && Twinned(Run(l, events).value, Run(t, Twins(events)).value)
  {
    hide Step, Twinned;
    if events != [] {
      var init, last := events[..|events| - 1], events[|events| - 1];
      RunTwins(l, t, init);
      StepTwins(Run(l, init).value, Run(t, Twins(init)).value, last);
      assert Twins(events)[..|Twins(events)| - 1] == Twins(init);
    }
  }

  /** Gross P&L is what the same run would have netted at the reference mids, free of fees and financing. */
  lemma {:induction false} GrossIsFrictionless(symbol: string, capital: real, nextFunding: int, fees: FeeSchedule,
                                               events: seq<LedgerEvent>, m: Marks)
    requires fees.Valid() && Start(symbol, capital, nextFunding, fees).Ok?
    requires Run(Start(symbol, capital, nextFunding, fees).value, events).Ok?
    ensures Start(symbol, capital, nextFunding, Free(fees)).Ok?
    ensures Run(Start(symbol, capital, nextFunding, Free(fees)).value, Twins(events)).Ok?
    ensures var l := Run(Start(symbol, capital, nextFunding, fees).value, events).value;
            var t := Run(Start(symbol, capital, nextFunding, Free(fees)).value, Twins(events)).value;
            && (Value(l, m).Ok? <==> Value(t, m).Ok?)
            && (Value(l, m).Ok? ==> Value(l, m).value.grossPnl == Value(t, m).value.netPnl
                                    && Value(t, m).value.grossPnl == Value(t, m).value.netPnl)
  {
    var l0, t0 := Start(symbol, capital, nextFunding, fees).value, Start(symbol, capital, nextFunding, Free(fees)).value;
    RunTwins(l0, t0, events);
    FreeIsValid(fees.periods, fees.allowAssumptions);
    StartIsSound(symbol, capital, nextFunding, Free(fees));
    RunKeepsSound(t0, Twins(events));
    hide Run, Times;
  }

  lemma {:induction false} FreeIsValid(periods: seq<FeePeriod>, allowed: bool)
    ensures FeeSchedule(Freed(periods), allowed).Valid()
  {
    if periods != [] {
      FreeIsValid(periods[1..], allowed);
      assert Freed(periods)[1..] == Freed(periods[1..]);
    }
  }
}
