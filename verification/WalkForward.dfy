/** The walk-forward runner as a function: one event, one next state and perhaps one record. */
module WalkForward {
  import opened Wrappers
  import opened Reals
  import opened Clock
  import opened Fees
  import opened Accounting
  import opened Carry
  import opened Costs
  import opened Sizing
  import opened Execution
  import RollingFunding

  datatype Config = Config(
    symbol: string, warmupStart: int, start: int, end: int, capital: real, collateral: real, policy: Policy,
    inferred: bool, rollingDays: int, minSettlements: int, intervalHours: int, delay: int) {
    function Interval(): int {
      intervalHours * HOUR_MS
    }
  }

  datatype FundingEvent = FundingEvent(id: string, time: int, rate: real, intervalHours: int, mark: Option<real>)

  datatype Event = OfFunding(funding: FundingEvent) | OfMarket(market: MarketEvent) {
    function Id(): string {
      if OfFunding? then funding.id else market.id
    }

    function Time(): int {
      if OfFunding? then funding.time else market.time
    }

    predicate Valid() {
      OfMarket? && market.opportunity.Some? ==> market.opportunity.value.Valid()
    }
  }

  /** What the runner is given: the calendar, square roots, a forecaster reading only the history
      observed so far, and an executor proposing fills. */
  datatype World = World(
    foldStart: int -> int,
    root: real -> real,
    predict: (seq<RollingFunding.Observation>, int, int) -> Option<Forecast>,
    execute: (MarketEvent, real, bool) -> Option<seq<Fill>>)

  datatype State = State(
    ledger: Ledger, position: Option<Position>, lastTime: int, nextObservation: int, ids: set<string>,
    foldCurves: map<int, string>, nextDecision: int, observations: seq<RollingFunding.Attempt>)

  datatype Kind = FundingRecord | MarketRecord

  datatype Record = Record(
    id: string, time: int, foldStart: int, kind: Kind, decision: Option<Decision>, valuation: Option<Valuation>,
    planned: Option<int>, held: int, quantity: real, fraction: Option<real>, notional: Option<real>,
    cash: real, funding: real, admitted: bool, sizing: Option<SizingResult>)

  datatype RunError = BadConfig | BadStream | OutsideWindow | MissedDecision | BadFunding | HistoryRefused
                    | WarmupTrading | BadMarket | DecisionTooEarly | Unscheduled | LedgerRefused(error: LedgerError)
                    | ReserveShortfall | NonpositiveEquity | CurveChanged | ExecutionUnavailable | NoFeeQuote
                    | BadPosition

  // ---------------------------------------------------------------- configuration

  predicate ValidConfig(w: World, c: Config) {
    && c.warmupStart >= 0 && c.rollingDays >= 1 && c.minSettlements >= 3 && c.intervalHours >= 1
    && c.capital > 0.0 && 0.0 < c.collateral <= 1.0 && c.policy.Valid()
    && (c.symbol == "BTCUSDT" || c.symbol == "SOLUSDT")
    && c.warmupStart < c.start < c.end && c.start == w.foldStart(c.start) && c.end == w.foldStart(c.end)
    && c.intervalHours <= 24 && 24 % c.intervalHours == 0
    && SETTLEMENT_GUARD_MS < c.delay < c.Interval() - SETTLEMENT_GUARD_MS
    && c.warmupStart % c.Interval() == 0
  }

  function Initial(w: World, c: Config, fees: FeeSchedule): Result<State, RunError>
  {
    if !ValidConfig(w, c) then Err(BadConfig)
    else
      match Accounting.Start(c.symbol, c.capital, c.start, fees)
      case Err(error) => Err(LedgerRefused(error))
      case Ok(ledger) => Ok(State(ledger, None, c.warmupStart, c.warmupStart, {}, map[], c.start + c.delay, []))
  }

  // ---------------------------------------------------------------- admission, charges and fills

  /** Market evidence of the right fold, symbol and instant, known by then. */
  predicate Evident(w: World, c: Config, e: MarketEvent, o: Opportunity) {
    && o.foldStart == w.foldStart(e.time) && o.curve.evidenceEnd <= o.foldStart && o.curve.admittedAt <= e.time
    && o.curve.symbol == c.symbol && (o.curve.kind.Synthetic? ==> c.policy.allowSynthetic)
    && o.market.symbol == c.symbol && o.market.observedAt <= e.time < o.market.validUntil
    && o.market.advEnd == e.time / DAY_MS * DAY_MS && o.market.metadataFrom <= e.time < o.market.metadataUntil
    && o.market.price == e.perpMid
  }

  /** The opportunity if it is evident; the first curve of a fold is the fold's only one. */
  function Admit(w: World, c: Config, s: State, e: MarketEvent): Result<(State, Option<Opportunity>), RunError> {
    if e.opportunity.None? || !Evident(w, c, e, e.opportunity.value) then Ok((s, None))
    else
      var o := e.opportunity.value;
      if o.foldStart in s.foldCurves && s.foldCurves[o.foldStart] != o.curve.artifact then Err(CurveChanged)
      else Ok((s.(foldCurves := s.foldCurves[o.foldStart := o.curve.artifact]), Some(o)))
  }

  function ChargesFor(o: Opportunity, e: MarketEvent, spotFee: real, perpFee: real): Charges
    requires e.perpMid > 0.0
  {
    var hedge := Times(spotFee * 10000.0 + o.spotExecution, e.spotMid / e.perpMid);
    Charges(o.perpHalfSpread, o.perpHalfSpread, perpFee * 10000.0, perpFee * 10000.0, hedge, hedge, o.financing)
  }

  /** Collateral the perp leg must keep, at a mark. */
  predicate Reserved(l: Ledger, mark: real, collateral: real) {
    l.cash + l.perp.Unrealized(mark) >= Times(Times(Magnitude(l.perp.quantity), mark), collateral)
  }

  /** Both legs in full, at the event's time and mids. */
  predicate Paired(c: Config, e: MarketEvent, fills: seq<Fill>, quantity: real, opening: bool) {
    && |fills| == 2
    && fills[0].market == Spot && fills[0].quantity == (if opening then quantity else -quantity)
    && fills[0].time == e.time && fills[0].symbol == c.symbol && fills[0].referenceMid == e.spotMid
    && fills[1].market == Perp && fills[1].quantity == (if opening then -quantity else quantity)
    && fills[1].time == e.time && fills[1].symbol == c.symbol && fills[1].referenceMid == e.perpMid
  }

  function FillBoth(l: Ledger, fills: seq<Fill>): Result<Ledger, LedgerError>
    requires |fills| == 2
  {
    match ApplyFill(l, fills[0])
    case Err(error) => Err(error)
    case Ok(half) => ApplyFill(half, fills[1])
  }

  /** Executes both legs, or refuses an opening that would break the reserve. */
  function Trade(w: World, c: Config, s: State, e: MarketEvent, quantity: real, opening: bool)
      : Result<(State, bool), RunError> {
    match Admit(w, c, s, e)
    case Err(error) => if c.inferred then Err(error) else TradeFills(w, c, s, e, quantity, opening)
    case Ok((admitted, o)) =>
      if c.inferred && o.None? then Err(ExecutionUnavailable)
      else TradeFills(w, c, if c.inferred then admitted else s, e, quantity, opening)
  }

  function TradeFills(w: World, c: Config, s: State, e: MarketEvent, quantity: real, opening: bool)
      : Result<(State, bool), RunError> {
    var fills := w.execute(e, quantity, opening);
    if fills.None? || !Paired(c, e, fills.value, quantity, opening) then Err(ExecutionUnavailable)
    else
      match FillBoth(s.ledger, fills.value)
      case Err(error) => Err(LedgerRefused(error))
      case Ok(proposed) =>
        if opening && !Reserved(proposed, e.marks.perp, c.collateral) then Ok((s, false))
        else Ok((s.(ledger := proposed), true))
  }

  // ---------------------------------------------------------------- decisions

  /** The largest opening impact the curve can infer on the perp leg. */
  function WorstImpact(w: World, o: Opportunity): real {
    (Times(o.curve.sellBps, w.root(o.curve.sizeMax)) + o.perpHalfSpread) / 10000.0
  }

  /** Cash a unit of the carry ties up in the worst case: spot and its fee, collateral, an adverse
      mark, and the perp's worst impact and fee. */
  function PerUnit(w: World, c: Config, e: MarketEvent, o: Opportunity, spotFee: real, perpFee: real): real {
    Times(Times(e.spotMid, 1.0 + SpotImpact(o)), 1.0 + spotFee)
    + Times(e.marks.perp, c.collateral)
    + Max(0.0, e.marks.perp - e.perpMid)
    + Times(e.perpMid, WorstImpact(w, o) + perpFee)
  }

  /** The largest notional the cash can carry. */
  function Cap(cash: real, perUnit: real, perpMid: real): real
    requires perUnit > 0.0
  {
    Times(Max(0.0, cash) / perUnit, perpMid)
  }

  function AskFor(c: Config, e: MarketEvent, o: Opportunity, forecast: Option<Forecast>, cap: real,
                  charges: Charges): Ask {
    Ask(Strategy(c.symbol, c.policy), e.time, forecast, o.approval,
        o.market.(maxNotional := Min(o.market.maxNotional, cap)), o.curve, charges)
  }

  /** A decision, the state it leaves and, for an entry, the sizing behind it. */
  datatype Decided = Decided(state: State, decision: Decision, sizing: Option<SizingResult>)

  function Waiting(reason: Reason): Decision {
    Decision(Wait, reason, None, None)
  }

  ghost predicate Proper(w: World, c: Config, s: State, e: MarketEvent) {
    ValidConfig(w, c) && s.ledger.fees.Valid() && OfMarket(e).Valid() && e.spotMid > 0.0 && e.perpMid > 0.0 && e.time >= 0
    && e.marks.perp > 0.0 && IsRoot(w.root)
  }

  lemma PerUnitIsPositive(w: World, c: Config, s: State, e: MarketEvent, o: Opportunity, spotFee: real, perpFee: real)
    requires Proper(w, c, s, e) && o.Valid() && 0.0 <= spotFee && 0.0 <= perpFee
    ensures PerUnit(w, c, e, o, spotFee, perpFee) > 0.0
  {
    TimesPositive(e.spotMid, 1.0 + SpotImpact(o));
    TimesPositive(Times(e.spotMid, 1.0 + SpotImpact(o)), 1.0 + spotFee);
    TimesSign(e.marks.perp, c.collateral);
    TimesSign(o.curve.sellBps, w.root(o.curve.sizeMax));
    TimesSign(e.perpMid, WorstImpact(w, o) + perpFee);
    hide Times;
  }

  lemma AskIsValid(w: World, c: Config, s: State, e: MarketEvent, o: Opportunity, forecast: Option<Forecast>, cap: real,
                   spotFee: real, perpFee: real)
    requires Proper(w, c, s, e) && o.Valid() && cap > 0.0 && 0.0 <= spotFee && 0.0 <= perpFee
    ensures AskFor(c, e, o, forecast, cap, ChargesFor(o, e, spotFee, perpFee)).Valid()
  {
    QuotientSign(e.spotMid, e.perpMid);
    TimesSign(spotFee * 10000.0 + o.spotExecution, e.spotMid / e.perpMid);
    hide IsRoot;
  }

  /** The sizing of a candidate entry, or `None` when there is no capital to size. */
  function SizeEntry(w: World, c: Config, s: State, e: MarketEvent, o: Opportunity, forecast: Option<Forecast>)
    : Result<Option<SizingResult>, RunError>
    requires Proper(w, c, s, e) && o.Valid()
  {
    var spotFee, perpFee := Quote(s.ledger.fees, c.symbol, Spot, e.time), Quote(s.ledger.fees, c.symbol, Perp, e.time);
    if spotFee.None? || perpFee.None? then Err(NoFeeQuote)
    else
      QuoteIsFraction(s.ledger.fees.periods, s.ledger.fees.allowAssumptions, c.symbol, Spot, e.time);
      QuoteIsFraction(s.ledger.fees.periods, s.ledger.fees.allowAssumptions, c.symbol, Perp, e.time);
      PerUnitIsPositive(w, c, s, e, o, spotFee.value, perpFee.value);
      var cap := Cap(s.ledger.cash, PerUnit(w, c, e, o, spotFee.value, perpFee.value), e.perpMid);
      if cap <= 0.0 then Ok(None)
      else
        AskIsValid(w, c, s, e, o, forecast, cap, spotFee.value, perpFee.value);
        Ok(Some(SizingOf(w.root, AskFor(c, e, o, forecast, cap, ChargesFor(o, e, spotFee.value, perpFee.value)))))
  }

  function EnterAt(w: World, c: Config, s: State, e: MarketEvent, opportunity: Option<Opportunity>,
                   forecast: Option<Forecast>)
    : Result<Decided, RunError>
    requires Proper(w, c, s, e) && (opportunity.Some? ==> opportunity.value.Valid())
  {
    if opportunity.None? then Ok(Decided(s, Waiting(MarketEvidenceUnavailable), None))
    else
      match SizeEntry(w, c, s, e, opportunity.value, forecast)
      case Err(error) => Err(error)
      case Ok(None) => Ok(Decided(s, Waiting(CapitalUnavailable), None))
      case Ok(Some(sizing)) =>
        if sizing.decision.action != Enter then Ok(Decided(s, sizing.decision, Some(sizing)))
        else
          match Trade(w, c, s, e, sizing.quantity, true)
          case Err(error) => Err(error)
          case Ok((after, filled)) =>
            if filled then
              Ok(Decided(after.(position := Some(Position(c.symbol, Times(sizing.quantity, e.perpMid), e.time,
                                                          c.policy.horizon, 0, c.intervalHours))),
                         sizing.decision, Some(sizing)))
            else Ok(Decided(after, Waiting(FillCapitalUnavailable), Some(sizing)))
  }

  /** What to do with a held position, at what it would cost to stay. */
  function HeldDecision(w: World, c: Config, s: State, e: MarketEvent, opportunity: Option<Opportunity>,
                        forecast: Option<Forecast>)
    : Result<Decision, RunError>
    requires Proper(w, c, s, e) && (opportunity.Some? ==> opportunity.value.Valid()) && s.position.Some?
  {
    var quantity := -s.ledger.perp.quantity;
    var position := s.position.value.(notional := Times(quantity, e.perpMid));
    var remaining := position.planned - position.held;
    var fees := (Quote(s.ledger.fees, c.symbol, Spot, e.time), Quote(s.ledger.fees, c.symbol, Perp, e.time));
    if opportunity.Some? && remaining > 0 && (fees.0.None? || fees.1.None?) then Err(NoFeeQuote)
    else
      var estimate :=
        if opportunity.None? || remaining <= 0 then None
        else
          var o := opportunity.value;
          match FromCurve(w.root, o.curve, e.time, o.market.validUntil, position.notional, quantity / o.market.advBase,
                          remaining, ChargesFor(o, e, fees.0.value, fees.1.value))
          case Err(_) => None
          case Ok(estimate) => Some(estimate);
      var approval := if opportunity.Some? then opportunity.value.approval else None;
      match Decide(Strategy(c.symbol, c.policy), e.time, forecast, estimate, approval, Some(position))
      case Err(_) => Err(BadPosition)
      case Ok(decision) => Ok(decision)
  }

  function HeldAt(w: World, c: Config, s: State, e: MarketEvent, opportunity: Option<Opportunity>,
                  forecast: Option<Forecast>)
    : Result<Decided, RunError>
    requires Proper(w, c, s, e) && (opportunity.Some? ==> opportunity.value.Valid()) && s.position.Some?
  {
    match HeldDecision(w, c, s, e, opportunity, forecast)
    case Err(error) => Err(error)
    case Ok(decision) =>
      if decision.action != Exit then Ok(Decided(s, decision, None))
      else
        match Trade(w, c, s, e, -s.ledger.perp.quantity, false)
        case Err(error) => Err(error)
        case Ok((after, _)) => Ok(Decided(after.(position := None), decision, None))
  }

  function SettlementsLeft(c: Config, s: State): int {
    if s.position.Some? then s.position.value.planned - s.position.value.held else c.policy.horizon
  }

  function DecideAt(w: World, c: Config, s: State, e: MarketEvent): Result<Decided, RunError>
    requires Proper(w, c, s, e)
  {
    var remaining := SettlementsLeft(c, s);
    var forecast := if remaining > 0 then w.predict(RollingFunding.Accepted(s.observations), remaining, e.time) else None;
    match Admit(w, c, s, e)
    case Err(error) => Err(error)
    case Ok((admitted, o)) =>
      if s.position.None? then EnterAt(w, c, admitted, e, o, forecast) else HeldAt(w, c, admitted, e, o, forecast)
  }

  // ---------------------------------------------------------------- one event

  function Recorded(w: World, c: Config, s: State, e: Event, kind: Kind, decision: Option<Decision>,
                    valuation: Option<Valuation>, admitted: bool, sizing: Option<SizingResult>): Record {
    var quantity := -s.ledger.perp.quantity;
    var o := if e.OfMarket? then e.market.opportunity else None;
    Record(e.Id(), e.Time(), w.foldStart(e.Time()), kind, decision, valuation,
           if s.position.Some? then Some(s.position.value.planned) else None,
           if s.position.Some? then s.position.value.held else 0,
           quantity,
           if o.Some? && o.value.market.advBase != 0.0 then Some(quantity / o.value.market.advBase) else None,
           if e.OfMarket? then Some(Times(quantity, e.market.perpMid)) else None,
           s.ledger.cash, s.ledger.funding, admitted, sizing)
  }

  /** Pays the settlement and counts it against the position. */
  function Pay(c: Config, s: State, f: FundingEvent): Result<State, RunError> {
    if f.mark.None? then Err(BadFunding)
    else
      match Settle(s.ledger, FundingSettlement(f.id, c.symbol, f.time, f.intervalHours, f.rate, f.mark.value))
      case Err(error) => Err(LedgerRefused(error))
      case Ok(ledger) =>
        if !Reserved(ledger, f.mark.value, c.collateral) then Err(ReserveShortfall)
        else Ok(s.(ledger := ledger,
                   position := if s.position.Some? then Some(s.position.value.(held := s.position.value.held + 1)) else None))
  }

  function ProcessFunding(w: World, c: Config, s: State, f: FundingEvent): Result<(State, Option<Record>), RunError> {
    if f.intervalHours != c.intervalHours || f.time != s.nextObservation then Err(BadFunding)
    else
      match (if f.time >= c.start then Pay(c, s, f) else Ok(s))
      case Err(error) => Err(error)
      case Ok(paid) =>
        var attempt := RollingFunding.Attempt(f.time, Num(f.rate), f.intervalHours);
        if RollingFunding.Refusal(RollingFunding.Accepted(s.observations), attempt).Some? then Err(HistoryRefused)
        else
          var after := paid.(nextObservation := s.nextObservation + c.Interval(), observations := s.observations + [attempt]);
          Ok((after, if f.time < c.start then None
                     else Some(Recorded(w, c, after, OfFunding(f), FundingRecord, None, None, false, None))))
  }

  /** The checks on a market event before anything is accounted. */
  function MarketRefusal(c: Config, s: State, e: MarketEvent): Option<RunError> {
    if e.time < c.start then Some(WarmupTrading)
    else if e.spotMid <= 0.0 || e.perpMid <= 0.0 || e.marks.time != e.time || e.marks.symbol != c.symbol then Some(BadMarket)
    else if e.decide && (s.ledger.lastFunding.None? || e.time - s.ledger.lastFunding.value <= SETTLEMENT_GUARD_MS)
    then Some(DecisionTooEarly)
    else if e.decide != (e.time == s.nextDecision) then Some(Unscheduled)
    else None
  }

  /** Financing accounted and the book marked, before any decision. */
  function Marked(c: Config, s: State, e: MarketEvent): Result<State, RunError> {
    match Finance(s.ledger, e.id + ":finance", e.time, e.financing)
    case Err(error) => Err(LedgerRefused(error))
    case Ok(ledger) =>
      match Value(ledger, e.marks)
      case Err(error) => Err(LedgerRefused(error))
      case Ok(valuation) =>
        if !Reserved(ledger, e.marks.perp, c.collateral) then Err(ReserveShortfall)
        else if valuation.netEquity <= 0.0 then Err(NonpositiveEquity)
        else Ok(s.(ledger := ledger))
  }

  /** Marked again after the decision, then scheduled and recorded. */
  function Scored(w: World, c: Config, s: State, e: MarketEvent, decision: Option<Decision>,
                  sizing: Option<SizingResult>)
    : Result<(State, Option<Record>), RunError> {
    match Value(s.ledger, e.marks)
    case Err(error) => Err(LedgerRefused(error))
    case Ok(valuation) =>
      if !Reserved(s.ledger, e.marks.perp, c.collateral) then Err(ReserveShortfall)
      else
        match Admit(w, c, s, e)
        case Err(error) => Err(error)
        case Ok((admitted, o)) =>
          var after := admitted.(nextDecision := s.nextDecision + if e.decide then c.Interval() else 0);
          Ok((after, Some(Recorded(w, c, after, OfMarket(e), MarketRecord, decision, Some(valuation), o.Some?, sizing))))
  }

  function ProcessMarket(w: World, c: Config, s: State, e: MarketEvent): Result<(State, Option<Record>), RunError>
    requires ValidConfig(w, c) && s.ledger.fees.Valid() && OfMarket(e).Valid() && IsRoot(w.root) && e.time >= 0
  {
    var refusal := MarketRefusal(c, s, e);
    if refusal.Some? then Err(refusal.value)
    else
      match Marked(c, s, e)
      case Err(error) => Err(error)
      case Ok(marked) =>
        if !e.decide then Scored(w, c, marked, e, None, None)
        else
          match DecideAt(w, c, marked, e)
          case Err(error) => Err(error)
          case Ok(decided) => Scored(w, c, decided.state, e, Some(decided.decision), decided.sizing)
  }

  function Process(w: World, c: Config, s: State, e: Event): Result<(State, Option<Record>), RunError>
    requires ValidConfig(w, c) && s.ledger.fees.Valid() && e.Valid() && IsRoot(w.root)
  {
    var id, time := e.Id(), e.Time();
    if time < 0 || id == "" || id in s.ids || time < s.lastTime then Err(BadStream)
    else if !(c.warmupStart <= time < c.end) then Err(OutsideWindow)
    else
      var seen := s.(lastTime := time, ids := s.ids + {id});
      if time >= c.start && time > s.nextDecision then Err(MissedDecision)
      else if e.OfFunding? then ProcessFunding(w, c, seen, e.funding)
      else ProcessMarket(w, c, seen, e.market)
  }
}
