/** The runner as the object the source keeps: one method per step, updating its fields. Between
    events it is the whole run of the events it has taken, with everything such runs keep. */
module WalkForwardRunner {
  import opened Wrappers
  import opened Reals
  import opened Fees
  import opened Accounting
  import opened Carry
  import opened Costs
  import opened Sizing
  import opened Execution
  import W = WalkForward
  import P = Protocol
  import A = Affordability
  import H = Holdings
  import RollingFunding

  class Runner {
    const world: W.World
    const config: W.Config
    const fees: FeeSchedule
    var ledger: Ledger
    var position: Option<Position>
    var lastTime: int
    var nextObservation: int
    var ids: set<string>
    var foldCurves: map<int, string>
    var nextDecision: int
    var observations: seq<RollingFunding.Attempt>
    ghost var history: seq<W.Event>

    function View(): W.State
      reads this
    {
      W.State(ledger, position, lastTime, nextObservation, ids, foldCurves, nextDecision, observations)
    }

    /** Configuration and fees as their constructors leave them. */
    ghost predicate Configured()
      reads this
    {
      W.ValidConfig(world, config) && fees.Valid() && ledger.fees == fees && IsRoot(world.root)
    }

    /** Between events: the state is the one its history leads to. */
    ghost predicate Valid()
      reads this
    {
      Configured() && P.AllValid(history) && P.Backtest(world, config, fees, history) == Ok(View())
    }

    /** Settlements and decisions so far. */
    ghost function Ticks(): nat
      reads this
    {
      |P.Ticks(config, history)|
    }

    constructor Over(w: W.World, c: W.Config, f: FeeSchedule, s: W.State)
      requires W.ValidConfig(w, c) && f.Valid() && s.ledger.fees == f && IsRoot(w.root)
      ensures Configured() && View() == s && world == w && config == c && fees == f && history == []
    {
      history := [];
      world, config, fees := w, c, f;
      ledger, position, lastTime, nextObservation := s.ledger, s.position, s.lastTime, s.nextObservation;
      ids, foldCurves, nextDecision, observations := s.ids, s.foldCurves, s.nextDecision, s.observations;
    }

    static method Create(w: W.World, c: W.Config, f: FeeSchedule) returns (r: Result<Runner, W.RunError>)
      requires f.Valid() && IsRoot(w.root)
      ensures match W.Initial(w, c, f) {
                case Err(error) => r == Err(error)
                case Ok(s) => r.Ok? && fresh(r.value) && r.value.Valid() && r.value.View() == s && r.value.history == []
                              && r.value.world == w && r.value.config == c && r.value.fees == f
              }
    {
      if !W.ValidConfig(w, c) {
        return Err(W.BadConfig);
      }
      var l := Accounting.Start(c.symbol, c.capital, c.start, f);
      if l.Err? {
        return Err(W.LedgerRefused(l.error));
      }
      var s := W.State(l.value, None, c.warmupStart, c.warmupStart, {}, map[], c.start + c.delay, []);
      var runner := new Runner.Over(w, c, f, s);
      NoEventsYet(w, c, f);
      return Ok(runner);
    }

    /** Evidence for this instant, or none; a second curve in a fold is an error. */
    method Admit(e: MarketEvent) returns (r: Result<Option<Opportunity>, W.RunError>)
      requires Configured()
      modifies `foldCurves
      ensures Configured()
      ensures match W.Admit(world, config, old(View()), e) {
                case Err(error) => r == Err(error)
                case Ok((s, o)) => r == Ok(o) && View() == s
              }
    {
      if e.opportunity.None? || !W.Evident(world, config, e, e.opportunity.value) {
        return Ok(None);
      }
      var o := e.opportunity.value;
      if o.foldStart in foldCurves && foldCurves[o.foldStart] != o.curve.artifact {
        return Err(W.CurveChanged);
      }
      foldCurves := foldCurves[o.foldStart := o.curve.artifact];
      return Ok(Some(o));
    }

    /** Both fills on a copy of the ledger, kept unless an opening would break the reserve. */
    method Trade(e: MarketEvent, quantity: real, opening: bool) returns (r: Result<bool, W.RunError>)
      requires Configured()
      modifies `ledger, `foldCurves
      ensures match W.Trade(world, config, old(View()), e, quantity, opening) {
                case Err(error) => r == Err(error)
                case Ok((s, filled)) => r == Ok(filled) && View() == s && Configured()
              }
      ensures r.Ok? && P.Hedged(old(ledger)) ==>
                && P.Hedged(ledger) && (!opening ==> r.value)
                && ledger.perp.quantity
                   == old(ledger.perp.quantity) - (if !r.value then 0.0 else if opening then quantity else -quantity)
    {
      hide IsRoot, W.Evident, FeeSchedule.Valid, W.ValidConfig, P.Hedged;
      if P.Hedged(ledger) {
        P.TradeMovesIfOk(world, config, View(), e, quantity, opening);
      }
      if config.inferred {
        var admitted := Admit(e);
        if admitted.Err? {
          return Err(admitted.error);
        }
        if admitted.value.None? {
          return Err(W.ExecutionUnavailable);
        }
      }
      hide W.Admit, W.Reserved;
      var fills := world.execute(e, quantity, opening);
      if fills.None? || !W.Paired(config, e, fills.value, quantity, opening) {
        return Err(W.ExecutionUnavailable);
      }
      FillKeepsFees(ledger, fills.value[0]);
      var half := ApplyFill(ledger, fills.value[0]);
      if half.Err? {
        return Err(W.LedgerRefused(half.error));
      }
      FillKeepsFees(half.value, fills.value[1]);
      var proposed := ApplyFill(half.value, fills.value[1]);
      if proposed.Err? {
        return Err(W.LedgerRefused(proposed.error));
      }
      hide ApplyFill;
      if opening && !W.Reserved(proposed.value, e.marks.perp, config.collateral) {
        return Ok(false);
      }
      ledger := proposed.value;
      return Ok(true);
    }

    /** A flat account's decision: size against the cash's worst use, then trade. */
    method EnterAt(e: MarketEvent, opportunity: Option<Opportunity>, forecast: Option<Forecast>)
      returns (r: Result<(Decision, Option<SizingResult>), W.RunError>)
      requires Configured() && W.Proper(world, config, View(), e) && (opportunity.Some? ==> opportunity.value.Valid())
      modifies `ledger, `foldCurves, `position
      ensures match W.EnterAt(world, config, old(View()), e, opportunity, forecast) {
                case Err(error) => r == Err(error)
                case Ok(d) => r == Ok((d.decision, d.sizing)) && View() == d.state && Configured()
              }
      ensures opportunity.Some? && SizedEntry(world, config, old(View()), e, opportunity.value, forecast) ==>
                var o := opportunity.value;
                var q := W.SizeEntry(world, config, old(View()), e, o, forecast).value.value.quantity;
                && (r.Ok? <==> A.FreshIds(old(ledger), e.id) && PerpImpact(world.root, o, q, true) < 1.0)
                && (r.Ok? ==> && r.value.0.action == Enter && position.Some? && ledger.spot.quantity == q > 0.0
                              && ledger.perp.quantity == -q && W.Reserved(ledger, e.marks.perp, config.collateral))
    {
      if opportunity.Some? && SizedEntry(world, config, View(), e, opportunity.value, forecast) {
        A.ApprovedEntryExecutes(world, config, View(), e, opportunity.value, forecast);
      }
      hide IsRoot, W.ValidConfig, FeeSchedule.Valid, W.Trade, SizingOf, W.PerUnit, SizedEntry, A.FreshIds, PerpImpact,
          W.Reserved, W.Proper, P.Hedged;
      if opportunity.None? {
        return Ok((W.Waiting(MarketEvidenceUnavailable), None));
      }
      var o := opportunity.value;
      var spotFee, perpFee := Quote(fees, config.symbol, Spot, e.time), Quote(fees, config.symbol, Perp, e.time);
      if spotFee.None? || perpFee.None? {
        return Err(W.NoFeeQuote);
      }
      QuotesAreFractions(fees, config.symbol, e.time);
      W.PerUnitIsPositive(world, config, View(), e, o, spotFee.value, perpFee.value);
      var cap := W.Cap(ledger.cash, W.PerUnit(world, config, e, o, spotFee.value, perpFee.value), e.perpMid);
      if cap <= 0.0 {
        return Ok((W.Waiting(CapitalUnavailable), None));
      }
      W.AskIsValid(world, config, View(), e, o, forecast, cap, spotFee.value, perpFee.value);
      var charges := W.ChargesFor(o, e, spotFee.value, perpFee.value);
      var sizing := SizePosition(world.root, W.AskFor(config, e, o, forecast, cap, charges));
      if sizing.decision.action != Enter {
        return Ok((sizing.decision, Some(sizing)));
      }
      var filled := Trade(e, sizing.quantity, true);
      if filled.Err? {
        return Err(filled.error);
      }
      if !filled.value {
        return Ok((W.Waiting(FillCapitalUnavailable), Some(sizing)));
      }
      position := Some(Position(config.symbol, Times(sizing.quantity, e.perpMid), e.time, config.policy.horizon, 0,
                                config.intervalHours));
      return Ok((sizing.decision, Some(sizing)));
    }

    /** A held position's decision: stay or close both legs. */
    method HeldAt(e: MarketEvent, opportunity: Option<Opportunity>, forecast: Option<Forecast>)
      returns (r: Result<Decision, W.RunError>)
      requires Configured() && W.Proper(world, config, View(), e) && (opportunity.Some? ==> opportunity.value.Valid())
      requires position.Some?
      modifies `ledger, `foldCurves, `position
      ensures match W.HeldAt(world, config, old(View()), e, opportunity, forecast) {
                case Err(error) => r == Err(error)
                case Ok(d) => r == Ok(d.decision) && d.sizing.None? && View() == d.state && Configured()
              }
      ensures r.Ok? && r.value.action == Exit && P.Hedged(old(ledger)) ==>
                position.None? && ledger.perp.quantity == 0.0 && ledger.spot.quantity == 0.0
      ensures r.Ok? && r.value.action != Exit ==> position == old(position) && ledger == old(ledger)
      ensures r.Ok? && old(ledger.perp.quantity) < 0.0 ==>
                r.value.action
                == if H.WorthHolding(config, old(position).value, -old(ledger.perp.quantity), e, opportunity, forecast)
                   then Hold else Exit
    {
      hide IsRoot, W.ValidConfig, FeeSchedule.Valid, W.Trade, FromCurve, Decide, W.ChargesFor, Quote, P.Hedged,
          H.WorthHolding;
      HeldMeans(world, config, View(), e, opportunity, forecast);
      var quantity := -ledger.perp.quantity;
      var marked := position.value.(notional := Times(quantity, e.perpMid));
      var remaining := marked.planned - marked.held;
      var estimate: Option<CostEstimate> := None;
      if opportunity.Some? && remaining > 0 {
        var o := opportunity.value;
        var spotFee, perpFee := Quote(fees, config.symbol, Spot, e.time), Quote(fees, config.symbol, Perp, e.time);
        if spotFee.None? || perpFee.None? {
          return Err(W.NoFeeQuote);
        }
        var quoted := FromCurve(world.root, o.curve, e.time, o.market.validUntil, marked.notional,
                                quantity / o.market.advBase, remaining, W.ChargesFor(o, e, spotFee.value, perpFee.value));
        if quoted.Ok? {
          estimate := Some(quoted.value);
        }
      }
      var approval := if opportunity.Some? then opportunity.value.approval else None;
      var decision := Decide(Strategy(config.symbol, config.policy), e.time, forecast, estimate, approval, Some(marked));
      if decision.Err? {
        return Err(W.BadPosition);
      }
      if decision.value.action == Exit {
        var closed := Trade(e, quantity, false);
        if closed.Err? {
          return Err(closed.error);
        }
        HedgedLegs(ledger);
        position := None;
      }
      return Ok(decision.value);
    }

    /** The cash and perp P&L must cover the collateral, or the run cannot go on. */
    method Reserve(mark: real) returns (ok: bool)
      ensures ok == W.Reserved(ledger, mark, config.collateral)
    {
      var reserve := Times(Times(Magnitude(ledger.perp.quantity), mark), config.collateral);
      var available := ledger.cash + ledger.perp.Unrealized(mark);
      return available >= reserve;
    }

    /** One event: its record, if it is scored, or the error that ends the run. An accepted event
        leaves the run of one event more: legs that offset each other, a position on record exactly
        when they are open and within its plan, the collateral covered at the event's mark, and the
        next settlement, decision and observation where the schedule puts them. */
    method Process(e: W.Event) returns (r: Result<Option<W.Record>, W.RunError>)
      requires Valid() && e.Valid()
      modifies this
      ensures match W.Process(world, config, old(View()), e) {
                case Err(error) => r == Err(error)
                case Ok((s, record)) => r == Ok(record) && View() == s && history == old(history) + [e] && Valid()
              }
      ensures P.AllValid(old(history) + [e])
      ensures match P.Backtest(world, config, fees, old(history) + [e]) {
                case Err(error) => r == Err(error)
                case Ok(s) => r.Ok? && View() == s
              }
      ensures r.Ok? ==>
                && ledger.spot.quantity == -ledger.perp.quantity && ledger.spot.quantity >= 0.0
                && (position.Some? <==> ledger.spot.quantity != 0.0)
                && (position.Some? ==> 0 <= position.value.held <= position.value.planned == config.policy.horizon)
                && (e.Time() >= config.start ==> P.Covered(ledger, P.MarkOf(e), config.collateral))
      ensures r.Ok? ==>
                && nextObservation == config.warmupStart + |observations| * config.Interval()
                && (Ticks() > 0 ==> nextObservation == ledger.nextFunding)
                && ledger.nextFunding == config.start + (Ticks() + 1) / 2 * config.Interval()
                && nextDecision == config.start + config.delay + Ticks() / 2 * config.Interval()
                && (P.TickOf(config, e) == [] || P.TickOf(config, e) == [P.Scheduled(config, old(Ticks()))])
      ensures ApprovedEntry(world, config, old(View()), e) ==>
                var o := e.market.opportunity.value;
                var q := A.SizedQuantity(world, config, A.Seen(old(View()), e), e.market, o);
                && (r.Ok? <==> && {e.Id() + ":spot", e.Id() + ":perp"} !! A.SettledIds(config, old(history))
                               && PerpImpact(world.root, o, q, true) < 1.0)
                && (r.Ok? ==> position.Some? && ledger.spot.quantity == q > 0.0)
      ensures r.Ok? && e.OfMarket? && e.market.decide && old(position).Some? ==>
                if StaysOpen(world, config, old(View()), e.market)
                then position == old(position) && ledger.spot == old(ledger.spot) && ledger.perp == old(ledger.perp)
                else position.None? && ledger.spot.quantity == 0.0 && ledger.perp.quantity == 0.0
    {
      hide IsRoot, FeeSchedule.Valid, W.ProcessFunding, W.ProcessMarket, W.Reserved, P.Backtest, P.RunAll, P.Inv,
          P.AllValid, P.OnSchedule, A.SizedQuantity, A.SettledIds, PerpImpact, W.ValidConfig, ApprovedEntry, P.Covered,
          StaysOpen, W.Config.Interval;
      ProcessMeans(world, config, fees, history, e);
      DecisionMeans(world, config, fees, history, e);
      var id, time := e.Id(), e.Time();
      if time < 0 || id == "" || id in ids || time < lastTime {
        return Err(W.BadStream);
      }
      if !(config.warmupStart <= time < config.end) {
        return Err(W.OutsideWindow);
      }
      lastTime := time;
      ids := ids + {id};
      if time >= config.start && time > nextDecision {
        return Err(W.MissedDecision);
      }
      match e {
        case OfFunding(f) => r := ProcessFunding(f);
        case OfMarket(m) => r := ProcessMarket(m);
      }
      if r.Ok? {
        history := history + [e];
      }
    }

    method ProcessFunding(f: W.FundingEvent) returns (r: Result<Option<W.Record>, W.RunError>)
      requires Configured()
      modifies `ledger, `position, `nextObservation, `observations
      ensures match W.ProcessFunding(world, config, old(View()), f) {
                case Err(error) => r == Err(error)
                case Ok((s, record)) => r == Ok(record) && View() == s && Configured()
              }
    {
      hide IsRoot, FeeSchedule.Valid, W.ValidConfig, W.Recorded, RollingFunding.Accepted, RollingFunding.Refusal;
      if f.intervalHours != config.intervalHours || f.time != nextObservation {
        return Err(W.BadFunding);
      }
      if f.time >= config.start {
        if f.mark.None? {
          return Err(W.BadFunding);
        }
        var settled := Settle(ledger, FundingSettlement(f.id, config.symbol, f.time, f.intervalHours, f.rate, f.mark.value));
        if settled.Err? {
          return Err(W.LedgerRefused(settled.error));
        }
        ledger := settled.value;
        var covered := Reserve(f.mark.value);
        if !covered {
          return Err(W.ReserveShortfall);
        }
        if position.Some? {
          position := Some(position.value.(held := position.value.held + 1));
        }
      }
      var attempt := RollingFunding.Attempt(f.time, Num(f.rate), f.intervalHours);
      if RollingFunding.Refusal(RollingFunding.Accepted(observations), attempt).Some? {
        return Err(W.HistoryRefused);
      }
      observations := observations + [attempt];
      nextObservation := nextObservation + config.Interval();
      if f.time < config.start {
        return Ok(None);
      }
      return Ok(Some(W.Recorded(world, config, View(), W.OfFunding(f), W.FundingRecord, None, None, false, None)));
    }

    /** The financing is accounted and the book marked before anything is decided. */
    method Mark(e: MarketEvent) returns (error: Option<W.RunError>)
      requires Configured()
      modifies `ledger
      ensures match W.Marked(config, old(View()), e) {
                case Err(refusal) => error == Some(refusal)
                case Ok(s) => error.None? && View() == s && Configured()
              }
    {
      hide IsRoot, FeeSchedule.Valid, W.ValidConfig, Times;
      var financed := Finance(ledger, e.id + ":finance", e.time, e.financing);
      if financed.Err? {
        return Some(W.LedgerRefused(financed.error));
      }
      ledger := financed.value;
      var valuation := Value(ledger, e.marks);
      if valuation.Err? {
        return Some(W.LedgerRefused(valuation.error));
      }
      var covered := Reserve(e.marks.perp);
      if !covered {
        return Some(W.ReserveShortfall);
      }
      if valuation.value.netEquity <= 0.0 {
        return Some(W.NonpositiveEquity);
      }
      return None;
    }

    /** Marked again, scheduled and recorded. */
    method Score(e: MarketEvent, decision: Option<Decision>, sizing: Option<SizingResult>)
      returns (r: Result<Option<W.Record>, W.RunError>)
      requires Configured()
      modifies `foldCurves, `nextDecision
      ensures match W.Scored(world, config, old(View()), e, decision, sizing) {
                case Err(error) => r == Err(error)
                case Ok((s, record)) => r == Ok(record) && View() == s && Configured()
              }
    {
      hide IsRoot, FeeSchedule.Valid, W.ValidConfig, Times, W.Recorded, W.Evident;
      var valuation := Value(ledger, e.marks);
      if valuation.Err? {
        return Err(W.LedgerRefused(valuation.error));
      }
      var covered := Reserve(e.marks.perp);
      if !covered {
        return Err(W.ReserveShortfall);
      }
      if e.decide {
        nextDecision := nextDecision + config.Interval();
      }
      var admitted := Admit(e);
      if admitted.Err? {
        return Err(admitted.error);
      }
      return Ok(Some(W.Recorded(world, config, View(), W.OfMarket(e), W.MarketRecord, decision, Some(valuation.value),
                                admitted.value.Some?, sizing)));
    }

    /** A scheduled decision, flat or held. */
    method DecideAt(e: MarketEvent) returns (r: Result<(Decision, Option<SizingResult>), W.RunError>)
      requires Configured() && W.Proper(world, config, View(), e)
      modifies `ledger, `foldCurves, `position
      ensures match W.DecideAt(world, config, old(View()), e) {
                case Err(error) => r == Err(error)
                case Ok(d) => r == Ok((d.decision, d.sizing)) && View() == d.state && Configured()
              }
    {
      hide IsRoot, FeeSchedule.Valid, W.ValidConfig, W.EnterAt, W.HeldAt, W.Evident, RollingFunding.Accepted;
      var remaining := W.SettlementsLeft(config, View());
      var forecast := None;
      if remaining > 0 {
        forecast := world.predict(RollingFunding.Accepted(observations), remaining, e.time);
      }
      var opportunity := Admit(e);
      if opportunity.Err? {
        return Err(opportunity.error);
      }
      if position.None? {
        r := EnterAt(e, opportunity.value, forecast);
      } else {
        var decision := HeldAt(e, opportunity.value, forecast);
        if decision.Err? {
          return Err(decision.error);
        }
        return Ok((decision.value, None));
      }
    }

    method ProcessMarket(e: MarketEvent) returns (r: Result<Option<W.Record>, W.RunError>)
      requires Configured() && W.OfMarket(e).Valid() && e.time >= 0
      modifies `ledger, `foldCurves, `position, `nextDecision
      ensures match W.ProcessMarket(world, config, old(View()), e) {
                case Err(error) => r == Err(error)
                case Ok((s, record)) => r == Ok(record) && View() == s && Configured()
              }
    {
      var refusal := W.MarketRefusal(config, View(), e);
      if refusal.Some? {
        return Err(refusal.value);
      }
      var error := Mark(e);
      if error.Some? {
        return Err(error.value);
      }
      if !e.decide {
        r := Score(e, None, None);
        return;
      }
      var decided := DecideAt(e);
      if decided.Err? {
        return Err(decided.error);
      }
      r := Score(e, Some(decided.value.0), decided.value.1);
    }
  }

  /** A whole backtest: the records up to the first error, and that error. */
  method IterBacktest(w: W.World, c: W.Config, f: FeeSchedule, events: seq<W.Event>)
    returns (records: seq<W.Record>, error: Option<W.RunError>)
    requires f.Valid() && IsRoot(w.root) && P.AllValid(events)
    ensures match P.Backtest(w, c, f, events) {
              case Err(refusal) => error == Some(refusal)
              case Ok(_) => error == None && P.RecordIds(records) == P.ScoredIds(c, events)
            }
    ensures records == P.RecordsOf(w, c, f, events)
  {
    hide IsRoot, FeeSchedule.Valid, P.Backtest, P.RecordsOf, W.Process, W.Reserved, P.ScoredIds, P.RecordIds,
        P.AllValid,
        P.Scheduled, ApprovedEntry, W.ValidConfig;
    NothingRecordedYet(w, c, f, events);
    records := [];
    var created := Runner.Create(w, c, f);
    if created.Err? {
      P.ErrorEndsTheRun(w, c, f, events, 0);
      return records, Some(created.error);
    }
    var runner := created.value;
    for i := 0 to |events|
      invariant fresh(runner) && runner.Valid() && runner.world == w && runner.config == c && runner.fees == f
      invariant runner.history == events[..i] && P.AllValid(events[..i])
      invariant records == P.RecordsOf(w, c, f, events[..i])
    {
      EventIsValid(events, i);
      P.RecordsGrow(w, c, f, events[..i], events[i]);
      assert events[..i] + [events[i]] == events[..i + 1];
      var step := runner.Process(events[i]);
      if step.Err? {
        P.ErrorEndsTheRun(w, c, f, events, i + 1);
        return records, Some(step.error);
      }
      if step.value.Some? {
        records := records + [step.value.value];
      }
    }
    assert events[..|events|] == events;
    P.RunsRecordTheirStudy(w, c, f, events);
    return records, None;
  }

  lemma NothingRecordedYet(w: W.World, c: W.Config, f: FeeSchedule, events: seq<W.Event>)
    requires f.Valid() && IsRoot(w.root) && P.AllValid(events)
    ensures P.AllValid(events[..0]) && P.RecordsOf(w, c, f, events[..0]) == []
    ensures W.Initial(w, c, f).Ok? ==> P.Backtest(w, c, f, events[..0]).Ok?
    ensures W.Initial(w, c, f).Err? ==> P.Backtest(w, c, f, events[..0]) == Err(W.Initial(w, c, f).error)
  {
    hide IsRoot, FeeSchedule.Valid;
  }

  lemma EventIsValid(events: seq<W.Event>, i: nat)
    requires i < |events| && P.AllValid(events)
    ensures events[i].Valid() && P.AllValid(events[..i]) && P.AllValid(events[..i + 1])
  {
  }

  /** A sized entry at a decision the schedule allows, under inferred execution. */
  ghost predicate SizedEntry(w: W.World, c: W.Config, s: W.State, e: MarketEvent, o: Opportunity,
                             forecast: Option<Forecast>)
    requires W.Proper(w, c, s, e) && o.Valid()
  {
    && A.Infers(w) && A.Ready(w, c, s, e, o) && e.id != ""
    && var r := W.SizeEntry(w, c, s, e, o, forecast);
       r.Ok? && r.value.Some? && r.value.value.decision.action == Enter
  }

  /** An event that arrives in order with an entry sizing approves, under inferred execution. */
  ghost predicate ApprovedEntry(w: W.World, c: W.Config, s: W.State, e: W.Event) {
    && A.Infers(w) && e.OfMarket? && e.market.opportunity.Some? && A.Arrives(c, s, e)
    && A.Approved(w, c, A.Seen(s, e), e.market, e.market.opportunity.value)
  }

  /** At this decision the open position is worth holding, on the evidence admitted and the forecast
      made once the event's financing is paid. */
  ghost predicate StaysOpen(w: W.World, c: W.Config, s: W.State, e: MarketEvent)
    requires s.position.Some?
  {
    var seen := A.Seen(s, W.OfMarket(e));
    && W.Marked(c, seen, e).Ok? && W.Admit(w, c, W.Marked(c, seen, e).value, e).Ok?
    && var marked := W.Marked(c, seen, e).value;
       H.WorthHolding(c, s.position.value, -s.ledger.perp.quantity, e, W.Admit(w, c, marked, e).value.1,
                      A.ForecastAt(w, c, marked, e.time))
  }

  lemma NoEventsYet(w: W.World, c: W.Config, f: FeeSchedule)
    requires f.Valid() && IsRoot(w.root) && W.Initial(w, c, f).Ok?
    ensures P.AllValid([]) && P.Backtest(w, c, f, []) == W.Initial(w, c, f)
  {
    hide IsRoot, FeeSchedule.Valid, P.Inv;
  }

  /** What the whole run says of its next event. */
  lemma ProcessMeans(w: W.World, c: W.Config, f: FeeSchedule, history: seq<W.Event>, e: W.Event)
    requires f.Valid() && IsRoot(w.root) && P.AllValid(history) && e.Valid() && P.Backtest(w, c, f, history).Ok?
    ensures W.ValidConfig(w, c) && P.Backtest(w, c, f, history).value.ledger.fees.Valid() && P.AllValid(history + [e])
    ensures var step, run := W.Process(w, c, P.Backtest(w, c, f, history).value, e), P.Backtest(w, c, f, history + [e]);
            && (step.Err? ==> run == Err(step.error))
            && (step.Ok? ==>
                  var s, n := step.value.0, |P.Ticks(c, history + [e])|;
                  && run == Ok(s) && s.ledger.spot.quantity == -s.ledger.perp.quantity && s.ledger.spot.quantity >= 0.0
                  && (s.position.Some? <==> s.ledger.spot.quantity != 0.0)
                  && (s.position.Some? ==> 0 <= s.position.value.held <= s.position.value.planned == c.policy.horizon)
                  && (e.Time() >= c.start ==> P.Covered(s.ledger, P.MarkOf(e), c.collateral))
                  && s.nextObservation == c.warmupStart + |s.observations| * c.Interval() && P.Clocked(c, s, n)
                  && (n > 0 ==> s.nextObservation == s.ledger.nextFunding)
                  && (P.TickOf(c, e) == [] || P.TickOf(c, e) == [P.Scheduled(c, |P.Ticks(c, history)|)]))
  {
    hide P.Covered, IsRoot, FeeSchedule.Valid, W.Process, P.Backtest, P.AllValid, W.Reserved, P.Scheduled, P.Hedged,
        P.Planned, P.OnSchedule, W.Config.Interval;
    P.RunGrows(w, c, f, history, e);
    var s := P.Backtest(w, c, f, history).value;
    var n := |P.Ticks(c, history)|;
    if W.Process(w, c, s, e).Ok? {
      P.ProcessKeepsInv(w, c, s, e, n);
      assert (history + [e])[..|history|] == history;
      P.InvMeans(c, W.Process(w, c, s, e).value.0, |P.Ticks(c, history + [e])|);
      if e.Time() >= c.start {
        P.ScoredEventIsCovered(w, c, s, e);
      }
    }
  }

  /** What it says of an approved entry, and of a decision on an open position. */
  lemma DecisionMeans(w: W.World, c: W.Config, f: FeeSchedule, history: seq<W.Event>, e: W.Event)
    requires f.Valid() && IsRoot(w.root) && P.AllValid(history) && e.Valid() && P.Backtest(w, c, f, history).Ok?
    ensures W.ValidConfig(w, c) && P.Backtest(w, c, f, history).value.ledger.fees.Valid()
    ensures var s := P.Backtest(w, c, f, history).value;
            ApprovedEntry(w, c, s, e) ==>
              var o := e.market.opportunity.value;
              var q := A.SizedQuantity(w, c, A.Seen(s, e), e.market, o);
              && (W.Process(w, c, s, e).Ok? <==> && {e.Id() + ":spot", e.Id() + ":perp"} !! A.SettledIds(c, history)
                                                 && PerpImpact(w.root, o, q, true) < 1.0)
              && (W.Process(w, c, s, e).Ok? ==>
                    var after := W.Process(w, c, s, e).value.0;
                    after.position.Some? && after.ledger.spot.quantity == q > 0.0)
    ensures var s := P.Backtest(w, c, f, history).value;
            e.OfMarket? && e.market.decide && s.position.Some? && W.Process(w, c, s, e).Ok? ==>
              var after := W.Process(w, c, s, e).value.0;
              if StaysOpen(w, c, s, e.market)
              then after.position == s.position && after.ledger.spot == s.ledger.spot && after.ledger.perp == s.ledger.perp
              else after.position.None? && after.ledger.spot.quantity == 0.0 && after.ledger.perp.quantity == 0.0
  {
    hide IsRoot, FeeSchedule.Valid, W.Process, P.Backtest, P.AllValid, A.SettledIds, A.SizedQuantity, PerpImpact,
        A.Approved, A.Infers, P.Inv, P.OnSchedule, H.WorthHolding, W.Marked, W.Admit;
    P.RunGrows(w, c, f, history, e);
    var s := P.Backtest(w, c, f, history).value;
    if ApprovedEntry(w, c, s, e) {
      A.EveryApprovedEntryIsExecuted(w, c, f, history, e.market, e.market.opportunity.value);
    }
    if e.OfMarket? && e.market.decide && s.position.Some? && W.Process(w, c, s, e).Ok? {
      H.EveryDecisionKeepsOrCloses(w, c, f, history, e.market);
    }
  }

  lemma HeldMeans(w: W.World, c: W.Config, s: W.State, e: MarketEvent, o: Option<Opportunity>, forecast: Option<Forecast>)
    requires W.Proper(w, c, s, e) && (o.Some? ==> o.value.Valid()) && s.position.Some?
    ensures W.HeldDecision(w, c, s, e, o, forecast).Ok? && s.ledger.perp.quantity < 0.0 ==>
              W.HeldDecision(w, c, s, e, o, forecast).value.action
              == if H.WorthHolding(c, s.position.value, -s.ledger.perp.quantity, e, o, forecast) then Hold else Exit
  {
    hide W.HeldDecision, W.Proper, H.WorthHolding;
    if W.HeldDecision(w, c, s, e, o, forecast).Ok? && s.ledger.perp.quantity < 0.0 {
      H.HeldDecisionIsExact(w, c, s, e, o, forecast);
    }
  }

  lemma HedgedLegs(l: Ledger)
    ensures P.Hedged(l) ==> l.spot.quantity == -l.perp.quantity
  {
  }

  lemma FillKeepsFees(l: Ledger, f: Fill)
    ensures ApplyFill(l, f).Ok? ==> ApplyFill(l, f).value.fees == l.fees
  {
    hide Times, Guarded, QuoteFrom;
  }
}
