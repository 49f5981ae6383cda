/** Exactly when a decision keeps a held position, and that it otherwise closes it. */
module Holdings {
  import opened Wrappers
  import opened Reals
  import opened Clock
  import opened Fees
  import opened Accounting
  import opened Carry
  import opened Costs
  import opened Sizing
  import opened Execution
  import opened WalkForward
  import opened Protocol
  import opened Affordability
  import opened Exits
  import RollingFunding

  /** Worth holding: settlements left to collect, admitted evidence whose impact curve supports the
      whole position, a forecast of them from recent observations at an unchanged cadence, an approval
      that covers it, and more funding expected, and likely enough, than the financing asks. Closing
      is priced alike now and later, so nothing else is weighed. */
  ghost predicate WorthHolding(c: Config, position: Position, quantity: real, e: MarketEvent, evidence: Option<Opportunity>,
                               forecast: Option<Forecast>)
  {
    var left, now := position.planned - position.held, e.time;
    && left > 0 && evidence.Some? && forecast.Some? && evidence.value.approval.Some?
    && var (o, f, a) := (evidence.value, forecast.value, evidence.value.approval.value);
       && f.symbol == c.symbol && |f.samples| >= 2 && (forall i | 0 <= i < |f.samples| :: f.samples[i].Num?)
       && 0 <= f.trainingFirst <= f.lastObservation <= f.asOf == now
       && now <= f.lastObservation + f.intervalHours * HOUR_MS + JITTER_MS
       && f.horizon == left && f.trainingSettlements >= 3 && 1 <= f.intervalHours <= 24
       && f.intervalHours == position.intervalHours
       && a.approved && a.symbol == c.symbol && a.model == f.model && left in a.horizons
       && a.intervalHours == f.intervalHours && a.validationEnd <= now < a.validUntil
       && o.market.advBase > 0.0 && o.curve.sizeMin <= quantity / o.market.advBase <= o.curve.sizeMax
       && o.curve.symbol == c.symbol && o.curve.admittedAt <= now && o.curve.evidenceEnd <= now < o.market.validUntil
       && (o.curve.kind.Synthetic? ==> c.policy.allowSynthetic)
       && Mean(f.samples) > o.financing && Probability(f.samples, o.financing) > c.policy.continuationProbability
  }

  /** A held position's decision is to keep it exactly when it is worth holding, and to exit otherwise. */
  lemma {:induction false} HeldDecisionIsExact(w: World, c: Config, s: State, e: MarketEvent, o: Option<Opportunity>,
                                               forecast: Option<Forecast>)
    requires Proper(w, c, s, e) && (o.Some? ==> o.value.Valid()) && s.position.Some? && s.ledger.perp.quantity < 0.0
    requires HeldDecision(w, c, s, e, o, forecast).Ok?
    ensures HeldDecision(w, c, s, e, o, forecast).value.action
         == if WorthHolding(c, s.position.value, -s.ledger.perp.quantity, e, o, forecast) then Hold else Exit
  {
    hide Mean, Probability, IsRoot, Quote, Decide, FeeSchedule.Valid;
    var quantity := -s.ledger.perp.quantity;
    var position := s.position.value.(notional := Times(quantity, e.perpMid));
    var left := position.planned - position.held;
    var approval := if o.Some? then o.value.approval else None;
    var strategy := Strategy(c.symbol, c.policy);
    if o.Some? && left > 0 {
      QuotesAreFractions(s.ledger.fees, c.symbol, e.time) by { FeesAreValid(w, c, s, e); }
      var spotFee := Quote(s.ledger.fees, c.symbol, Spot, e.time).value;
      var perpFee := Quote(s.ledger.fees, c.symbol, Perp, e.time).value;
      var quoted := FromCurve(w.root, o.value.curve, e.time, o.value.market.validUntil, position.notional,
                              quantity / o.value.market.advBase, left, ChargesFor(o.value, e, spotFee, perpFee));
      HeldQuote(w, c, s, e, o.value, quantity, left, spotFee, perpFee);
      DecisionIsExact(strategy, e.time, forecast, if quoted.Ok? then Some(quoted.value) else None, approval, Some(position));
    } else {
      DecisionIsExact(strategy, e.time, forecast, None, approval, Some(position));
    }
    hide FromCurve;
  }

  lemma FeesAreValid(w: World, c: Config, s: State, e: MarketEvent)
    requires Proper(w, c, s, e)
    ensures s.ledger.fees.Valid()
  {
  }

  /** What staying is quoted at, and when it can be quoted. */
  lemma HeldQuote(w: World, c: Config, s: State, e: MarketEvent, o: Opportunity, quantity: real, left: int, spotFee: real,
                  perpFee: real)
    requires Proper(w, c, s, e) && o.Valid() && quantity > 0.0 && left > 0
    requires 0.0 <= spotFee && 0.0 <= perpFee
    ensures var notional := Times(quantity, e.perpMid);
            var quoted := FromCurve(w.root, o.curve, e.time, o.market.validUntil, notional, quantity / o.market.advBase, left,
                                    ChargesFor(o, e, spotFee, perpFee));
            && (quoted.Ok? <==> && o.curve.sizeMin <= quantity / o.market.advBase <= o.curve.sizeMax
                                && o.curve.admittedAt <= e.time && o.curve.evidenceEnd <= e.time < o.market.validUntil)
            && (quoted.Ok? ==>
                  var q := quoted.value;
                  && q.symbol == o.curve.symbol && q.horizon == left && q.quotedAt == e.time
                  && q.validUntil == o.market.validUntil && q.evidenceEnd == o.curve.evidenceEnd && q.kind == o.curve.kind
                  && q.notional == notional && q.financing + q.terminalClose - q.closeNow == o.financing)
  {
    QuotientSign(quantity, o.market.advBase);
    QuotientSign(e.spotMid, e.perpMid);
    TimesSign(spotFee * 10000.0 + o.spotExecution, e.spotMid / e.perpMid);
    TimesPositive(quantity, e.perpMid);
    hide IsRoot, Times;
  }

  /** Whatever the executor, a decision on an open account that is accepted keeps the position and
      both legs as they are, or leaves no position and two empty legs. */
  lemma {:induction false} HeldEventKeepsOrCloses(w: World, c: Config, s: State, e: MarketEvent, n: nat)
    requires ValidConfig(w, c) && s.ledger.fees.Valid() && OfMarket(e).Valid() && IsRoot(w.root) && e.time >= 0
    requires Inv(c, s, n) && e.time == s.lastTime && e.decide && s.position.Some? && ProcessMarket(w, c, s, e).Ok?
    ensures Marked(c, s, e).Ok? && Admit(w, c, Marked(c, s, e).value, e).Ok?
    ensures var marked, after := Marked(c, s, e).value, ProcessMarket(w, c, s, e).value.0;
            if WorthHolding(c, s.position.value, -s.ledger.perp.quantity, e, Admit(w, c, marked, e).value.1,
                            ForecastAt(w, c, marked, e.time))
            then after.position == s.position && after.ledger.spot == s.ledger.spot && after.ledger.perp == s.ledger.perp
            else after.position.None? && after.ledger.spot.quantity == 0.0 && after.ledger.perp.quantity == 0.0
  {
    hide IsRoot, Hedged, Scored, HeldDecision, WorthHolding, Trade, Admit, Marked, EnterAt, Times;
    MarkedKeeps(c, s, e);
    var marked := Marked(c, s, e).value;
    OpenPerpIsShort(c, s, n);
    HedgedFees(marked.ledger);
    AdmitKeeps(w, c, marked, e);
    var (admitted, o) := Admit(w, c, marked, e).value;
    var forecast := ForecastAt(w, c, marked, e.time);
    var decided := DecideAt(w, c, marked, e);
    assert decided == HeldAt(w, c, admitted, e, o, forecast);
    HeldDecisionIsExact(w, c, admitted, e, o, forecast);
    TradeMovesIfOk(w, c, admitted, e, -admitted.ledger.perp.quantity, false);
    HedgedIsOffset(decided.value.state.ledger);
    ScoredKeeps(w, c, decided.value.state, e, Some(decided.value.decision), decided.value.sizing);
    hide DecideAt, MarketRefusal;
  }

  lemma OpenPerpIsShort(c: Config, s: State, n: nat)
    requires Inv(c, s, n) && s.position.Some?
    ensures s.ledger.perp.quantity < 0.0 && Hedged(s.ledger)
  {
    hide Clocked;
  }

  lemma HedgedIsOffset(l: Ledger)
    ensures Hedged(l) ==> l.spot.quantity == -l.perp.quantity
  {
  }

  /** After any accepted run, an accepted decision on an open account keeps it exactly when it is
      worth holding, and otherwise closes it. */
  lemma {:induction false} EveryDecisionKeepsOrCloses(w: World, c: Config, fees: FeeSchedule, events: seq<Event>,
                                                      e: MarketEvent)
    requires fees.Valid() && IsRoot(w.root) && AllValid(events) && OfMarket(e).Valid() && AllValid(events + [OfMarket(e)])
    requires Backtest(w, c, fees, events).Ok? && Backtest(w, c, fees, events).value.position.Some? && e.decide
    requires Backtest(w, c, fees, events + [OfMarket(e)]).Ok?
    ensures var s, after := Backtest(w, c, fees, events).value, Backtest(w, c, fees, events + [OfMarket(e)]).value;
            var seen := Seen(s, OfMarket(e));
            && Marked(c, seen, e).Ok? && Admit(w, c, Marked(c, seen, e).value, e).Ok?
            && var marked := Marked(c, seen, e).value;
               if WorthHolding(c, s.position.value, -s.ledger.perp.quantity, e, Admit(w, c, marked, e).value.1,
                               ForecastAt(w, c, marked, e.time))
               then after.position == s.position && after.ledger.spot == s.ledger.spot && after.ledger.perp == s.ledger.perp
               else after.position.None? && after.ledger.spot.quantity == 0.0 && after.ledger.perp.quantity == 0.0
  {
    hide IsRoot, Hedged, WorthHolding, Marked, Admit, ProcessMarket, OnSchedule, FeeSchedule.Valid, AllValid, Backtest,
        Ticks;
    RunGrows(w, c, fees, events, OfMarket(e));
    var s, n := Backtest(w, c, fees, events).value, |Ticks(c, events)|;
    var seen := Seen(s, OfMarket(e));
    assert Inv(c, seen, n);
    hide Inv;
    HeldEventKeepsOrCloses(w, c, seen, e, n);
  }

  /** The last settlement of the plan: of the position's own, or of one opened now. */
  function LastPlanned(c: Config, s: State): int {
    match s.position
    case Some(p) => p.openedAt - c.delay + c.policy.horizon * c.Interval()
    case None => s.ledger.nextFunding + (c.policy.horizon - 1) * c.Interval()
  }

  /** After any accepted run, the forecaster is asked for exactly the settlements still to come up to
      the plan's last, from everything accepted so far; for none, it is not asked. */
  lemma {:induction false} ForecastsAreOfTheRest(w: World, c: Config, fees: FeeSchedule, events: seq<Event>, e: MarketEvent,
                                                 left: int)
    requires fees.Valid() && IsRoot(w.root) && AllValid(events) && OfMarket(e).Valid() && Backtest(w, c, fees, events).Ok?
    requires var s := Backtest(w, c, fees, events).value;
             && s.ledger.nextFunding + (left - 1) * c.Interval() == LastPlanned(c, s)
             && Marked(c, Seen(s, OfMarket(e)), e).Ok?
    ensures var s := Backtest(w, c, fees, events).value;
            && left >= 0
            && ForecastAt(w, c, Marked(c, Seen(s, OfMarket(e)), e).value, e.time)
            == if left > 0 then w.predict(RollingFunding.Accepted(s.observations), left, e.time) else None
  {
    hide IsRoot, Hedged, Backtest, FeeSchedule.Valid, AllValid, Ticks, OnSchedule, Marked, Process, Clocked;
    RunGrows(w, c, fees, events, OfMarket(e));
    var s, n := Backtest(w, c, fees, events).value, |Ticks(c, events)|;
    assert Inv(c, s, n);
    var seen := Seen(s, OfMarket(e));
    MarkedKeeps(c, seen, e);
    var rest := SettlementsLeft(c, s);
    assert (left - 1) * c.Interval() == (rest - 1) * c.Interval() by {
      if s.position.Some? {
        var p := s.position.value;
        RestOfThePlan(p.openedAt - c.delay, p.held, c.policy.horizon, c.Interval());
      }
    }
    SameCount(left - 1, rest - 1, c.Interval());
  }

  lemma RestOfThePlan(first: int, held: int, planned: int, interval: int)
    ensures first + planned * interval == first + (held + 1) * interval + (planned - held - 1) * interval
  {
  }

  lemma SameCount(a: int, b: int, interval: int)
    requires interval > 0 && a * interval == b * interval
    ensures a == b
  {
    assert (a - b) * interval == 0;
  }
}
