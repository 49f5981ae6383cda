/** A ledger read off its events alone: every total is a sum over the fills, settlements and charges. */
module Statement {
  import opened Wrappers
  import opened Reals
  import opened Clock
  import opened Fees
  import opened Accounting

  // ---------------------------------------------------------------- the sums

  /** Quantity traded on a market, bought less sold. */
  function Held(events: seq<LedgerEvent>, market: Market): real {
    if events == [] then 0.0
    else
      var e := events[|events| - 1];
      Held(events[..|events| - 1], market) + if e.Filled? && e.fill.market == market then e.fill.quantity else 0.0
  }

  /** What that quantity was bought for, less what it was sold for. */
  function Paid(events: seq<LedgerEvent>, market: Market): real {
    if events == [] then 0.0
    else
      var e := events[|events| - 1];
      Paid(events[..|events| - 1], market)
      + if e.Filled? && e.fill.market == market then Times(e.fill.quantity, e.fill.price) else 0.0
  }

  /** Each settlement pays the rate on the mark value of the perp sold short by then. */
  function FundingEarned(events: seq<LedgerEvent>): real {
    if events == [] then 0.0
    else
      var before, e := events[..|events| - 1], events[|events| - 1];
      FundingEarned(before)
      + if e.Settled? then Times(Times(-Held(before, Perp), e.settlement.markPrice), e.settlement.rate) else 0.0
  }

  /** The taker fee on the value of each fill. */
  function FeesCharged(fees: FeeSchedule, symbol: string, events: seq<LedgerEvent>): real {
    if events == [] then 0.0
    else
      var e := events[|events| - 1];
      FeesCharged(fees, symbol, events[..|events| - 1])
      + if !e.Filled? || Quote(fees, symbol, e.fill.market, e.fill.time).None? then 0.0
        else Times(Times(if e.fill.quantity < 0.0 then -e.fill.quantity else e.fill.quantity, e.fill.price),
                   Quote(fees, symbol, e.fill.market, e.fill.time).value)
  }

  function FinancingCharged(events: seq<LedgerEvent>): real {
    if events == [] then 0.0
    else
      var e := events[|events| - 1];
      FinancingCharged(events[..|events| - 1]) + if e.Charged? then e.cost else 0.0
  }

  /** What the fills cost against their mids. */
  function Slippage(events: seq<LedgerEvent>): real {
    if events == [] then 0.0
    else
      var e := events[|events| - 1];
      Slippage(events[..|events| - 1])
      + if e.Filled? then Times(e.fill.quantity, e.fill.price - e.fill.referenceMid) else 0.0
  }

  /** What trading has made at these marks: everything held at its mark, less what it was bought for. */
  function Made(events: seq<LedgerEvent>, m: Marks): real {
    Times(Held(events, Spot), m.spot) - Paid(events, Spot) + (Times(Held(events, Perp), m.perp) - Paid(events, Perp))
  }

  // ---------------------------------------------------------------- the ledger is those sums

  ghost predicate Stated(l: Ledger, fees: FeeSchedule, symbol: string, events: seq<LedgerEvent>) {
    && l.symbol == symbol && l.fees == fees
    && l.spot.quantity == Held(events, Spot) && l.perp.quantity == Held(events, Perp)
    && l.spot.realized - l.spot.basis == -Paid(events, Spot) && l.perp.realized - l.perp.basis == -Paid(events, Perp)
    && l.funding == FundingEarned(events) && l.feesPaid == FeesCharged(fees, symbol, events)
    && l.financing == FinancingCharged(events) && l.executionCost == Slippage(events)
  }

  lemma FillIsStated(l: Ledger, fees: FeeSchedule, symbol: string, events: seq<LedgerEvent>, f: Fill)
    requires Stated(l, fees, symbol, events) && ApplyFill(l, f).Ok?
    ensures Stated(ApplyFill(l, f).value, fees, symbol, events + [Filled(f)])
  {
    assert (events + [Filled(f)])[..|events|] == events;
    TradeMovesPnl(l.Leg(f.market), f.quantity, f.price, 0.0);
    hide Times, QuoteFrom, Guarded;
  }

  lemma StepIsStated(l: Ledger, fees: FeeSchedule, symbol: string, events: seq<LedgerEvent>, e: LedgerEvent)
    requires Stated(l, fees, symbol, events) && Step(l, e).Ok?
    ensures Stated(Step(l, e).value, fees, symbol, events + [e])
  {
    hide Times;
    assert (events + [e])[..|events|] == events;
    if e.Filled? {
      FillIsStated(l, fees, symbol, events, e.fill);
      hide Stated, ApplyFill;
    }
  }

  lemma {:induction false} RunIsStated(symbol: string, capital: real, nextFunding: int, fees: FeeSchedule,
                                       events: seq<LedgerEvent>)
    requires Start(symbol, capital, nextFunding, fees).Ok?
    requires Run(Start(symbol, capital, nextFunding, fees).value, events).Ok?
    ensures Stated(Run(Start(symbol, capital, nextFunding, fees).value, events).value, fees, symbol, events)
  {
    hide Step, Stated;
    var l := Start(symbol, capital, nextFunding, fees).value;
    if events == [] {
      StartIsStated(symbol, capital, nextFunding, fees);
    } else {
      var init, e := events[..|events| - 1], events[|events| - 1];
      RunIsStated(symbol, capital, nextFunding, fees, init);
      StepIsStated(Run(l, init).value, fees, symbol, init, e);
      assert init + [e] == events;
    }
  }

  lemma StartIsStated(symbol: string, capital: real, nextFunding: int, fees: FeeSchedule)
    requires Start(symbol, capital, nextFunding, fees).Ok?
    ensures Stated(Start(symbol, capital, nextFunding, fees).value, fees, symbol, [])
  {
  }

  /** After every accepted run each leg holds what was traded and each counter is its sum over the
      events; funding is paid on the perp held short at each settlement. Cash and the perp at any
      mark together are the capital, what trading has made at that mark with the spot at cost, and
      the funding, less fees and financing. */
  lemma {:induction false} LedgerIsItsEvents(symbol: string, capital: real, nextFunding: int, fees: FeeSchedule,
                                             events: seq<LedgerEvent>)
    requires fees.Valid() && Start(symbol, capital, nextFunding, fees).Ok?
    requires Run(Start(symbol, capital, nextFunding, fees).value, events).Ok?
    ensures var l := Run(Start(symbol, capital, nextFunding, fees).value, events).value;
            && l.spot.quantity == Held(events, Spot) && l.perp.quantity == Held(events, Perp)
            && l.funding == FundingEarned(events) && l.feesPaid == FeesCharged(fees, symbol, events)
            && l.financing == FinancingCharged(events) && l.executionCost == Slippage(events)
            && forall mark :: l.cash + l.perp.Unrealized(mark)
                              == capital - Paid(events, Spot) + Times(Held(events, Perp), mark) - Paid(events, Perp)
                                 + FundingEarned(events) - FeesCharged(fees, symbol, events) - FinancingCharged(events)
  {
    var start := Start(symbol, capital, nextFunding, fees).value;
    RunIsStated(symbol, capital, nextFunding, fees, events);
    StartIsSound(symbol, capital, nextFunding, fees);
    RunKeepsSound(start, events);
    hide Run, Times, Held, Paid, FundingEarned, FeesCharged, FinancingCharged, Slippage;
  }

  /** What any valuation shows, from the events alone. */
  lemma {:induction false} ValuationIsItsEvents(symbol: string, capital: real, nextFunding: int, fees: FeeSchedule,
                                                events: seq<LedgerEvent>, m: Marks)
    requires fees.Valid() && Start(symbol, capital, nextFunding, fees).Ok?
    requires Run(Start(symbol, capital, nextFunding, fees).value, events).Ok?
    requires Value(Run(Start(symbol, capital, nextFunding, fees).value, events).value, m).Ok?
    ensures var v := Value(Run(Start(symbol, capital, nextFunding, fees).value, events).value, m).value;
            && v.spotQuantity == Held(events, Spot) && v.perpQuantity == Held(events, Perp) && v.time == m.time
            && v.pricePnl == Made(events, m) && v.funding == FundingEarned(events)
            && v.fees == FeesCharged(fees, symbol, events) && v.financing == FinancingCharged(events)
            && v.executionCost == Slippage(events)
            && v.grossPnl == Made(events, m) + FundingEarned(events) + Slippage(events)
            && v.netPnl == Made(events, m) + FundingEarned(events) - FeesCharged(fees, symbol, events)
                           - FinancingCharged(events)
            && v.netEquity == capital + v.netPnl && v.grossEquity == capital + v.grossPnl
  {
    RunIsStated(symbol, capital, nextFunding, fees, events);
    ProfitAddsUp(symbol, capital, nextFunding, fees, events, m);
    hide Run, Times, Held, Paid, FundingEarned, FeesCharged, FinancingCharged, Slippage;
  }

  /** A short is paid where the rate is positive and pays where it is negative, in proportion. */
  lemma {:induction false} ShortsArePaid(symbol: string, capital: real, nextFunding: int, fees: FeeSchedule,
                                         events: seq<LedgerEvent>, s: FundingSettlement)
    requires fees.Valid() && Start(symbol, capital, nextFunding, fees).Ok?
    requires Run(Start(symbol, capital, nextFunding, fees).value, events + [Settled(s)]).Ok?
    ensures Run(Start(symbol, capital, nextFunding, fees).value, events).Ok?
    ensures var before := Run(Start(symbol, capital, nextFunding, fees).value, events).value;
            var after := Run(Start(symbol, capital, nextFunding, fees).value, events + [Settled(s)]).value;
            && after.cash - before.cash == after.funding - before.funding
            && (Held(events, Perp) < 0.0 && s.rate > 0.0 ==> after.cash > before.cash)
            && (Held(events, Perp) < 0.0 && s.rate < 0.0 ==> after.cash < before.cash)
            && (Held(events, Perp) == 0.0 || s.rate == 0.0 ==> after.cash == before.cash)
  {
    var l := Start(symbol, capital, nextFunding, fees).value;
    assert (events + [Settled(s)])[..|events|] == events;
    RunIsStated(symbol, capital, nextFunding, fees, events);
    var value := Times(-Held(events, Perp), s.markPrice);
    TimesPositive(-Held(events, Perp), s.markPrice);
    TimesSign(-Held(events, Perp), s.markPrice);
    TimesPositive(value, s.rate);
    TimesPositive(value, -s.rate);
    TimesSign(value, s.rate);
    TimesDistributes(value, 0.0, s.rate);
    assert -s.rate == 0.0 - s.rate && Times(value, 0.0) == 0.0;
    hide Times, Held, Paid, FundingEarned, FeesCharged, FinancingCharged, Slippage;
  }

  // ---------------------------------------------------------------- what is accepted

  function IdOf(e: LedgerEvent): string {
    match e
    case Filled(f) => f.id
    case Settled(s) => s.id
    case Charged(id, time, cost) => id
  }

  function TimeOf(e: LedgerEvent): int {
    match e
    case Filled(f) => f.time
    case Settled(s) => s.time
    case Charged(id, time, cost) => time
  }

  function Used(events: seq<LedgerEvent>): set<string> {
    set i | 0 <= i < |events| :: IdOf(events[i])
  }

  function Latest(events: seq<LedgerEvent>): int {
    if events == [] then 0 else TimeOf(events[|events| - 1])
  }

  /** When the next settlement is due: the first as agreed, each other its interval after the last. */
  function Due(first: int, events: seq<LedgerEvent>): int {
    if events == [] then first
    else
      var e := events[|events| - 1];
      if e.Settled? then e.settlement.time + e.settlement.intervalHours * HOUR_MS else Due(first, events[..|events| - 1])
  }

  function LastPaid(events: seq<LedgerEvent>): Option<int> {
    if events == [] then None
    else if events[|events| - 1].Settled? then Some(events[|events| - 1].settlement.time)
    else LastPaid(events[..|events| - 1])
  }

  ghost predicate Standing(l: Ledger, first: int, events: seq<LedgerEvent>) {
    && l.ids == Used(events) && l.time == Latest(events) && l.nextFunding == Due(first, events)
    && l.lastFunding == LastPaid(events)
  }

  lemma StepStands(l: Ledger, first: int, events: seq<LedgerEvent>, e: LedgerEvent)
    requires Standing(l, first, events) && Step(l, e).Ok?
    ensures Standing(Step(l, e).value, first, events + [e])
  {
    hide Times, QuoteFrom, Guarded;
    assert (events + [e])[..|events|] == events;
    UsedGrows(events, e);
    hide Used;
  }

  lemma UsedGrows(events: seq<LedgerEvent>, e: LedgerEvent)
    ensures Used(events + [e]) == Used(events) + {IdOf(e)}
  {
    var all := events + [e];
    forall x | x in Used(events) + {IdOf(e)} ensures x in Used(all) {
      if x in Used(events) {
        var i :| 0 <= i < |events| && IdOf(events[i]) == x;
        assert all[i] == events[i];
      } else {
        assert IdOf(all[|events|]) == x;
      }
    }
  }

  lemma {:induction false} RunStands(symbol: string, capital: real, nextFunding: int, fees: FeeSchedule,
                                     events: seq<LedgerEvent>)
    requires Start(symbol, capital, nextFunding, fees).Ok?
    requires Run(Start(symbol, capital, nextFunding, fees).value, events).Ok?
    ensures Standing(Run(Start(symbol, capital, nextFunding, fees).value, events).value, nextFunding, events)
  {
    hide Step, Standing;
    var l := Start(symbol, capital, nextFunding, fees).value;
    if events == [] {
      StartStands(symbol, capital, nextFunding, fees);
    } else {
      var init, e := events[..|events| - 1], events[|events| - 1];
      RunStands(symbol, capital, nextFunding, fees, init);
      StepStands(Run(l, init).value, nextFunding, init, e);
      assert init + [e] == events;
    }
  }

  lemma StartStands(symbol: string, capital: real, nextFunding: int, fees: FeeSchedule)
    requires Start(symbol, capital, nextFunding, fees).Ok?
    ensures Standing(Start(symbol, capital, nextFunding, fees).value, nextFunding, [])
  {
  }

  /** Exactly which event an account accepts next: one with a new name, no earlier than the last;
      a fill at a price, of something, before the next settlement is due and with a fee on record,
      that leaves the spot leg long and the perp leg short, the perp clear of the settlements before
      and after it; the settlement that is due; or a charge that is not negative before it. */
  lemma {:induction false} AcceptanceIsExact(symbol: string, capital: real, nextFunding: int, fees: FeeSchedule,
                                             events: seq<LedgerEvent>, e: LedgerEvent)
    requires fees.Valid() && Start(symbol, capital, nextFunding, fees).Ok?
    requires Run(Start(symbol, capital, nextFunding, fees).value, events).Ok?
    ensures var due := Due(nextFunding, events);
            Run(Start(symbol, capital, nextFunding, fees).value, events + [e]).Ok?
            <==> && IdOf(e) != "" && IdOf(e) !in Used(events) && TimeOf(e) >= Latest(events)
                 && match e {
                      case Filled(f) =>
                        && f.symbol == symbol && f.price > 0.0 && f.referenceMid > 0.0 && f.quantity != 0.0 && f.time < due
                        && Quote(fees, symbol, f.market, f.time).Some?
                        && (f.market.Spot? ==> Held(events, Spot) + f.quantity >= 0.0)
                        && (f.market.Perp? ==>
                              && Held(events, Perp) + f.quantity <= 0.0 && due - f.time > SETTLEMENT_GUARD_MS
                              && (LastPaid(events).Some? ==> f.time - LastPaid(events).value > SETTLEMENT_GUARD_MS))
                      case Settled(s) =>
                        s.symbol == symbol && s.markPrice > 0.0 && s.time == due && 1 <= s.intervalHours <= 24
                      case Charged(id, time, cost) => cost >= 0.0 && time < due
                    }
  {
    var start := Start(symbol, capital, nextFunding, fees).value;
    assert (events + [e])[..|events|] == events;
    RunStands(symbol, capital, nextFunding, fees, events);
    RunIsStated(symbol, capital, nextFunding, fees, events);
    LatestIsNatural(symbol, capital, nextFunding, fees, events);
    var l := Run(start, events).value;
    if e.Filled? {
      TradeMovesPnl(l.Leg(e.fill.market), e.fill.quantity, e.fill.price, 0.0);
    }
    hide Times, QuoteFrom, Held, Paid, FundingEarned, FeesCharged, FinancingCharged, Slippage, Used, Due, LastPaid;
  }

  /** Exactly when the account can be valued: at positive marks of its symbol, no earlier than its
      last event and before the next settlement is due. */
  lemma {:induction false} ValuedExactlyWhen(symbol: string, capital: real, nextFunding: int, fees: FeeSchedule,
                                             events: seq<LedgerEvent>, m: Marks)
    requires Start(symbol, capital, nextFunding, fees).Ok?
    requires Run(Start(symbol, capital, nextFunding, fees).value, events).Ok?
    ensures Value(Run(Start(symbol, capital, nextFunding, fees).value, events).value, m).Ok?
       <==> m.symbol == symbol && m.spot > 0.0 && m.perp > 0.0 && 0 <= Latest(events) <= m.time < Due(nextFunding, events)
  {
    RunStands(symbol, capital, nextFunding, fees, events);
    RunIsStated(symbol, capital, nextFunding, fees, events);
    LatestIsNatural(symbol, capital, nextFunding, fees, events);
    hide Run, Times, Used, Due, LastPaid, Latest, Held, Paid, FundingEarned, FeesCharged, FinancingCharged, Slippage;
  }

  lemma {:induction false} LatestIsNatural(symbol: string, capital: real, nextFunding: int, fees: FeeSchedule,
                                          events: seq<LedgerEvent>)
    requires Start(symbol, capital, nextFunding, fees).Ok?
    requires Run(Start(symbol, capital, nextFunding, fees).value, events).Ok?
    ensures Latest(events) >= 0
  {
    hide Times, QuoteFrom, Guarded;
  }

  lemma {:induction false} PrefixIsAccepted(symbol: string, capital: real, nextFunding: int, fees: FeeSchedule,
                                            events: seq<LedgerEvent>, k: nat)
    requires Start(symbol, capital, nextFunding, fees).Ok? && k < |events|
    requires Run(Start(symbol, capital, nextFunding, fees).value, events).Ok?
    ensures Run(Start(symbol, capital, nextFunding, fees).value, events[..k]).Ok?
    ensures Run(Start(symbol, capital, nextFunding, fees).value, events[..k] + [events[k]]).Ok?
  {
    hide Step;
    var init := events[..|events| - 1];
    if k == |init| {
      assert events[..k] + [events[k]] == events;
    } else {
      assert init[..k] == events[..k] && init[k] == events[k];
      PrefixIsAccepted(symbol, capital, nextFunding, fees, init, k);
    }
  }

  /** Settlements and clocks only move on. */
  lemma {:induction false} ClocksMoveOn(symbol: string, capital: real, nextFunding: int, fees: FeeSchedule,
                                        events: seq<LedgerEvent>, k: nat)
    requires fees.Valid() && Start(symbol, capital, nextFunding, fees).Ok? && k <= |events|
    requires Run(Start(symbol, capital, nextFunding, fees).value, events).Ok?
    ensures Due(nextFunding, events[..k]) <= Due(nextFunding, events)
    ensures forall j | 0 <= j < k :: TimeOf(events[j]) <= Latest(events)
    ensures forall j | 0 <= j < k && events[j].Settled? ::
              LastPaid(events).Some? && events[j].settlement.time <= LastPaid(events).value
  {
    hide Run, Held, Used, Quote;
    if events == [] {
      assert events[..k] == events;
    } else {
      var n := |events| - 1;
      PrefixIsAccepted(symbol, capital, nextFunding, fees, events, n);
      AcceptanceIsExact(symbol, capital, nextFunding, fees, events[..n], events[n]);
      assert events[..n] + [events[n]] == events;
      var m := if k <= n then k else n;
      assert events[..n][..m] == events[..m] && events[..n + 1] == events;
      ClocksMoveOn(symbol, capital, nextFunding, fees, events[..n], m);
      assert forall j | 0 <= j < m :: events[..n][j] == events[j];
    }
  }

  /** No accepted perp fill stands within the guard of any settlement, before it or after. */
  lemma {:induction false} FillsAreClear(symbol: string, capital: real, nextFunding: int, fees: FeeSchedule,
                                         events: seq<LedgerEvent>, i: nat, j: nat)
    requires fees.Valid() && Start(symbol, capital, nextFunding, fees).Ok?
    requires Run(Start(symbol, capital, nextFunding, fees).value, events).Ok?
    requires i < |events| && j < |events| && events[i].Filled? && events[i].fill.market.Perp? && events[j].Settled?
    ensures if j < i then events[i].fill.time - events[j].settlement.time > SETTLEMENT_GUARD_MS
            else events[j].settlement.time - events[i].fill.time > SETTLEMENT_GUARD_MS
  {
    hide Run, Held, Used, Quote, Due, LastPaid, Latest;
    PrefixIsAccepted(symbol, capital, nextFunding, fees, events, i);
    AcceptanceIsExact(symbol, capital, nextFunding, fees, events[..i], events[i]);
    if j < i {
      ClocksMoveOn(symbol, capital, nextFunding, fees, events[..i], i);
      assert events[..i][j] == events[j];
    } else {
      PrefixIsAccepted(symbol, capital, nextFunding, fees, events, j);
      AcceptanceIsExact(symbol, capital, nextFunding, fees, events[..j], events[j]);
      ClocksMoveOn(symbol, capital, nextFunding, fees, events[..j], i);
      assert events[..j][..i] == events[..i];
    }
  }
}
