/** The runner's account is the account of its own events: settlements, financing and executed fills. */
module Books {
  import opened Wrappers
  import opened Reals
  import opened Fees
  import opened Accounting
  import opened Carry
  import opened Costs
  import opened Sizing
  import opened Execution
  import opened WalkForward
  import opened Protocol
  import opened Statement
  import RollingFunding

  // ---------------------------------------------------------------- what an event posts

  /** The fills behind a position opened or closed. */
  function Executed(w: World, before: State, e: MarketEvent, after: State): seq<LedgerEvent> {
    var fills :=
      if before.position.None? && after.position.Some? then w.execute(e, -after.ledger.perp.quantity, true)
      else if before.position.Some? && after.position.None? then w.execute(e, -before.ledger.perp.quantity, false)
      else None;
    if fills.None? || |fills.value| != 2 then [] else [Filled(fills.value[0]), Filled(fills.value[1])]
  }

  /** A settlement inside the study, or the financing of a market event and then its fills. */
  function Posted(w: World, c: Config, before: State, e: Event, after: State): seq<LedgerEvent> {
    match e
    case OfFunding(f) =>
      if f.time < c.start || f.mark.None? then []
      else [Settled(FundingSettlement(f.id, c.symbol, f.time, f.intervalHours, f.rate, f.mark.value))]
    case OfMarket(m) => [Charged(m.id + ":finance", m.time, m.financing)] + Executed(w, before, m, after)
  }

  /** Everything an accepted run posts, in order. */
  function Journal(w: World, c: Config, fees: FeeSchedule, events: seq<Event>): seq<LedgerEvent>
    requires fees.Valid() && IsRoot(w.root) && AllValid(events) && Backtest(w, c, fees, events).Ok?
  {
    if events == [] then []
    else
      var init := events[..|events| - 1];
      InitRuns(w, c, fees, events);
      Journal(w, c, fees, init)
      + Posted(w, c, Backtest(w, c, fees, init).value, events[|events| - 1], Backtest(w, c, fees, events).value)
  }

  // ---------------------------------------------------------------- and that it is all that happens

  lemma {:induction false} RunComposes(l: Ledger, a: seq<LedgerEvent>, b: seq<LedgerEvent>)
    requires Run(l, a).Ok?
    ensures Run(l, a + b) == Run(Run(l, a).value, b)
  {
    hide Step;
    if b == [] {
      assert a + b == a;
    } else {
      assert (a + b)[..|a + b| - 1] == a + b[..|b| - 1];
      RunComposes(l, a, b[..|b| - 1]);
    }
  }

  lemma OneStep(l: Ledger, e: LedgerEvent)
    ensures Run(l, [e]) == Step(l, e)
  {
    hide Step;
    assert [e][..0] == [];
  }

  lemma TwoFills(l: Ledger, fills: seq<Fill>)
    requires |fills| == 2 && FillBoth(l, fills).Ok?
    ensures Run(l, [Filled(fills[0]), Filled(fills[1])]) == Ok(FillBoth(l, fills).value)
  {
    hide ApplyFill, Run;
    var a, b := Filled(fills[0]), Filled(fills[1]);
    OneStep(l, a);
    RunComposes(l, [a], [b]);
    OneStep(ApplyFill(l, fills[0]).value, b);
    assert [a] + [b] == [a, b];
  }

  lemma NothingPosted(l: Ledger)
    ensures Run(l, []) == Ok(l)
  {
  }

  /** A trade is its fills on the account, paired whatever the executor, or nothing. */
  lemma {:induction false} TradeIsItsFills(w: World, c: Config, s: State, e: MarketEvent, quantity: real, opening: bool)
    requires Trade(w, c, s, e, quantity, opening).Ok?
    ensures var (after, filled) := Trade(w, c, s, e, quantity, opening).value;
            && (!filled ==> after.ledger == s.ledger)
            && (filled ==> && w.execute(e, quantity, opening).Some? && |w.execute(e, quantity, opening).value| == 2
                           && FillBoth(s.ledger, w.execute(e, quantity, opening).value) == Ok(after.ledger)
                           && PairedFills(c, e, w.execute(e, quantity, opening).value, quantity, opening))
  {
    hide Evident, ApplyFill, FillBoth, Reserved;
  }

  /** Spot first and perp second, opposite and in full, at the event's own time and mids. */
  predicate PairedFills(c: Config, e: MarketEvent, fills: seq<Fill>, quantity: real, opening: bool) {
    && |fills| == 2 && fills[0].market.Spot? && fills[1].market.Perp?
    && fills[0].quantity == -fills[1].quantity == (if opening then quantity else 0.0 - quantity)
    && fills[0].referenceMid == e.spotMid && fills[1].referenceMid == e.perpMid
    && forall i | 0 <= i < 2 :: fills[i].time == e.time && fills[i].symbol == c.symbol
  }

  lemma EnteringIsPosted(w: World, c: Config, s: State, e: MarketEvent, o: Option<Opportunity>, forecast: Option<Forecast>)
    requires Proper(w, c, s, e) && (o.Some? ==> o.value.Valid()) && EnterAt(w, c, s, e, o, forecast).Ok?
    requires s.position.None? && Hedged(s.ledger) && s.ledger.perp.quantity == 0.0
    ensures var after := EnterAt(w, c, s, e, o, forecast).value.state;
            Run(s.ledger, Executed(w, s, e, after)) == Ok(after.ledger)
  {
    hide SizeEntry, Trade, IsRoot, Hedged, Run, FillBoth;
    NothingPosted(s.ledger);
    if o.Some? && SizeEntry(w, c, s, e, o.value, forecast).Ok? && SizeEntry(w, c, s, e, o.value, forecast).value.Some? {
      var q := SizeEntry(w, c, s, e, o.value, forecast).value.value.quantity;
      if Trade(w, c, s, e, q, true).Ok? {
        TradeIsItsFills(w, c, s, e, q, true);
        TradeMovesIfOk(w, c, s, e, q, true);
        if Trade(w, c, s, e, q, true).value.1 {
          TwoFills(s.ledger, w.execute(e, q, true).value);
        }
      }
    }
  }

  lemma HoldingIsPosted(w: World, c: Config, s: State, e: MarketEvent, o: Option<Opportunity>, forecast: Option<Forecast>)
    requires Proper(w, c, s, e) && (o.Some? ==> o.value.Valid()) && s.position.Some? && HeldAt(w, c, s, e, o, forecast).Ok?
    requires Hedged(s.ledger)
    ensures var after := HeldAt(w, c, s, e, o, forecast).value.state;
            Run(s.ledger, Executed(w, s, e, after)) == Ok(after.ledger)
  {
    hide HeldDecision, Trade, IsRoot, Hedged, Run, FillBoth;
    var q := -s.ledger.perp.quantity;
    NothingPosted(s.ledger);
    if Trade(w, c, s, e, q, false).Ok? {
      TradeIsItsFills(w, c, s, e, q, false);
      TradeMovesIfOk(w, c, s, e, q, false);
      TwoFills(s.ledger, w.execute(e, q, false).value);
    }
  }

  lemma DecidingIsPosted(w: World, c: Config, s: State, e: MarketEvent, n: nat)
    requires Proper(w, c, s, e) && DecideAt(w, c, s, e).Ok? && Hedged(s.ledger) && Planned(c, s, n)
    ensures var after := DecideAt(w, c, s, e).value.state;
            Run(s.ledger, Executed(w, s, e, after)) == Ok(after.ledger)
  {
    hide EnterAt, HeldAt, Admit, IsRoot, Hedged, Run, Evident, RollingFunding.Accepted;
    AdmitKeeps(w, c, s, e);
    var (admitted, o) := Admit(w, c, s, e).value;
    var left := SettlementsLeft(c, s);
    var forecast := if left > 0 then w.predict(RollingFunding.Accepted(s.observations), left, e.time) else None;
    if s.position.None? {
      EnteringIsPosted(w, c, admitted, e, o, forecast);
    } else {
      HoldingIsPosted(w, c, admitted, e, o, forecast);
    }
  }

  lemma MarketIsPosted(w: World, c: Config, s: State, e: MarketEvent, n: nat)
    requires ValidConfig(w, c) && s.ledger.fees.Valid() && OfMarket(e).Valid() && IsRoot(w.root) && e.time >= 0
    requires Inv(c, s, n) && e.time == s.lastTime && ProcessMarket(w, c, s, e).Ok?
    ensures var after := ProcessMarket(w, c, s, e).value.0;
            Run(s.ledger, Posted(w, c, s, OfMarket(e), after)) == Ok(after.ledger)
  {
    hide IsRoot, DecideAt, Scored, Hedged, Run, Times, Reserved, Value;
    MarkedKeeps(c, s, e);
    var marked, charge := Marked(c, s, e).value, Charged(e.id + ":finance", e.time, e.financing);
    OneStep(s.ledger, charge);
    NothingPosted(marked.ledger);
    if e.decide {
      HedgedFees(marked.ledger);
      DecidingIsPosted(w, c, marked, e, n);
      var decided := DecideAt(w, c, marked, e).value;
      ScoredKeeps(w, c, decided.state, e, Some(decided.decision), decided.sizing);
    } else {
      ScoredKeeps(w, c, marked, e, None, None);
    }
    var after := ProcessMarket(w, c, s, e).value.0;
    assert Executed(w, marked, e, after) == Executed(w, s, e, after);
    RunComposes(s.ledger, [charge], Executed(w, s, e, after));
  }

  lemma EventIsPosted(w: World, c: Config, s: State, e: Event, n: nat)
    requires ValidConfig(w, c) && s.ledger.fees.Valid() && e.Valid() && IsRoot(w.root)
    requires Inv(c, s, n) && Process(w, c, s, e).Ok?
    ensures var after := Process(w, c, s, e).value.0; Run(s.ledger, Posted(w, c, s, e, after)) == Ok(after.ledger)
  {
    hide IsRoot, ProcessMarket, Run, Hedged, Settle, Reserved, RollingFunding.Accepted, RollingFunding.Refusal, Recorded;
    var seen := s.(lastTime := e.Time(), ids := s.ids + {e.Id()});
    assert Inv(c, seen, n);
    if e.OfMarket? {
      MarketIsPosted(w, c, seen, e.market, n);
      var after := Process(w, c, s, e).value.0;
      assert Posted(w, c, seen, e, after) == Posted(w, c, s, e, after);
    } else {
      NothingPosted(s.ledger);
      if e.funding.time >= c.start && e.funding.mark.Some? {
        var f := e.funding;
        OneStep(s.ledger, Settled(FundingSettlement(f.id, c.symbol, f.time, f.intervalHours, f.rate, f.mark.value)));
      }
    }
  }

  /** The account an accepted run ends with is its journal run from the opening ledger. */
  lemma {:induction false} AccountIsItsJournal(w: World, c: Config, fees: FeeSchedule, events: seq<Event>)
    requires fees.Valid() && IsRoot(w.root) && AllValid(events) && Backtest(w, c, fees, events).Ok?
    ensures Start(c.symbol, c.capital, c.start, fees).Ok?
    ensures Run(Start(c.symbol, c.capital, c.start, fees).value, Journal(w, c, fees, events))
         == Ok(Backtest(w, c, fees, events).value.ledger)
  {
    hide IsRoot, Backtest, Process, FeeSchedule.Valid, Run, Posted, Inv, OnSchedule, Ticks;
    OpeningAccount(w, c, fees, events);
    if events == [] {
      NothingPosted(Start(c.symbol, c.capital, c.start, fees).value);
    } else {
      var init, e := events[..|events| - 1], events[|events| - 1];
      InitRuns(w, c, fees, events);
      AccountIsItsJournal(w, c, fees, init);
      RunGrows(w, c, fees, init, e);
      assert init + [e] == events;
      var s := Backtest(w, c, fees, init).value;
      EventIsPosted(w, c, s, e, |Ticks(c, init)|);
      RunComposes(Start(c.symbol, c.capital, c.start, fees).value, Journal(w, c, fees, init),
                  Posted(w, c, s, e, Backtest(w, c, fees, events).value));
    }
  }

  lemma OpeningAccount(w: World, c: Config, fees: FeeSchedule, events: seq<Event>)
    requires fees.Valid() && IsRoot(w.root) && AllValid(events) && Backtest(w, c, fees, events).Ok?
    ensures Start(c.symbol, c.capital, c.start, fees).Ok?
    ensures events == [] ==> Backtest(w, c, fees, events).value.ledger == Start(c.symbol, c.capital, c.start, fees).value
  {
    hide IsRoot, FeeSchedule.Valid, Inv;
  }

  // ---------------------------------------------------------------- funding over a run

  /** Over the settlements of a stream, the rate on the mark value of what the account held. */
  function FundingOf(w: World, c: Config, fees: FeeSchedule, events: seq<Event>): real
    requires fees.Valid() && IsRoot(w.root) && AllValid(events) && Backtest(w, c, fees, events).Ok?
  {
    if events == [] then 0.0
    else
      var init, e := events[..|events| - 1], events[|events| - 1];
      InitRuns(w, c, fees, events);
      FundingOf(w, c, fees, init)
      + if !e.OfFunding? || e.funding.time < c.start || e.funding.mark.None? then 0.0
        else Times(Times(Backtest(w, c, fees, init).value.ledger.spot.quantity, e.funding.mark.value), e.funding.rate)
  }

  /** Over a whole run the carry is paid, at every settlement of the study, the rate on the mark
      value of the position it then holds, and nothing else. */
  lemma {:induction false} RunsArePaidTheirFunding(w: World, c: Config, fees: FeeSchedule, events: seq<Event>)
    requires fees.Valid() && IsRoot(w.root) && AllValid(events) && Backtest(w, c, fees, events).Ok?
    ensures Backtest(w, c, fees, events).value.ledger.funding == FundingOf(w, c, fees, events)
  {
    hide IsRoot, Backtest, FeeSchedule.Valid, Run, Held, Times;
    AccountIsItsJournal(w, c, fees, events);
    JournalFunding(w, c, fees, events);
    LedgerIsItsEvents(c.symbol, c.capital, c.start, fees, Journal(w, c, fees, events));
    hide FundingOf, Journal, FundingEarned;
  }

  lemma {:induction false} JournalFunding(w: World, c: Config, fees: FeeSchedule, events: seq<Event>)
    requires fees.Valid() && IsRoot(w.root) && AllValid(events) && Backtest(w, c, fees, events).Ok?
    ensures FundingEarned(Journal(w, c, fees, events)) == FundingOf(w, c, fees, events)
  {
    hide IsRoot, Backtest, FeeSchedule.Valid, Run, Held, Times, FundingEarned, Posted;
    if events == [] {
      NothingEarned();
    } else {
      var init, e := events[..|events| - 1], events[|events| - 1];
      InitRuns(w, c, fees, events);
      JournalFunding(w, c, fees, init);
      AccountIsItsJournal(w, c, fees, init);
      LedgerIsItsEvents(c.symbol, c.capital, c.start, fees, Journal(w, c, fees, init));
      RunIsHedged(w, c, fees, init);
      PostedFunding(w, c, Journal(w, c, fees, init), Backtest(w, c, fees, init).value, e, Backtest(w, c, fees, events).value);
    }
  }

  lemma NothingEarned()
    ensures FundingEarned([]) == 0.0
  {
  }

  lemma RunIsHedged(w: World, c: Config, fees: FeeSchedule, events: seq<Event>)
    requires fees.Valid() && IsRoot(w.root) && AllValid(events) && Backtest(w, c, fees, events).Ok?
    ensures Backtest(w, c, fees, events).value.ledger.spot.quantity == -Backtest(w, c, fees, events).value.ledger.perp.quantity
  {
    hide IsRoot, Backtest, FeeSchedule.Valid, Clocked, Planned, Observed, OnSchedule;
  }

  lemma PostedFunding(w: World, c: Config, journal: seq<LedgerEvent>, before: State, e: Event, after: State)
    ensures FundingEarned(journal + Posted(w, c, before, e, after))
         == FundingEarned(journal)
            + if !e.OfFunding? || e.funding.time < c.start || e.funding.mark.None? then 0.0
              else Times(Times(-Held(journal, Perp), e.funding.mark.value), e.funding.rate)
  {
    hide Held, Times, Executed;
    if e.OfFunding? {
      var posted := Posted(w, c, before, e, after);
      assert journal + [] == journal;
      assert |posted| == 1 ==> (journal + posted)[..|journal|] == journal;
    } else {
      NoSettlementPosted(w, before, e.market, after);
      NoFundingWithoutSettlement(journal, Posted(w, c, before, e, after));
    }
  }

  lemma NoSettlementPosted(w: World, before: State, e: MarketEvent, after: State)
    ensures forall i | 0 <= i < |Executed(w, before, e, after)| :: !Executed(w, before, e, after)[i].Settled?
  {
  }

  lemma {:induction false} NoFundingWithoutSettlement(a: seq<LedgerEvent>, b: seq<LedgerEvent>)
    requires forall i | 0 <= i < |b| :: !b[i].Settled?
    ensures FundingEarned(a + b) == FundingEarned(a)
  {
    hide Held, Times;
    if b == [] {
      assert a + b == a;
    } else {
      assert (a + b)[..|a + b| - 1] == a + b[..|b| - 1];
      NoFundingWithoutSettlement(a, b[..|b| - 1]);
    }
  }
}
