/** What the events of an accepted stream are, and what its records show of them. */
module Streams {
  import opened Wrappers
  import opened Reals
  import opened Clock
  import opened Fees
  import opened Accounting
  import opened Carry
  import opened Costs
  import opened Sizing
  import opened Execution
  import opened WalkForward
  import opened Protocol
  import RollingFunding

  // ---------------------------------------------------------------- order and schedule

  /** Times on the schedule's grid, in order. */
  lemma GridOrder(c: Config, a: int, b: int, shift: int)
    requires c.Interval() > 0
    ensures a < b <==> a * c.Interval() + shift < b * c.Interval() + shift
  {
    var i := c.Interval();
    assert a < b ==> (b - a - 1) * i >= 0;
    assert a >= b ==> (a - b) * i >= 0;
    assert (b - a) * i == b * i - a * i;
  }

  /** Where an accepted event stands on the schedule, tick `m` of which is any. */
  lemma {:induction false} EventMeetsItsSchedule(w: World, c: Config, s: State, e: Event, n: nat, m: nat)
    requires ValidConfig(w, c) && s.ledger.fees.Valid() && e.Valid() && IsRoot(w.root)
    requires Inv(c, s, n) && Process(w, c, s, e).Ok?
    ensures e.Id() != "" && e.Id() !in s.ids && s.lastTime <= e.Time() && c.warmupStart <= e.Time() < c.end
    ensures var after := Process(w, c, s, e).value.0; after.lastTime == e.Time() && after.ids == s.ids + {e.Id()}
    ensures Scheduled(c, m).DecisionDue? && Scheduled(c, m).time < e.Time() && e.Time() >= c.start ==> m < n
    ensures e.OfMarket? && !e.market.decide && Scheduled(c, m).time <= e.Time() ==> m < n
    ensures e.OfMarket? && e.market.decide && Scheduled(c, m).SettlementDue? && Scheduled(c, m).time <= e.Time() ==> m < n
    ensures e.OfFunding? ==> e.funding.time == s.nextObservation && e.funding.intervalHours == c.intervalHours
    ensures e.OfMarket? ==> e.Time() >= c.start
  {
    var seen := s.(lastTime := e.Time(), ids := s.ids + {e.Id()});
    GridOrder(c, m / 2, n / 2, c.start + c.delay);
    GridOrder(c, m / 2, (n + 1) / 2, c.start);
    if e.OfMarket? {
      MarketIsTimely(w, c, seen, e.market, n);
    } else {
      FundingIsTimely(w, c, seen, e.funding);
    }
    hide ProcessMarket, ProcessFunding, Hedged, Planned, Observed, IsRoot;
  }

  lemma MarketIsTimely(w: World, c: Config, s: State, e: MarketEvent, n: nat)
    requires ValidConfig(w, c) && s.ledger.fees.Valid() && OfMarket(e).Valid() && IsRoot(w.root) && e.time >= 0
    requires Inv(c, s, n) && ProcessMarket(w, c, s, e).Ok?
    ensures e.time >= c.start && (e.decide <==> e.time == s.nextDecision) && e.time < s.ledger.nextFunding
    ensures var after := ProcessMarket(w, c, s, e).value.0; after.lastTime == s.lastTime && after.ids == s.ids
  {
    hide IsRoot, Hedged, DecideAt, Scored, Marked;
    MarkedKeeps(c, s, e);
    var marked := Marked(c, s, e).value;
    if e.decide {
      HedgedFees(marked.ledger);
      DecisionIsDue(c, s, e.time, n);
      DecidingKeepsClocks(w, c, marked, e);
      var decided := DecideAt(w, c, marked, e).value;
      ScoredKeeps(w, c, decided.state, e, Some(decided.decision), decided.sizing);
    } else {
      ScoredKeeps(w, c, marked, e, None, None);
    }
  }

  lemma DecidingKeepsClocks(w: World, c: Config, s: State, e: MarketEvent)
    requires Proper(w, c, s, e) && DecideAt(w, c, s, e).Ok? && Hedged(s.ledger)
    ensures SameClock(s, DecideAt(w, c, s, e).value.state)
  {
    hide EnterAt, HeldAt, Admit, Hedged, IsRoot, Evident, RollingFunding.Accepted;
    AdmitKeeps(w, c, s, e);
    var left := SettlementsLeft(c, s);
    var forecast := if left > 0 then w.predict(RollingFunding.Accepted(s.observations), left, e.time) else None;
    var (admitted, o) := Admit(w, c, s, e).value;
    if s.position.None? {
      EnteringKeepsClocks(w, c, admitted, e, o, forecast);
    } else {
      HoldingKeepsClocks(w, c, admitted, e, o, forecast);
    }
  }

  lemma EnteringKeepsClocks(w: World, c: Config, s: State, e: MarketEvent, o: Option<Opportunity>,
                            forecast: Option<Forecast>)
    requires Proper(w, c, s, e) && (o.Some? ==> o.value.Valid()) && EnterAt(w, c, s, e, o, forecast).Ok?
    requires Hedged(s.ledger)
    ensures SameClock(s, EnterAt(w, c, s, e, o, forecast).value.state)
  {
    hide SizeEntry, Trade, Hedged, IsRoot;
    if o.Some? && SizeEntry(w, c, s, e, o.value, forecast).Ok? && SizeEntry(w, c, s, e, o.value, forecast).value.Some? {
      TradeMovesIfOk(w, c, s, e, SizeEntry(w, c, s, e, o.value, forecast).value.value.quantity, true);
    }
  }

  lemma HoldingKeepsClocks(w: World, c: Config, s: State, e: MarketEvent, o: Option<Opportunity>,
                           forecast: Option<Forecast>)
    requires Proper(w, c, s, e) && (o.Some? ==> o.value.Valid()) && s.position.Some? && Hedged(s.ledger)
    requires HeldAt(w, c, s, e, o, forecast).Ok?
    ensures SameClock(s, HeldAt(w, c, s, e, o, forecast).value.state)
  {
    hide HeldDecision, Trade, Hedged, IsRoot;
    TradeMovesIfOk(w, c, s, e, -s.ledger.perp.quantity, false);
  }

  lemma FundingIsTimely(w: World, c: Config, s: State, f: FundingEvent)
    requires ProcessFunding(w, c, s, f).Ok?
    ensures f.time == s.nextObservation && f.intervalHours == c.intervalHours
    ensures var after := ProcessFunding(w, c, s, f).value.0; after.lastTime == s.lastTime && after.ids == s.ids
  {
    hide Settle, Reserved, Recorded, RollingFunding.Accepted, RollingFunding.Refusal;
  }

  lemma {:induction false} SeenIsTheStream(w: World, c: Config, fees: FeeSchedule, events: seq<Event>)
    requires fees.Valid() && IsRoot(w.root) && AllValid(events) && Backtest(w, c, fees, events).Ok?
    ensures var s := Backtest(w, c, fees, events).value;
            && (forall x :: x in s.ids <==> exists i :: 0 <= i < |events| && events[i].Id() == x)
            && (forall i | 0 <= i < |events| :: events[i].Time() <= s.lastTime)
  {
    hide IsRoot, Backtest, Process, FeeSchedule.Valid, Inv, OnSchedule, Ticks;
    if events == [] {
      NothingSeen(w, c, fees);
    } else {
      var init, e := events[..|events| - 1], events[|events| - 1];
      InitRuns(w, c, fees, events);
      SeenIsTheStream(w, c, fees, init);
      RunGrows(w, c, fees, init, e);
      assert init + [e] == events;
      EventMeetsItsSchedule(w, c, Backtest(w, c, fees, init).value, e, |Ticks(c, init)|, 0);
      assert forall i | 0 <= i < |init| :: init[i] == events[i];
    }
  }

  lemma NothingSeen(w: World, c: Config, fees: FeeSchedule)
    requires fees.Valid() && IsRoot(w.root) && Backtest(w, c, fees, []).Ok?
    ensures Backtest(w, c, fees, []).value.ids == {}
  {
    hide IsRoot, FeeSchedule.Valid, Inv;
  }

  /** An accepted stream names each event once, goes forward inside the window, and skips nothing:
      whatever of the schedule is due before an event has been done before it, and at a decision's
      own moment no market event comes before the decision. */
  lemma {:induction false} AcceptedStreamsAreOrderly(w: World, c: Config, fees: FeeSchedule, events: seq<Event>, i: nat,
                                                     m: nat)
    requires fees.Valid() && IsRoot(w.root) && AllValid(events) && Backtest(w, c, fees, events).Ok? && i < |events|
    ensures var e, done := events[i], |Ticks(c, events[..i])|; var tick := Scheduled(c, m);
            && e.Id() != "" && c.warmupStart <= e.Time() < c.end
            && (forall j | 0 <= j < i :: events[j].Id() != e.Id() && events[j].Time() <= e.Time())
            && (e.OfMarket? ==> e.Time() >= c.start)
            && (e.Time() >= c.start && tick.DecisionDue? && tick.time < e.Time() ==> m < done)
            && (e.OfMarket? && tick.time <= e.Time() && (tick.SettlementDue? || !e.market.decide) ==> m < done)
            && (e.OfFunding? ==> e.funding.intervalHours == c.intervalHours)
  {
    hide IsRoot, Backtest, Process, FeeSchedule.Valid, Inv, OnSchedule, Ticks;
    PrefixIsAccepted(w, c, fees, events, i);
    PrefixIsAccepted(w, c, fees, events, i + 1);
    var before := events[..i];
    assert before + [events[i]] == events[..i + 1];
    SeenIsTheStream(w, c, fees, before);
    RunGrows(w, c, fees, before, events[i]);
    EventMeetsItsSchedule(w, c, Backtest(w, c, fees, before).value, events[i], |Ticks(c, before)|, m);
    assert forall j | 0 <= j < i :: before[j] == events[j];
  }

  /** No market event is accepted on an account without equity, or short of its collateral, once its
      financing is paid: the account is valued before anything is decided. */
  lemma {:induction false} MarketEventsAreSolvent(w: World, c: Config, s: State, e: Event, n: nat)
    requires ValidConfig(w, c) && s.ledger.fees.Valid() && e.Valid() && IsRoot(w.root) && e.OfMarket?
    requires Inv(c, s, n) && Process(w, c, s, e).Ok?
    ensures e.market.financing >= 0.0 && e.market.marks.time == e.market.time && e.market.spotMid > 0.0 && e.market.perpMid > 0.0
    ensures var paid := s.ledger.(cash := s.ledger.cash - e.market.financing);
            && Covered(paid, e.market.marks.perp, c.collateral)
            && paid.cash + Times(paid.spot.quantity, e.market.marks.spot) + Times(paid.perp.quantity, e.market.marks.perp)
               - paid.perp.basis > 0.0
  {
    hide IsRoot, DecideAt, Scored, Hedged, Reserved, Times, Covered;
    var seen := s.(lastTime := e.Time(), ids := s.ids + {e.Id()});
    var marked := Marked(c, seen, e.market).value;
    CoveredIsReserved(marked.ledger, e.market.marks.perp, c.collateral);
    SameCover(s.ledger, marked.ledger, e.market.financing, e.market.marks.perp, c.collateral);
  }

  lemma SameCover(l: Ledger, m: Ledger, cost: real, mark: real, collateral: real)
    requires m.cash == l.cash - cost && m.perp == l.perp
    ensures Covered(l.(cash := l.cash - cost), mark, collateral) == Covered(m, mark, collateral)
  {
    hide Times;
  }

  // ---------------------------------------------------------------- sealed folds

  /** Every fold known keeps its curve. */
  predicate CurvesKept(s: State, after: State) {
    forall k | k in s.foldCurves :: k in after.foldCurves && after.foldCurves[k] == s.foldCurves[k]
  }

  lemma AdmitKeepsCurves(w: World, c: Config, s: State, e: MarketEvent)
    requires Admit(w, c, s, e).Ok?
    ensures var (after, o) := Admit(w, c, s, e).value;
            CurvesKept(s, after)
            && (o.Some? ==> o.value.foldStart in after.foldCurves
                            && after.foldCurves[o.value.foldStart] == o.value.curve.artifact)
            && (o.Some? <==> e.opportunity.Some? && Evident(w, c, e, e.opportunity.value)) && (o.Some? ==> e.opportunity == o)
  {
    hide Evident;
  }

  lemma TradeKeepsCurves(w: World, c: Config, s: State, e: MarketEvent, quantity: real, opening: bool)
    ensures Trade(w, c, s, e, quantity, opening).Ok? ==> CurvesKept(s, Trade(w, c, s, e, quantity, opening).value.0)
  {
    hide FillBoth, Reserved, Admit;
    if Admit(w, c, s, e).Ok? {
      AdmitKeepsCurves(w, c, s, e);
    }
  }

  lemma EnterKeepsCurves(w: World, c: Config, s: State, e: MarketEvent, o: Option<Opportunity>, forecast: Option<Forecast>)
    requires Proper(w, c, s, e) && (o.Some? ==> o.value.Valid()) && EnterAt(w, c, s, e, o, forecast).Ok?
    ensures CurvesKept(s, EnterAt(w, c, s, e, o, forecast).value.state)
  {
    hide SizeEntry, Trade, IsRoot;
    if o.Some? && SizeEntry(w, c, s, e, o.value, forecast).Ok? && SizeEntry(w, c, s, e, o.value, forecast).value.Some? {
      TradeKeepsCurves(w, c, s, e, SizeEntry(w, c, s, e, o.value, forecast).value.value.quantity, true);
    }
  }

  lemma HeldKeepsCurves(w: World, c: Config, s: State, e: MarketEvent, o: Option<Opportunity>, forecast: Option<Forecast>)
    requires Proper(w, c, s, e) && (o.Some? ==> o.value.Valid()) && s.position.Some? && HeldAt(w, c, s, e, o, forecast).Ok?
    ensures CurvesKept(s, HeldAt(w, c, s, e, o, forecast).value.state)
  {
    hide HeldDecision, Trade, IsRoot;
    TradeKeepsCurves(w, c, s, e, -s.ledger.perp.quantity, false);
  }

  lemma DecideKeepsCurves(w: World, c: Config, s: State, e: MarketEvent)
    requires Proper(w, c, s, e) && DecideAt(w, c, s, e).Ok?
    ensures CurvesKept(s, DecideAt(w, c, s, e).value.state)
  {
    hide EnterAt, HeldAt, Admit, IsRoot, Evident, RollingFunding.Accepted;
    AdmitKeeps(w, c, s, e);
    AdmitKeepsCurves(w, c, s, e);
    var left := SettlementsLeft(c, s);
    var forecast := if left > 0 then w.predict(RollingFunding.Accepted(s.observations), left, e.time) else None;
    var (admitted, o) := Admit(w, c, s, e).value;
    if s.position.None? {
      EnterKeepsCurves(w, c, admitted, e, o, forecast);
    } else {
      HeldKeepsCurves(w, c, admitted, e, o, forecast);
    }
  }

  lemma ScoredSeals(w: World, c: Config, s: State, e: MarketEvent, decision: Option<Decision>,
                    sizing: Option<SizingResult>)
    requires Scored(w, c, s, e, decision, sizing).Ok?
    ensures var after := Scored(w, c, s, e, decision, sizing).value.0;
            CurvesKept(s, after) && Seals(w, c, e, after)
  {
    hide Evident, Value, Reserved, Recorded, Admit;
    AdmitKeepsCurves(w, c, s, e);
  }

  /** If the event's evidence is admissible, its fold has its curve. */
  predicate Seals(w: World, c: Config, e: MarketEvent, after: State) {
    e.opportunity.Some? && Evident(w, c, e, e.opportunity.value) ==>
      e.opportunity.value.foldStart in after.foldCurves
      && after.foldCurves[e.opportunity.value.foldStart] == e.opportunity.value.curve.artifact
  }

  lemma MarketSeals(w: World, c: Config, s: State, e: MarketEvent)
    requires ValidConfig(w, c) && s.ledger.fees.Valid() && OfMarket(e).Valid() && IsRoot(w.root) && e.time >= 0
    requires ProcessMarket(w, c, s, e).Ok? && Hedged(s.ledger)
    ensures var after := ProcessMarket(w, c, s, e).value.0; CurvesKept(s, after) && Seals(w, c, e, after)
  {
    hide IsRoot, DecideAt, Scored, Hedged, Marked, Seals;
    MarkedKeeps(c, s, e);
    var marked := Marked(c, s, e).value;
    MarkedKeepsCurves(c, s, e);
    if e.decide {
      HedgedFees(marked.ledger);
      DecideKeepsCurves(w, c, marked, e);
      var decided := DecideAt(w, c, marked, e).value;
      ScoredSeals(w, c, decided.state, e, Some(decided.decision), decided.sizing);
    } else {
      ScoredSeals(w, c, marked, e, None, None);
    }
  }

  lemma MarkedKeepsCurves(c: Config, s: State, e: MarketEvent)
    requires Marked(c, s, e).Ok?
    ensures Marked(c, s, e).value.foldCurves == s.foldCurves
  {
    hide Times;
  }

  lemma EventSeals(w: World, c: Config, s: State, e: Event, n: nat)
    requires ValidConfig(w, c) && s.ledger.fees.Valid() && e.Valid() && IsRoot(w.root)
    requires Inv(c, s, n) && Process(w, c, s, e).Ok?
    ensures var after := Process(w, c, s, e).value.0;
            CurvesKept(s, after) && (e.OfMarket? ==> Seals(w, c, e.market, after))
  {
    hide IsRoot, ProcessMarket, Seals, Settle, Reserved, Recorded, RollingFunding.Accepted, RollingFunding.Refusal;
    var seen := s.(lastTime := e.Time(), ids := s.ids + {e.Id()});
    if e.OfMarket? {
      MarketSeals(w, c, seen, e.market);
      hide Hedged;
    }
  }

  lemma {:induction false} RunSeals(w: World, c: Config, fees: FeeSchedule, events: seq<Event>, i: nat)
    requires fees.Valid() && IsRoot(w.root) && AllValid(events) && Backtest(w, c, fees, events).Ok? && i < |events|
    ensures events[i].OfMarket? ==> Seals(w, c, events[i].market, Backtest(w, c, fees, events).value)
  {
    hide IsRoot, Backtest, Process, FeeSchedule.Valid, Inv, OnSchedule, Ticks, Evident;
    var init, e := events[..|events| - 1], events[|events| - 1];
    InitRuns(w, c, fees, events);
    RunGrows(w, c, fees, init, e);
    assert init + [e] == events;
    EventSeals(w, c, Backtest(w, c, fees, init).value, e, |Ticks(c, init)|);
    if i < |init| {
      RunSeals(w, c, fees, init, i);
      assert init[i] == events[i];
    }
  }

  /** Within an accepted run a month's evidence always comes from the same curve. */
  lemma {:induction false} FoldsAreSealed(w: World, c: Config, fees: FeeSchedule, events: seq<Event>, i: nat, j: nat)
    requires fees.Valid() && IsRoot(w.root) && AllValid(events) && Backtest(w, c, fees, events).Ok?
    requires i < |events| && j < |events| && events[i].OfMarket? && events[j].OfMarket?
    requires events[i].market.opportunity.Some? && events[j].market.opportunity.Some?
    requires Evident(w, c, events[i].market, events[i].market.opportunity.value)
    requires Evident(w, c, events[j].market, events[j].market.opportunity.value)
    requires w.foldStart(events[i].market.time) == w.foldStart(events[j].market.time)
    ensures events[i].market.opportunity.value.curve.artifact == events[j].market.opportunity.value.curve.artifact
  {
    hide IsRoot, Backtest, FeeSchedule.Valid, Inv, OnSchedule, Ticks;
    RunSeals(w, c, fees, events, i);
    RunSeals(w, c, fees, events, j);
  }

  // ---------------------------------------------------------------- records

  /** A record shows the state its event leaves, field by field, and says that evidence was
      admitted exactly when it was of this fold and symbol, known and current at the event, allowed
      in kind, and quoted at the event's own price. */
  lemma {:induction false} RecordsShowTheState(w: World, c: Config, s: State, e: Event, n: nat)
    requires ValidConfig(w, c) && s.ledger.fees.Valid() && e.Valid() && IsRoot(w.root)
    requires Inv(c, s, n) && Process(w, c, s, e).Ok? && Process(w, c, s, e).value.1.Some?
    ensures var (after, recorded) := Process(w, c, s, e).value; var r, l := recorded.value, after.ledger;
            && r.id == e.Id() && r.time == e.Time() && r.foldStart == w.foldStart(e.Time())
            && r.cash == l.cash && r.funding == l.funding && r.quantity == -l.perp.quantity
            && r.planned == (if after.position.Some? then Some(after.position.value.planned) else None)
            && r.held == (if after.position.Some? then after.position.value.held else 0)
            && match e {
                 case OfFunding(f) =>
                   r.kind == FundingRecord && r.decision.None? && r.valuation.None? && !r.admitted && r.sizing.None?
                   && r.fraction.None? && r.notional.None?
                 case OfMarket(m) =>
                   && r.kind == MarketRecord && (r.decision.Some? <==> m.decide) && (r.sizing.Some? ==> m.decide)
                   && r.valuation.Some? && Value(l, m.marks) == Ok(r.valuation.value)
                   && r.notional == Some(Times(r.quantity, m.perpMid))
                   && (r.fraction.Some? <==> m.opportunity.Some?)
                   && (m.opportunity.Some? ==> r.fraction.value == r.quantity / m.opportunity.value.market.advBase)
                   && (r.admitted <==>
                         && m.opportunity.Some?
                         && var (o, curve, market) :=
                              (m.opportunity.value, m.opportunity.value.curve, m.opportunity.value.market);
                            && o.foldStart == w.foldStart(m.time) && curve.evidenceEnd <= o.foldStart
                            && curve.admittedAt <= m.time && curve.symbol == c.symbol == market.symbol
                            && (curve.kind.Synthetic? ==> c.policy.allowSynthetic)
                            && market.observedAt <= m.time < market.validUntil
                            && market.metadataFrom <= m.time < market.metadataUntil
                            && market.advEnd <= m.time < market.advEnd + DAY_MS && market.price == m.perpMid)
               }
  {
    hide IsRoot, DecideAt, Scored, Settle, Reserved, Marked, Value, Times, RollingFunding.Accepted, RollingFunding.Refusal;
    if e.OfMarket? {
      var seen := s.(lastTime := e.Time(), ids := s.ids + {e.Id()});
      MarkedKeeps(c, seen, e.market);
      var marked := Marked(c, seen, e.market).value;
      if e.market.decide {
        HedgedFees(marked.ledger);
        var decided := DecideAt(w, c, marked, e.market).value;
        ScoredShows(w, c, decided.state, e.market, Some(decided.decision), decided.sizing);
      } else {
        ScoredShows(w, c, marked, e.market, None, None);
      }
      if e.market.opportunity.Some? {
        DayOf(e.market.opportunity.value.market.advEnd, e.market.time);
      }
    }
  }

  lemma DayOf(day: int, time: int)
    requires day % DAY_MS == 0
    ensures day == time / DAY_MS * DAY_MS <==> day <= time < day + DAY_MS
  {
    var k := day / DAY_MS;
    assert day == k * DAY_MS;
    assert k * DAY_MS <= time < k * DAY_MS + DAY_MS <==> time / DAY_MS == k;
  }

  lemma ScoredShows(w: World, c: Config, s: State, e: MarketEvent, decision: Option<Decision>,
                    sizing: Option<SizingResult>)
    requires Scored(w, c, s, e, decision, sizing).Ok?
    ensures var (after, record) := Scored(w, c, s, e, decision, sizing).value;
            && after.ledger == s.ledger && after.position == s.position && Value(s.ledger, e.marks).Ok?
            && record == Some(Recorded(w, c, after, OfMarket(e), MarketRecord, decision, Some(Value(s.ledger, e.marks).value),
                                       e.opportunity.Some? && Evident(w, c, e, e.opportunity.value), sizing))
  {
    hide Evident, Reserved, Value, Recorded;
  }

  // ---------------------------------------------------------------- the hours of the day

  /** Settlements keep to the clock: those of an accepted stream fall on the same whole hours of
      every day, midnight among them, one after another without a gap. */
  lemma {:induction false} SettlementsKeepTheClock(w: World, c: Config, fees: FeeSchedule, events: seq<Event>, i: nat)
    requires fees.Valid() && IsRoot(w.root) && AllValid(events) && Backtest(w, c, fees, events).Ok? && i < |events|
    requires events[i].OfFunding?
    ensures DAY_MS % c.Interval() == 0 && events[i].Time() % c.Interval() == 0
    ensures var time := events[i].Time() % DAY_MS; exists k :: 0 <= k < 24 / c.intervalHours && time == k * c.Interval()
  {
    hide IsRoot, Backtest, Process, FeeSchedule.Valid, Ticks, OnSchedule, Hedged, Clocked, Planned;
    PrefixIsAccepted(w, c, fees, events, i);
    PrefixIsAccepted(w, c, fees, events, i + 1);
    var before := events[..i];
    assert before + [events[i]] == events[..i + 1];
    RunGrows(w, c, fees, before, events[i]);
    var s := Backtest(w, c, fees, before).value;
    EventMeetsItsSchedule(w, c, s, events[i], |Ticks(c, before)|, 0);
    OnTheHour(c.warmupStart, |s.observations|, c.intervalHours, events[i].Time());
  }

  lemma OnTheHour(start: int, count: nat, hours: int, time: int)
    requires 1 <= hours <= 24 && 24 % hours == 0 && start % (hours * HOUR_MS) == 0
    requires time == start + count * (hours * HOUR_MS)
    ensures DAY_MS % (hours * HOUR_MS) == 0 && time % (hours * HOUR_MS) == 0
    ensures exists k :: 0 <= k < 24 / hours && time % DAY_MS == k * (hours * HOUR_MS)
  {
    var interval, perDay := hours * HOUR_MS, 24 / hours;
    assert perDay * hours == 24;
    assert DAY_MS == perDay * interval;
    var first := start / interval;
    assert time == (first + count) * interval by {
      assert start == first * interval;
    }
    var n := first + count;
    MultipleWithinTheDay(n, interval, perDay);
    Multiple(perDay, interval);
    Multiple(n, interval);
    assert time % DAY_MS == n % perDay * interval;
  }

  lemma Multiple(n: int, interval: int)
    requires interval > 0
    ensures n * interval % interval == 0
  {
    RemainderIsUnique(n * interval, interval, n, 0);
  }

  lemma RemainderIsUnique(x: int, divisor: int, quotient: int, rest: int)
    requires divisor > 0 && 0 <= rest < divisor && x == quotient * divisor + rest
    ensures x % divisor == rest
  {
    var q, r := x / divisor, x % divisor;
    assert (q - quotient) * divisor == rest - r;
    assert q - quotient >= 1 ==> (q - quotient - 1) * divisor >= 0;
    assert q - quotient <= -1 ==> (quotient - q - 1) * divisor >= 0;
  }

  lemma MultipleWithinTheDay(n: int, interval: int, perDay: int)
    requires interval > 0 && perDay > 0
    ensures n * interval % (perDay * interval) == n % perDay * interval
  {
    var q, r := n / perDay, n % perDay;
    PartOfTheDay(r, interval, perDay);
    Regrouped(q, perDay, r, interval);
    RemainderIsUnique(n * interval, perDay * interval, q, r * interval);
  }

  lemma PartOfTheDay(part: int, interval: int, perDay: int)
    requires interval > 0 && 0 <= part < perDay
    ensures 0 <= part * interval < perDay * interval
  {
  }

  lemma Regrouped(q: int, perDay: int, r: int, interval: int)
    ensures (q * perDay + r) * interval == q * (perDay * interval) + r * interval
  {
  }
}
