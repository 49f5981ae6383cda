/** What every accepted event stream of the runner has in common. */
module Protocol {
  import opened Wrappers
  import opened Reals
  import opened Clock
  import opened Fees
  import opened Accounting
  import opened Carry
  import opened Costs
  import opened Sizing
  import opened Execution
  import opened WalkForward
  import RollingFunding

  // ---------------------------------------------------------------- what a decision may change

  /** The same account and the same clock: only cash, legs and counters may differ. */
  predicate SameAccount(l: Ledger, m: Ledger) {
    m.symbol == l.symbol && m.fees == l.fees && m.initialCapital == l.initialCapital
    && m.nextFunding == l.nextFunding && m.lastFunding == l.lastFunding
  }

  predicate SameClock(s: State, t: State) {
    SameAccount(s.ledger, t.ledger) && t.lastTime == s.lastTime && t.nextObservation == s.nextObservation
    && t.ids == s.ids && t.nextDecision == s.nextDecision && t.observations == s.observations
  }

  /** Sound books with the two legs offsetting each other. */
  ghost predicate Hedged(l: Ledger) {
    Sound(l) && l.spot.quantity == -l.perp.quantity
  }

  lemma AdmitKeeps(w: World, c: Config, s: State, e: MarketEvent)
    requires Admit(w, c, s, e).Ok?
    ensures var (after, o) := Admit(w, c, s, e).value;
            && after == s.(foldCurves := after.foldCurves) && SameClock(s, after)
            && (o.Some? ==> e.opportunity == o && Evident(w, c, e, o.value))
  {
  }

  lemma FillMoves(l: Ledger, f: Fill)
    requires Sound(l) && ApplyFill(l, f).Ok?
    ensures var m := ApplyFill(l, f).value;
            && Sound(m) && SameAccount(l, m) && m.time == f.time
            && m.spot.quantity == l.spot.quantity + (if f.market.Spot? then f.quantity else 0.0)
            && m.perp.quantity == l.perp.quantity + (if f.market.Perp? then f.quantity else 0.0)
  {
    FillKeepsSound(l, f);
    hide Times, Sound, Guarded, QuoteFrom;
  }

  /** A trade moves both legs by the same amount or changes nothing in the books. */
  lemma {:induction false} TradeMoves(w: World, c: Config, s: State, e: MarketEvent, quantity: real, opening: bool)
    requires Hedged(s.ledger) && Trade(w, c, s, e, quantity, opening).Ok?
    ensures var (after, filled) := Trade(w, c, s, e, quantity, opening).value;
            && SameClock(s, after) && after.position == s.position && Hedged(after.ledger)
            && after.ledger.perp.quantity
               == s.ledger.perp.quantity - (if !filled then 0.0 else if opening then quantity else -quantity)
            && (!opening ==> filled)
  {
    hide Admit, ApplyFill, Reserved, Sound;
    if Admit(w, c, s, e).Ok? {
      AdmitKeeps(w, c, s, e);
    }
    var origin := if c.inferred then Admit(w, c, s, e).value.0 else s;
    var fills := w.execute(e, quantity, opening).value;
    FillMoves(origin.ledger, fills[0]);
    FillMoves(ApplyFill(origin.ledger, fills[0]).value, fills[1]);
  }

  // ---------------------------------------------------------------- the schedule

  datatype Tick = SettlementDue(time: int) | DecisionDue(time: int)

  function TickOf(c: Config, e: Event): seq<Tick> {
    if e.OfFunding? && e.funding.time >= c.start then [SettlementDue(e.funding.time)]
    else if e.OfMarket? && e.market.decide then [DecisionDue(e.market.time)]
    else []
  }

  function Ticks(c: Config, events: seq<Event>): seq<Tick> {
    if events == [] then [] else Ticks(c, events[..|events| - 1]) + TickOf(c, events[|events| - 1])
  }

  /** Tick `n` of every study: a settlement, then the decision that follows it by the delay. */
  function Scheduled(c: Config, n: nat): Tick {
    if n % 2 == 0 then SettlementDue(c.start + n / 2 * c.Interval())
    else DecisionDue(c.start + n / 2 * c.Interval() + c.delay)
  }

  /** Where the clocks stand after `n` ticks. */
  predicate Clocked(c: Config, s: State, n: nat) {
    && s.ledger.nextFunding == c.start + (n + 1) / 2 * c.Interval()
    && s.nextDecision == c.start + c.delay + n / 2 * c.Interval()
    && s.ledger.lastFunding == if n == 0 then None else Some(c.start + ((n + 1) / 2 - 1) * c.Interval())
  }

  /** A position is on record exactly when the perp leg is open, has collected every settlement since
      it was opened, and never outlives its plan: right after a decision it has one left to collect. */
  predicate Planned(c: Config, s: State, n: nat) {
    && (s.position.Some? <==> s.ledger.perp.quantity != 0.0)
    && (s.position.Some? ==>
          var p := s.position.value;
          p.symbol == c.symbol && p.planned == c.policy.horizon && p.openedAt <= s.lastTime
          && 0 <= p.held <= p.planned && (n % 2 == 0 ==> p.held < p.planned)
          && s.ledger.nextFunding == p.openedAt - c.delay + (p.held + 1) * c.Interval())
  }

  /** One observation per interval since the warm-up began; once the study has settled, the next
      observation is the next settlement. */
  predicate Observed(c: Config, s: State, n: nat) {
    && s.nextObservation == c.warmupStart + |s.observations| * c.Interval()
    && (n > 0 ==> s.nextObservation == s.ledger.nextFunding)
  }

  ghost predicate Inv(c: Config, s: State, n: nat) {
    && Hedged(s.ledger) && s.ledger.symbol == c.symbol && s.ledger.initialCapital == c.capital
    && Clocked(c, s, n) && Planned(c, s, n) && Observed(c, s, n)
  }

  lemma InitialInv(w: World, c: Config, fees: FeeSchedule)
    requires fees.Valid() && Initial(w, c, fees).Ok?
    ensures ValidConfig(w, c) && Inv(c, Initial(w, c, fees).value, 0)
  {
    StartIsSound(c.symbol, c.capital, c.start, fees);
  }

  // ---------------------------------------------------------------- decisions keep the plan

  lemma EnterQuantityIsPositive(root: real -> real, a: Ask)
    requires IsRoot(root) && a.Valid() && SizingOf(root, a).decision.action == Enter
    ensures SizingOf(root, a).quantity > 0.0
  {
    SizingIsOptimal(root, a);
    var r := SizingOf(root, a);
    var lots, last :| IsBest(root, a, lots) && IsFeasibleLast(root, a, last) && IsReport(root, a, lots, last, r);
    hide SizingOf, IsRoot;
    assert lots >= 1;
    TimesPositive(lots as real, a.market.quantityStep);
  }

  lemma EnterKeepsPlan(w: World, c: Config, s: State, e: MarketEvent, o: Option<Opportunity>,
                       forecast: Option<Forecast>)
    requires Proper(w, c, s, e) && (o.Some? ==> o.value.Valid())
    requires Hedged(s.ledger) && s.position.None? && s.ledger.perp.quantity == 0.0 && e.time <= s.lastTime
    requires e.time == s.ledger.nextFunding - c.Interval() + c.delay
    requires EnterAt(w, c, s, e, o, forecast).Ok?
    ensures var after := EnterAt(w, c, s, e, o, forecast).value.state;
            SameClock(s, after) && Hedged(after.ledger) && Planned(c, after, 0)
  {
    hide SizeEntry, Trade, Hedged, IsRoot;
    if o.Some? && SizeEntry(w, c, s, e, o.value, forecast).Ok? && SizeEntry(w, c, s, e, o.value, forecast).value.Some? {
      var sizing := SizeEntry(w, c, s, e, o.value, forecast).value.value;
      if sizing.decision.action == Enter {
        EntryIsPositive(w, c, s, e, o.value, forecast);
        TradeMovesIfOk(w, c, s, e, sizing.quantity, true);
      }
    }
  }

  lemma EntryIsPositive(w: World, c: Config, s: State, e: MarketEvent, o: Opportunity, forecast: Option<Forecast>)
    requires Proper(w, c, s, e) && o.Valid() && SizeEntry(w, c, s, e, o, forecast).Ok?
    requires var sizing := SizeEntry(w, c, s, e, o, forecast).value; sizing.Some? && sizing.value.decision.action == Enter
    ensures SizeEntry(w, c, s, e, o, forecast).value.value.quantity > 0.0
  {
    hide SizingOf, PerUnit, IsRoot, Quote, QuoteFrom;
    var spotFee := Quote(s.ledger.fees, c.symbol, Spot, e.time).value;
    var perpFee := Quote(s.ledger.fees, c.symbol, Perp, e.time).value;
    QuotesAreFractions(s.ledger.fees, c.symbol, e.time);
    PerUnitIsPositive(w, c, s, e, o, spotFee, perpFee);
    var cap := Cap(s.ledger.cash, PerUnit(w, c, e, o, spotFee, perpFee), e.perpMid);
    AskIsValid(w, c, s, e, o, forecast, cap, spotFee, perpFee);
    EnterQuantityIsPositive(w.root, AskFor(c, e, o, forecast, cap, ChargesFor(o, e, spotFee, perpFee)));
  }

  lemma HeldKeepsPlan(w: World, c: Config, s: State, e: MarketEvent, o: Option<Opportunity>, forecast: Option<Forecast>,
                      n: nat)
    requires Proper(w, c, s, e) && (o.Some? ==> o.value.Valid())
    requires Hedged(s.ledger) && s.position.Some? && Planned(c, s, n) && e.time <= s.lastTime
    requires HeldAt(w, c, s, e, o, forecast).Ok?
    ensures var after := HeldAt(w, c, s, e, o, forecast).value.state;
            SameClock(s, after) && Hedged(after.ledger) && Planned(c, after, 0)
  {
    hide Trade, Hedged, IsRoot, Quote, FromCurve, Usable, Covers, Quotable, Gate;
    TradeMovesIfOk(w, c, s, e, -s.ledger.perp.quantity, false);
  }

  lemma TradeMovesIfOk(w: World, c: Config, s: State, e: MarketEvent, quantity: real, opening: bool)
    requires Hedged(s.ledger)
    ensures Trade(w, c, s, e, quantity, opening).Ok? ==>
            var (after, filled) := Trade(w, c, s, e, quantity, opening).value;
            && SameClock(s, after) && after.position == s.position && Hedged(after.ledger)
            && after.ledger.perp.quantity
               == s.ledger.perp.quantity - (if !filled then 0.0 else if opening then quantity else -quantity)
            && (!opening ==> filled)
  {
    hide Trade, Hedged;
    if Trade(w, c, s, e, quantity, opening).Ok? {
      TradeMoves(w, c, s, e, quantity, opening);
    }
  }

  lemma DecideKeepsPlan(w: World, c: Config, s: State, e: MarketEvent, n: nat)
    requires Proper(w, c, s, e) && Hedged(s.ledger) && Planned(c, s, n) && e.time <= s.lastTime
    requires DecideAt(w, c, s, e).Ok? && (s.position.None? ==> e.time == s.ledger.nextFunding - c.Interval() + c.delay)
    ensures var after := DecideAt(w, c, s, e).value.state;
            SameClock(s, after) && Hedged(after.ledger) && Planned(c, after, 0)
  {
    hide EnterAt, HeldAt, Admit, Hedged, Evident, RollingFunding.Accepted, IsRoot, Config.Interval, ValidConfig;
    AdmitKeeps(w, c, s, e);
    var remaining := SettlementsLeft(c, s);
    var forecast := if remaining > 0 then w.predict(RollingFunding.Accepted(s.observations), remaining, e.time) else None;
    var (admitted, o) := Admit(w, c, s, e).value;
    if s.position.None? {
      EnterKeepsPlan(w, c, admitted, e, o, forecast);
    } else {
      HeldKeepsPlan(w, c, admitted, e, o, forecast, n);
    }
  }

  lemma MarkedKeeps(c: Config, s: State, e: MarketEvent)
    requires Hedged(s.ledger) && Marked(c, s, e).Ok?
    ensures var after := Marked(c, s, e).value;
            && SameClock(s, after) && after.position == s.position && Hedged(after.ledger)
            && after.ledger.perp == s.ledger.perp && after.ledger.spot == s.ledger.spot
            && e.time < s.ledger.nextFunding && e.marks.perp > 0.0
            && after.ledger.time == e.time
  {
    hide Times;
  }

  lemma ScoredKeeps(w: World, c: Config, s: State, e: MarketEvent, decision: Option<Decision>,
                    sizing: Option<SizingResult>)
    requires Scored(w, c, s, e, decision, sizing).Ok?
    ensures var after := Scored(w, c, s, e, decision, sizing).value.0;
            && after.ledger == s.ledger && after.position == s.position && after.lastTime == s.lastTime
            && after.nextDecision == s.nextDecision + (if e.decide then c.Interval() else 0)
            && after.nextObservation == s.nextObservation && after.observations == s.observations && after.ids == s.ids
  {
    hide Recorded, Evident;
  }

  lemma MarketKeepsInv(w: World, c: Config, s: State, e: MarketEvent, n: nat)
    requires ValidConfig(w, c) && OfMarket(e).Valid() && IsRoot(w.root) && e.time >= 0
    requires Inv(c, s, n) && e.time == s.lastTime && ProcessMarket(w, c, s, e).Ok?
    ensures Inv(c, ProcessMarket(w, c, s, e).value.0, n + |TickOf(c, OfMarket(e))|)
    ensures e.decide ==> DecisionDue(e.time) == Scheduled(c, n)
  {
    hide Marked, Scored, DecideAt, Hedged, IsRoot;
    MarkedKeeps(c, s, e);
    var marked := Marked(c, s, e).value;
    HedgedFees(marked.ledger);
    if e.decide {
      DecisionIsDue(c, s, e.time, n);
      DecideKeepsPlan(w, c, marked, e, n);
      var decided := DecideAt(w, c, marked, e).value;
      ScoredKeeps(w, c, decided.state, e, Some(decided.decision), decided.sizing);
      NextDecision(c, n);
    } else {
      ScoredKeeps(w, c, marked, e, None, None);
    }
  }

  lemma HedgedFees(l: Ledger)
    requires Hedged(l)
    ensures l.fees.Valid()
  {
  }

  /** Between its settlements the schedule leaves one moment for a decision, clear of both. */
  lemma DecisionIsDue(c: Config, s: State, time: int, n: nat)
    requires Clocked(c, s, n) && time == s.nextDecision && time < s.ledger.nextFunding && c.delay > 0 && c.Interval() > 0
    ensures n % 2 == 1 && DecisionDue(time) == Scheduled(c, n)
    ensures time == s.ledger.nextFunding - c.Interval() + c.delay
  {
    Halves(n);
    NextDecision(c, if n % 2 == 1 then n else n + 1);
  }

  lemma Halves(n: nat)
    ensures (n + 1) / 2 == n / 2 + n % 2
  {
  }

  lemma NextDecision(c: Config, n: nat)
    requires n % 2 == 1
    ensures (n + 2) / 2 == (n + 1) / 2 && (n + 1) / 2 * c.Interval() == n / 2 * c.Interval() + c.Interval()
  {
    assert (n + 1) / 2 == n / 2 + 1;
  }

  lemma SettlementIsDue(c: Config, s: State, time: int, n: nat)
    requires Clocked(c, s, n) && time == s.ledger.nextFunding && time <= s.nextDecision && c.delay < c.Interval()
    ensures n % 2 == 0 && SettlementDue(time) == Scheduled(c, n)
    ensures (n + 2) / 2 == n / 2 + 1 && (n + 1) / 2 == n / 2
    ensures (n / 2 + 1) * c.Interval() == n / 2 * c.Interval() + c.Interval()
  {
    Halves(n);
    assert (n / 2 + 1) * c.Interval() == n / 2 * c.Interval() + c.Interval();
  }

  lemma PayKeepsInv(c: Config, s: State, f: FundingEvent, n: nat)
    requires Inv(c, s, n) && Pay(c, s, f).Ok? && f.intervalHours == c.intervalHours && c.delay < c.Interval()
    requires f.time <= s.nextDecision
    ensures SettlementDue(f.time) == Scheduled(c, n)
    ensures var after := Pay(c, s, f).value;
            && Hedged(after.ledger) && after.ledger.symbol == c.symbol && after.ledger.initialCapital == c.capital
            && Clocked(c, after, n + 1) && Planned(c, after, n + 1)
            && after.ledger.nextFunding == f.time + c.Interval()
            && after.nextDecision == s.nextDecision && after.lastTime == s.lastTime
            && after.nextObservation == s.nextObservation && after.observations == s.observations
  {
    var event := FundingSettlement(f.id, c.symbol, f.time, f.intervalHours, f.rate, f.mark.value);
    SettleKeepsSound(s.ledger, event);
    SettlementIsDue(c, s, f.time, n);
    hide Times, Reserved, Sound;
  }

  lemma NextObservation(c: Config, k: nat)
    ensures (k + 1) * c.Interval() == k * c.Interval() + c.Interval()
  {
  }

  /** No observation from before the study is due once the study has settled. */
  lemma WarmupIsBeforeStart(c: Config, s: State, n: nat)
    requires c.Interval() > 0 && Clocked(c, s, n) && Observed(c, s, n) && s.nextObservation < c.start
    ensures n == 0
  {
    assert (n + 1) / 2 * c.Interval() >= 0;
  }

  lemma FundingKeepsInv(w: World, c: Config, s: State, f: FundingEvent, n: nat)
    requires ValidConfig(w, c) && Inv(c, s, n) && f.time == s.lastTime && (f.time >= c.start ==> f.time <= s.nextDecision)
    requires ProcessFunding(w, c, s, f).Ok?
    ensures Inv(c, ProcessFunding(w, c, s, f).value.0, n + |TickOf(c, OfFunding(f))|)
    ensures f.time >= c.start ==> SettlementDue(f.time) == Scheduled(c, n)
  {
    hide Pay, Hedged, Recorded, RollingFunding.Accepted, RollingFunding.Refusal;
    NextObservation(c, |s.observations|);
    if f.time >= c.start {
      PayKeepsInv(c, s, f, n);
    } else {
      WarmupIsBeforeStart(c, s, n);
    }
  }

  /** One accepted event keeps the books hedged, the plan in step and the clocks on schedule. */
  lemma {:induction false} ProcessKeepsInv(w: World, c: Config, s: State, e: Event, n: nat)
    requires ValidConfig(w, c) && s.ledger.fees.Valid() && e.Valid() && IsRoot(w.root)
    requires Inv(c, s, n) && Process(w, c, s, e).Ok?
    ensures Inv(c, Process(w, c, s, e).value.0, n + |TickOf(c, e)|)
    ensures TickOf(c, e) != [] ==> TickOf(c, e) == [Scheduled(c, n)]
  {
    hide ProcessFunding, ProcessMarket, Hedged, IsRoot, Scheduled;
    var seen := s.(lastTime := e.Time(), ids := s.ids + {e.Id()});
    assert Inv(c, seen, n);
    if e.OfFunding? {
      FundingKeepsInv(w, c, seen, e.funding, n);
    } else {
      MarketKeepsInv(w, c, seen, e.market, n);
    }
  }

  /** A record is made exactly of the events inside the study, under their own names. */
  lemma {:induction false} ScoredEventsAreRecorded(w: World, c: Config, s: State, e: Event)
    requires ValidConfig(w, c) && s.ledger.fees.Valid() && e.Valid() && IsRoot(w.root) && Process(w, c, s, e).Ok?
    ensures var record := Process(w, c, s, e).value.1;
            && (record.Some? <==> e.Time() >= c.start)
            && (record.Some? ==> record.value.id == e.Id() && record.value.time == e.Time())
  {
    hide IsRoot, DecideAt, Marked, Evident, RollingFunding.Accepted, RollingFunding.Refusal, Reserved, Settle, Times,
        Value,
        Admit;
  }

  /** The valuation on the record of a scored event obeys the accounting identities. */
  lemma RecordAddsUp(w: World, c: Config, s: State, e: Event, n: nat)
    requires ValidConfig(w, c) && s.ledger.fees.Valid() && e.Valid() && IsRoot(w.root)
    requires Inv(c, s, n) && Process(w, c, s, e).Ok?
    ensures var record := Process(w, c, s, e).value.1;
            record.Some? && record.value.valuation.Some?
            ==> AddsUp(record.value.valuation.value, c.capital) && record.value.cash == record.value.valuation.value.cash
  {
    hide IsRoot, DecideAt, Scored, RollingFunding.Accepted, RollingFunding.Refusal, Reserved, Settle, AddsUp, Marked,
        Times;
    if e.OfMarket? {
      var seen := s.(lastTime := e.Time(), ids := s.ids + {e.Id()});
      MarkedKeeps(c, seen, e.market);
      var marked := Marked(c, seen, e.market).value;
      if e.market.decide {
        HedgedFees(marked.ledger);
        DecideKeepsPlan(w, c, marked, e.market, n);
        var decided := DecideAt(w, c, marked, e.market).value;
        ScoredAddsUp(w, c, decided.state, e.market, Some(decided.decision), decided.sizing);
      } else {
        ScoredAddsUp(w, c, marked, e.market, None, None);
      }
    }
  }

  lemma ScoredAddsUp(w: World, c: Config, s: State, e: MarketEvent, decision: Option<Decision>,
                     sizing: Option<SizingResult>)
    requires Hedged(s.ledger) && Scored(w, c, s, e, decision, sizing).Ok?
    ensures var record := Scored(w, c, s, e, decision, sizing).value.1;
            && record.Some? && record.value.valuation.Some?
            && AddsUp(record.value.valuation.value, s.ledger.initialCapital)
            && record.value.cash == record.value.valuation.value.cash
  {
    SoundValueAddsUp(s.ledger, e.marks);
    hide Evident, Reserved, AddsUp, Sound, Times;
  }

  // ---------------------------------------------------------------- coverage

  /** Cash plus what the perp would gain closed at the mark, against the collateral on its value there. */
  predicate Covered(l: Ledger, mark: real, collateral: real) {
    var short := if l.perp.quantity < 0.0 then -l.perp.quantity else l.perp.quantity;
    l.cash + Times(l.perp.quantity, mark) - l.perp.basis >= Times(Times(short, mark), collateral)
  }

  lemma CoveredIsReserved(l: Ledger, mark: real, collateral: real)
    ensures Covered(l, mark, collateral) <==> Reserved(l, mark, collateral)
  {
    hide Times;
  }

  function MarkOf(e: Event): real {
    match e
    case OfFunding(f) => if f.mark.Some? then f.mark.value else 0.0
    case OfMarket(m) => m.marks.perp
  }

  /** No scored event is accepted with the cash and the perp's gain or loss at the event's mark short
      of the collateral on the perp's value at it. */
  lemma {:induction false} ScoredEventIsCovered(w: World, c: Config, s: State, e: Event)
    requires ValidConfig(w, c) && s.ledger.fees.Valid() && e.Valid() && IsRoot(w.root)
    requires Process(w, c, s, e).Ok? && e.Time() >= c.start
    ensures var (after, record) := Process(w, c, s, e).value;
            && Covered(after.ledger, MarkOf(e), c.collateral)
            && record.Some? && record.value.cash == after.ledger.cash && record.value.quantity == -after.ledger.perp.quantity
  {
    CoveredIsReserved(Process(w, c, s, e).value.0.ledger, MarkOf(e), c.collateral);
    hide IsRoot, DecideAt, Covered, Evident, RollingFunding.Accepted, RollingFunding.Refusal, Reserved, Settle, Times;
    if e.OfMarket? {
      var seen := s.(lastTime := e.Time(), ids := s.ids + {e.Id()});
      var marked := Marked(c, seen, e.market).value;
      if e.market.decide {
        var decided := DecideAt(w, c, marked, e.market).value;
        ScoredIsCovered(w, c, decided.state, e.market, Some(decided.decision), decided.sizing);
      } else {
        ScoredIsCovered(w, c, marked, e.market, None, None);
      }
      hide Scored;
    }
  }

  lemma ScoredIsCovered(w: World, c: Config, s: State, e: MarketEvent, decision: Option<Decision>,
                        sizing: Option<SizingResult>)
    requires Scored(w, c, s, e, decision, sizing).Ok?
    ensures var (after, record) := Scored(w, c, s, e, decision, sizing).value;
            && Reserved(after.ledger, e.marks.perp, c.collateral)
            && record.Some? && record.value.cash == after.ledger.cash && record.value.quantity == -after.ledger.perp.quantity
  {
    hide Evident, Reserved, Value;
  }

  // ---------------------------------------------------------------- whole runs

  predicate AllValid(events: seq<Event>) {
    forall i | 0 <= i < |events| :: events[i].Valid()
  }

  /** Settlements and decisions strictly alternate, from the study's start, on the dot. */
  ghost predicate OnSchedule(c: Config, events: seq<Event>) {
    forall i | 0 <= i < |Ticks(c, events)| :: Ticks(c, events)[i] == Scheduled(c, i)
  }

  lemma EventKeepsSchedule(w: World, c: Config, s: State, events: seq<Event>)
    requires events != [] && ValidConfig(w, c) && s.ledger.fees.Valid() && events[|events| - 1].Valid() && IsRoot(w.root)
    requires var init := events[..|events| - 1]; Inv(c, s, |Ticks(c, init)|) && OnSchedule(c, init)
    ensures var step := Process(w, c, s, events[|events| - 1]);
            step.Ok? ==> Inv(c, step.value.0, |Ticks(c, events)|) && OnSchedule(c, events) && step.value.0.ledger.fees.Valid()
  {
    hide Inv, Process, Scheduled, IsRoot;
    var n := |events| - 1;
    if Process(w, c, s, events[n]).Ok? {
      ProcessKeepsInv(w, c, s, events[n], |Ticks(c, events[..n])|);
      InvFees(c, Process(w, c, s, events[n]).value.0, |Ticks(c, events)|);
    }
  }

  lemma InvFees(c: Config, s: State, n: nat)
    requires Inv(c, s, n)
    ensures s.ledger.fees.Valid()
  {
  }

  /** The state after a stream, or the first error. */
  function RunAll(w: World, c: Config, s: State, events: seq<Event>): (r: Result<State, RunError>)
    requires ValidConfig(w, c) && s.ledger.fees.Valid() && IsRoot(w.root) && AllValid(events)
    requires Inv(c, s, 0)
    ensures r.Ok? ==> Inv(c, r.value, |Ticks(c, events)|) && OnSchedule(c, events) && r.value.ledger.fees.Valid()
  {
    hide Inv, Process, IsRoot, Ticks, OnSchedule, ValidConfig, FeeSchedule.Valid;
    if events == [] then NoTicks(c); Ok(s)
    else
      var n := |events| - 1;
      match RunAll(w, c, s, events[..n])
      case Err(error) => Err(error)
      case Ok(before) =>
        EventKeepsSchedule(w, c, before, events);
        match Process(w, c, before, events[n])
        case Err(error) => Err(error)
        case Ok((after, record)) => Ok(after)
  }

  lemma NoTicks(c: Config)
    ensures Ticks(c, []) == [] && OnSchedule(c, [])
  {
  }

  lemma {:induction false} PrefixRuns(w: World, c: Config, s: State, events: seq<Event>, k: nat)
    requires ValidConfig(w, c) && s.ledger.fees.Valid() && IsRoot(w.root) && AllValid(events) && Inv(c, s, 0)
    requires k <= |events| && RunAll(w, c, s, events).Ok?
    ensures RunAll(w, c, s, events[..k]).Ok?
  {
    hide Inv, Process, IsRoot, OnSchedule, ValidConfig, FeeSchedule.Valid;
    if k == |events| {
      assert events[..k] == events;
    } else {
      assert events[..|events| - 1][..k] == events[..k];
      PrefixRuns(w, c, s, events[..|events| - 1], k);
    }
  }

  /** A whole run from its configuration. */
  function Backtest(w: World, c: Config, fees: FeeSchedule, events: seq<Event>): (r: Result<State, RunError>)
    requires fees.Valid() && IsRoot(w.root) && AllValid(events)
    ensures r.Ok? ==> Inv(c, r.value, |Ticks(c, events)|) && OnSchedule(c, events)
  {
    hide IsRoot, OnSchedule, FeeSchedule.Valid, Inv;
    match Initial(w, c, fees)
    case Err(error) => Err(error)
    case Ok(s) =>
      InitialInv(w, c, fees);
      InvFees(c, s, 0);
      RunAll(w, c, s, events)
  }

  /** What one more event does to a whole run. */
  lemma RunGrows(w: World, c: Config, fees: FeeSchedule, events: seq<Event>, e: Event)
    requires fees.Valid() && IsRoot(w.root) && AllValid(events) && e.Valid() && Backtest(w, c, fees, events).Ok?
    ensures AllValid(events + [e]) && ValidConfig(w, c) && Backtest(w, c, fees, events).value.ledger.fees.Valid()
    ensures Backtest(w, c, fees, events + [e])
         == match Process(w, c, Backtest(w, c, fees, events).value, e)
            case Err(error) => Err(error)
            case Ok((after, record)) => Ok(after)
  {
    hide IsRoot, Inv, Process, OnSchedule, FeeSchedule.Valid, Ticks;
    assert (events + [e])[..|events|] == events;
    InitialInv(w, c, fees);
    InvFees(c, Initial(w, c, fees).value, 0);
  }

  /** The records of a run, up to its first error. */
  function RecordsOf(w: World, c: Config, fees: FeeSchedule, events: seq<Event>): seq<Record>
    requires fees.Valid() && IsRoot(w.root) && AllValid(events)
  {
    if events == [] then []
    else
      var init, e := events[..|events| - 1], events[|events| - 1];
      RecordsOf(w, c, fees, init)
      + if Backtest(w, c, fees, init).Err? then []
        else
          RunGrows(w, c, fees, init, e);
          match Process(w, c, Backtest(w, c, fees, init).value, e)
          case Err(error) => []
          case Ok((after, record)) => if record.Some? then [record.value] else []
  }

  lemma RecordsGrow(w: World, c: Config, fees: FeeSchedule, events: seq<Event>, e: Event)
    requires fees.Valid() && IsRoot(w.root) && AllValid(events) && e.Valid()
    ensures AllValid(events + [e])
    ensures Backtest(w, c, fees, events).Err?
            ==> Backtest(w, c, fees, events + [e]) == Backtest(w, c, fees, events)
                && RecordsOf(w, c, fees, events + [e]) == RecordsOf(w, c, fees, events)
    ensures Backtest(w, c, fees, events).Ok?
            ==> && ValidConfig(w, c) && Backtest(w, c, fees, events).value.ledger.fees.Valid()
                && var step := Process(w, c, Backtest(w, c, fees, events).value, e);
                   RecordsOf(w, c, fees, events + [e])
                   == RecordsOf(w, c, fees, events)
                      + if step.Ok? && step.value.1.Some? then [step.value.1.value] else []
  {
    hide IsRoot, Process, FeeSchedule.Valid, Inv, OnSchedule, Ticks;
    assert (events + [e])[..|events|] == events;
    if Backtest(w, c, fees, events).Ok? {
      RunGrows(w, c, fees, events, e);
    } else if Initial(w, c, fees).Ok? {
      InitialInv(w, c, fees);
      InvFees(c, Initial(w, c, fees).value, 0);
    }
  }

  /** An error ends a run where it is and keeps the records made before it. */
  lemma {:induction false} ErrorEndsTheRun(w: World, c: Config, fees: FeeSchedule, events: seq<Event>, k: nat)
    requires fees.Valid() && IsRoot(w.root) && AllValid(events) && k <= |events|
    requires Backtest(w, c, fees, events[..k]).Err?
    ensures Backtest(w, c, fees, events) == Backtest(w, c, fees, events[..k])
    ensures RecordsOf(w, c, fees, events) == RecordsOf(w, c, fees, events[..k])
  {
    hide IsRoot, Backtest, RecordsOf, FeeSchedule.Valid;
    if k == |events| {
      assert events[..k] == events;
    } else {
      var init := events[..|events| - 1];
      assert init[..k] == events[..k] && init + [events[|events| - 1]] == events;
      ErrorEndsTheRun(w, c, fees, init, k);
      RecordsGrow(w, c, fees, init, events[|events| - 1]);
    }
  }

  function ScoredIds(c: Config, events: seq<Event>): seq<string> {
    if events == [] then []
    else
      ScoredIds(c, events[..|events| - 1])
      + if events[|events| - 1].Time() >= c.start then [events[|events| - 1].Id()] else []
  }

  function RecordIds(records: seq<Record>): seq<string> {
    if records == [] then [] else RecordIds(records[..|records| - 1]) + [records[|records| - 1].id]
  }

  /** Every valuation a backtest records, whether or not it goes on to fail, adds up from the
      study's own capital. */
  lemma {:induction false} EveryRecordAddsUp(w: World, c: Config, fees: FeeSchedule, events: seq<Event>)
    requires fees.Valid() && IsRoot(w.root) && AllValid(events)
    ensures forall record | record in RecordsOf(w, c, fees, events) :: record.valuation.Some?
              ==> AddsUp(record.valuation.value, c.capital) && record.cash == record.valuation.value.cash
  {
    hide IsRoot, Backtest, Process, FeeSchedule.Valid, AddsUp, Inv, OnSchedule;
    if events != [] {
      var init, e := events[..|events| - 1], events[|events| - 1];
      EveryRecordAddsUp(w, c, fees, init);
      if Backtest(w, c, fees, init).Ok? {
        RunGrows(w, c, fees, init, e);
        var s := Backtest(w, c, fees, init).value;
        if Process(w, c, s, e).Ok? {
          RecordAddsUp(w, c, s, e, |Ticks(c, init)|);
        }
      }
    }
  }

  /** An accepted run records every event of the study once, in order. */
  lemma {:induction false} RunsRecordTheirStudy(w: World, c: Config, fees: FeeSchedule, events: seq<Event>)
    requires fees.Valid() && IsRoot(w.root) && AllValid(events) && Backtest(w, c, fees, events).Ok?
    ensures RecordIds(RecordsOf(w, c, fees, events)) == ScoredIds(c, events)
  {
    hide IsRoot, Backtest, Process, FeeSchedule.Valid;
    if events != [] {
      var init, e := events[..|events| - 1], events[|events| - 1];
      InitRuns(w, c, fees, events);
      RunsRecordTheirStudy(w, c, fees, init);
      RunGrows(w, c, fees, init, e);
      assert init + [e] == events;
      ScoredEventsAreRecorded(w, c, Backtest(w, c, fees, init).value, e);
      var before := RecordsOf(w, c, fees, init);
      assert forall record: Record :: (before + [record])[..|before|] == before;
      assert before + [] == before;
    }
  }

  lemma InitRuns(w: World, c: Config, fees: FeeSchedule, events: seq<Event>)
    requires fees.Valid() && IsRoot(w.root) && AllValid(events) && Backtest(w, c, fees, events).Ok? && events != []
    ensures Backtest(w, c, fees, events[..|events| - 1]).Ok?
  {
    hide IsRoot, Inv, Process, OnSchedule, FeeSchedule.Valid, Ticks;
  }

  /** After every event of every accepted run: the legs offset each other, a position is on record
      exactly when they are open, has collected every settlement since and has not outlived its plan,
      the settlements and decisions so far are the schedule's, and the next observation is due one
      interval after the last. */
  lemma {:induction false} EveryRunKeepsTheProtocol(w: World, c: Config, fees: FeeSchedule, events: seq<Event>, k: nat)
    requires fees.Valid() && IsRoot(w.root) && AllValid(events) && k <= |events|
    requires Backtest(w, c, fees, events).Ok?
    ensures Backtest(w, c, fees, events[..k]).Ok?
    ensures var s := Backtest(w, c, fees, events[..k]).value;
            && s.ledger.spot.quantity == -s.ledger.perp.quantity && s.ledger.spot.quantity >= 0.0
            && (s.position.Some? <==> s.ledger.spot.quantity != 0.0)
            && (s.position.Some? ==>
                  var p := s.position.value;
                  && 0 <= p.held <= p.planned == c.policy.horizon
                  && s.ledger.nextFunding == p.openedAt - c.delay + (p.held + 1) * c.Interval())
            && s.nextObservation == c.warmupStart + |s.observations| * c.Interval()
            && (Ticks(c, events[..k]) != [] ==> s.nextObservation == s.ledger.nextFunding)
    ensures forall i | 0 <= i < |Ticks(c, events[..k])| :: Ticks(c, events[..k])[i] == Scheduled(c, i)
  {
    hide Inv, Backtest, IsRoot, FeeSchedule.Valid, Ticks, Scheduled, Config.Interval;
    PrefixIsAccepted(w, c, fees, events, k);
    InvMeans(c, Backtest(w, c, fees, events[..k]).value, |Ticks(c, events[..k])|);
  }

  lemma PrefixIsAccepted(w: World, c: Config, fees: FeeSchedule, events: seq<Event>, k: nat)
    requires fees.Valid() && IsRoot(w.root) && AllValid(events) && k <= |events| && Backtest(w, c, fees, events).Ok?
    ensures Backtest(w, c, fees, events[..k]).Ok?
  {
    hide Inv, RunAll, IsRoot, ValidConfig, FeeSchedule.Valid;
    var s := Initial(w, c, fees).value;
    InitialInv(w, c, fees);
    InvFees(c, s, 0);
    PrefixRuns(w, c, s, events, k);
  }

  lemma InvMeans(c: Config, s: State, n: nat)
    requires Inv(c, s, n)
    ensures s.ledger.spot.quantity == -s.ledger.perp.quantity && s.ledger.spot.quantity >= 0.0
    ensures s.position.Some? <==> s.ledger.spot.quantity != 0.0
    ensures s.position.Some? ==> 0 <= s.position.value.held <= s.position.value.planned == c.policy.horizon
    ensures s.position.Some?
            ==> s.ledger.nextFunding == s.position.value.openedAt - c.delay + (s.position.value.held + 1) * c.Interval()
    ensures s.nextObservation == c.warmupStart + |s.observations| * c.Interval()
    ensures n > 0 ==> s.nextObservation == s.ledger.nextFunding
  {
    hide Clocked;
  }

  /** The schedule's decisions lie strictly between settlements and clear of both guards. */
  lemma {:induction false} DecisionsAreClear(w: World, c: Config, j: nat)
    requires ValidConfig(w, c)
    ensures Scheduled(c, 2 * j).time + SETTLEMENT_GUARD_MS < Scheduled(c, 2 * j + 1).time
    ensures Scheduled(c, 2 * j + 1).time + SETTLEMENT_GUARD_MS < Scheduled(c, 2 * j + 2).time
    ensures Scheduled(c, 2 * j).SettlementDue? && Scheduled(c, 2 * j + 1).DecisionDue?
  {
    assert (2 * j + 2) / 2 == j + 1 && (2 * j + 1) / 2 == j && 2 * j / 2 == j;
    assert (j + 1) * c.Interval() == j * c.Interval() + c.Interval();
  }
}
