/** A run in which sizing approves an entry, carried through for every name its one settlement can
    have: two of them lose the entry. */
module LostEntry {
  import opened Wrappers
  import opened Reals
  import opened Clock
  import opened Fees
  import opened Accounting
  import opened Carry
  import opened Costs
  import opened Sizing
  import opened Execution
  import opened WalkForward
  import opened Protocol
  import opened Affordability
  import opened Calendar
  import opened RollingFunding

  const BTC := "BTCUSDT"
  const DIGEST := "0123456789abcdef0123456789abcdef0123456789abcdef0123456789abcdef"

  /** February 1970, after two warm-up days. */
  const WARMUP := 29 * DAY_MS
  const START := 31 * DAY_MS
  const END := 59 * DAY_MS
  const ENTRY_TIME := START + 60_000

  const CURVE := ImpactCurve(BTC, 0, 0, DIGEST, Calibrated, 1.0, 1.0, 0.01, 0.01)
  const APPROVAL := Approval(BTC, [1], 24, 0, END, true, DIGEST)
  const MARKET := SizingInputs(BTC, 0, END, 100.0, 100.0, START, 1.0, 0.0, 0.0, 1000.0, 1.0, 10.0, 0, END)
  const EVIDENCE := Opportunity(START, CURVE, Some(APPROVAL), MARKET, 0.0, 0.0, 0.0)

  const SPOT_FEE := FeePeriod(BTC, Spot, 0, END, 0.001, 0, Verified)
  const PERP_FEE := FeePeriod(BTC, Perp, 0, END, 0.001, 0, Verified)
  const FEES := FeeSchedule([SPOT_FEE, PERP_FEE], false)
  const CONFIG := Config(BTC, WARMUP, START, END, 1000.0, 0.5, Policy(1, 0.5, 0.25, false), true, 30, 3, 24, 60_000)
  const ENTRY := MarketEvent("a", ENTRY_TIME, 100.0, 100.0, Marks(BTC, ENTRY_TIME, 100.0, 100.0), Some(EVIDENCE), true, 0.0)

  /** What a round trip of one lot costs: 10 bps of fee on each leg, opening and closing, and the
      impact of a hundredth of the daily volume. */
  const HURDLE := 0.00402

  /** Draws worth entering on. */
  predicate Promising(draws: seq<Double>) {
    |draws| >= 2 && AllFinite(draws) && Mean(draws) > HURDLE && Probability(draws, HURDLE) > 0.5
  }

  /** A forecast with the given draws, under the model's own conditions on the history. */
  function Forecaster(draws: seq<Double>, history: seq<Observation>, left: int, time: int): Option<Forecast> {
    match SelectionOf(history, Some(time), CONFIG.rollingDays, CONFIG.minSettlements)
    case Err(_) => None
    case Ok((decision, rows)) =>
      if rows == [] then None
      else
        var last := rows[|rows| - 1];
        Some(Forecast(BTC, draws, decision, last.time, rows[0].time, left, last.hours, |rows|, DIGEST))
  }

  /** Folds of a UTC month, that forecaster, and inferred execution. */
  function Setting(root: real -> real, draws: seq<Double>): World {
    World(MonthStart, root, (history, left, time) => Forecaster(draws, history, left, time),
          (e, quantity, opening) => InferredFills(root, e, quantity, opening))
  }

  /** Two observations before the study and the settlement that opens it. */
  function Stream(id: string): seq<Event> {
    [OfFunding(FundingEvent("warmup 1", WARMUP, 0.010, 24, None)),
     OfFunding(FundingEvent("warmup 2", WARMUP + DAY_MS, 0.011, 24, None)),
     OfFunding(Settlement(id))]
  }

  function Settlement(id: string): FundingEvent {
    FundingEvent(id, START, 0.012, 24, Some(100.0))
  }

  const OPENING := Ledger(BTC, 1000.0, START, FEES, 1000.0, 0, FLAT, FLAT, 0.0, 0.0, 0.0, 0.0, None, {})
  const SEEN := [Attempt(WARMUP, Num(0.010), 24), Attempt(WARMUP + DAY_MS, Num(0.011), 24), Attempt(START, Num(0.012), 24)]
  const OBSERVED := [Observation(WARMUP, 0.010, 24), Observation(WARMUP + DAY_MS, 0.011, 24), Observation(START, 0.012, 24)]

  const BEFORE := State(OPENING, None, WARMUP, WARMUP, {}, map[], ENTRY_TIME, [])
  const WARMER := State(OPENING, None, WARMUP, WARMUP + DAY_MS, {"warmup 1"}, map[], ENTRY_TIME, SEEN[..1])
  const WARM := State(OPENING, None, WARMUP + DAY_MS, START, {"warmup 1", "warmup 2"}, map[], ENTRY_TIME, SEEN[..2])

  function Opened(id: string): State {
    State(OPENING.(nextFunding := START + DAY_MS, lastFunding := Some(START), time := START, ids := {id}), None, START,
          START + DAY_MS, {"warmup 1", "warmup 2", id}, map[], ENTRY_TIME, SEEN)
  }

  // ---------------------------------------------------------------- the calendar and the history

  lemma MonthStarts()
    ensures MonthStart(START) == START && MonthStart(END) == END && MonthStart(ENTRY_TIME) == START
  {
    assert ENTRY_TIME / DAY_MS == 31;
    assert MonthFrom(31, 31, 1970, 2) == 31 && MonthFrom(59, 59, 1970, 3) == 59;
    assert MonthFrom(59, 31, 1970, 2) == MonthFrom(59, 59, 1970, 3);
  }

  lemma SeenAreAccepted()
    ensures Accepted(SEEN[..0]) == [] && Accepted(SEEN[..1]) == OBSERVED[..1] && Accepted(SEEN[..2]) == OBSERVED[..2]
    ensures Accepted(SEEN) == OBSERVED
    ensures forall k | 0 <= k < 3 :: Refusal(OBSERVED[..k], SEEN[k]).None?
  {
    hide Accepted;
    var none: seq<Attempt> := [];
    AcceptedOfNone();
    assert SEEN[..0] == none && SEEN[..1] == SEEN[..0] + [SEEN[0]] && SEEN[..2] == SEEN[..1] + [SEEN[1]];
    assert SEEN == SEEN[..2] + [SEEN[2]];
    AcceptedGrows(SEEN[..0], SEEN[0]);
    AcceptedGrows(SEEN[..1], SEEN[1]);
    AcceptedGrows(SEEN[..2], SEEN[2]);
    assert OBSERVED[..1] == [OBSERVED[0]] && OBSERVED[..2] == OBSERVED[..1] + [OBSERVED[1]];
    assert OBSERVED == OBSERVED[..2] + [OBSERVED[2]];
  }

  lemma AcceptedOfNone()
    ensures Accepted([]) == []
  {
  }

  lemma ForecastIsMade(draws: seq<Double>)
    ensures Forecaster(draws, OBSERVED, 1, ENTRY_TIME) == Some(ForecastOf(draws))
  {
    hide WindowStart;
    var cutoff := ENTRY_TIME - CONFIG.rollingDays * DAY_MS;
    assert WindowStart(OBSERVED, 3, cutoff, 24) == 0;
    assert OBSERVED[0..] == OBSERVED;
  }

  function ForecastOf(draws: seq<Double>): Forecast {
    Forecast(BTC, draws, ENTRY_TIME, START, WARMUP, 1, 24, 3, DIGEST)
  }

  // ---------------------------------------------------------------- the stream

  lemma SettingIsValid(root: real -> real, draws: seq<Double>)
    requires IsRoot(root)
    ensures ValidConfig(Setting(root, draws), CONFIG) && FEES.Valid() && Infers(Setting(root, draws))
    ensures OfMarket(ENTRY).Valid() && Initial(Setting(root, draws), CONFIG, FEES) == Ok(BEFORE)
  {
    hide IsRoot, MonthStart;
    MonthStarts();
  }

  lemma WarmupIsProcessed(root: real -> real, draws: seq<Double>)
    requires IsRoot(root)
    ensures var w, first, second := Setting(root, draws), Stream("")[0].funding, Stream("")[1].funding;
            && ProcessFunding(w, CONFIG, BEFORE.(ids := {"warmup 1"}), first) == Ok((WARMER, None))
            && ProcessFunding(w, CONFIG, WARMER.(lastTime := WARMUP + DAY_MS, ids := {"warmup 1", "warmup 2"}), second)
               == Ok((WARM, None))
  {
    hide IsRoot, Accepted, Refusal, Pay, Recorded;
    SeenAreAccepted();
    assert SEEN[..1] == SEEN[..0] + [SEEN[0]] && SEEN[..2] == SEEN[..1] + [SEEN[1]] && SEEN[..0] == [];
  }

  lemma WarmupIsAccepted(root: real -> real, draws: seq<Double>)
    requires IsRoot(root)
    ensures ValidConfig(Setting(root, draws), CONFIG) && FEES.Valid()
    ensures Process(Setting(root, draws), CONFIG, BEFORE, Stream("")[0]) == Ok((WARMER, None))
    ensures Process(Setting(root, draws), CONFIG, WARMER, Stream("")[1]) == Ok((WARM, None))
  {
    hide IsRoot, ProcessFunding;
    SettingIsValid(root, draws);
    hide ValidConfig, FeeSchedule.Valid;
    WarmupIsProcessed(root, draws);
    assert BEFORE.ids + {"warmup 1"} == {"warmup 1"};
    assert WARMER.ids + {"warmup 2"} == {"warmup 1", "warmup 2"};
  }

  function Arrived(id: string): State {
    WARM.(lastTime := START, ids := {"warmup 1", "warmup 2", id})
  }

  lemma SettlementIsPaid(id: string)
    requires id != ""
    ensures Pay(CONFIG, Arrived(id), Settlement(id)) == Ok(Arrived(id).(ledger := Opened(id).ledger))
  {
    hide Times;
    FlatPaysNothing();
    var settled := Settle(OPENING, FundingSettlement(id, BTC, START, 24, 0.012, 100.0)).value;
    assert settled.ids == {id} && settled.cash == 1000.0 && settled.nextFunding == START + DAY_MS;
    assert Reserved(settled, 100.0, 0.5);
  }

  lemma FlatPaysNothing()
    ensures Times(Times(-FLAT.quantity, 100.0), 0.012) == 0.0 && FLAT.Unrealized(100.0) == 0.0
    ensures Times(Times(Magnitude(FLAT.quantity), 100.0), 0.5) == 0.0
  {
  }

  lemma SettlementIsProcessed(root: real -> real, draws: seq<Double>, id: string)
    requires id != ""
    ensures ProcessFunding(Setting(root, draws), CONFIG, Arrived(id), Settlement(id)).Ok?
    ensures ProcessFunding(Setting(root, draws), CONFIG, Arrived(id), Settlement(id)).value.0 == Opened(id)
  {
    hide Accepted, Refusal, Pay, Recorded, MonthStart;
    SettlementIsPaid(id);
    SeenAreAccepted();
    assert SEEN[..2] + [SEEN[2]] == SEEN;
  }

  lemma SettlementIsAccepted(root: real -> real, draws: seq<Double>, id: string)
    requires IsRoot(root) && id !in {"", "warmup 1", "warmup 2"}
    ensures ValidConfig(Setting(root, draws), CONFIG) && FEES.Valid()
    ensures Process(Setting(root, draws), CONFIG, WARM, Stream(id)[2]).Ok?
    ensures Process(Setting(root, draws), CONFIG, WARM, Stream(id)[2]).value.0 == Opened(id)
  {
    hide IsRoot, ProcessFunding;
    SettingIsValid(root, draws);
    hide ValidConfig, FeeSchedule.Valid;
    SettlementIsProcessed(root, draws, id);
    assert WARM.ids + {id} == {"warmup 1", "warmup 2", id};
  }

  lemma StreamIsAccepted(root: real -> real, draws: seq<Double>, id: string)
    requires IsRoot(root) && id !in {"", "warmup 1", "warmup 2"}
    ensures FEES.Valid() && AllValid(Stream(id))
    ensures Backtest(Setting(root, draws), CONFIG, FEES, Stream(id)) == Ok(Opened(id))
  {
    hide IsRoot, Process, Backtest, ValidConfig, FeeSchedule.Valid;
    var w, events := Setting(root, draws), Stream(id);
    var none: seq<Event> := [];
    SettingIsValid(root, draws);
    WarmupIsAccepted(root, draws);
    SettlementIsAccepted(root, draws, id);
    NothingRun(w);
    RunGrows(w, CONFIG, FEES, none, events[0]);
    assert none + [events[0]] == events[..1] && events[..1] + [events[1]] == events[..2] && events[..2] + [events[2]] == events;
    RunGrows(w, CONFIG, FEES, events[..1], events[1]);
    RunGrows(w, CONFIG, FEES, events[..2], events[2]);
  }

  lemma NothingRun(w: World)
    requires FEES.Valid() && IsRoot(w.root) && Initial(w, CONFIG, FEES) == Ok(BEFORE)
    ensures Backtest(w, CONFIG, FEES, []) == Ok(BEFORE)
  {
    hide IsRoot, FeeSchedule.Valid, Inv;
  }

  // ---------------------------------------------------------------- the decision

  function Deciding(id: string): State {
    Opened(id).(lastTime := ENTRY_TIME, ids := Opened(id).ids + {"a"})
  }

  function MarkedState(id: string): State {
    Deciding(id).(ledger := Opened(id).ledger.(time := ENTRY_TIME, ids := {id, "a:finance"}))
  }

  lemma EntryIsMarked(id: string)
    requires id != "a:finance"
    ensures Marked(CONFIG, Deciding(id), ENTRY) == Ok(MarkedState(id)) && MarketRefusal(CONFIG, Deciding(id), ENTRY).None?
  {
    FlatIsCovered();
    hide Times;
    assert "a" + ":finance" == "a:finance" && {id} + {"a:finance"} == {id, "a:finance"};
    assert Finance(Opened(id).ledger, "a:finance", ENTRY_TIME, 0.0) == Ok(MarkedState(id).ledger);
    assert Reserved(MarkedState(id).ledger, 100.0, 0.5);
  }

  lemma FlatIsCovered()
    ensures FLAT.Unrealized(100.0) == 0.0 && Times(Times(Magnitude(FLAT.quantity), 100.0), 0.5) == 0.0
    ensures Times(FLAT.quantity, 100.0) == 0.0
  {
  }

  lemma EvidenceIsAdmitted(root: real -> real, draws: seq<Double>, id: string)
    ensures Admit(Setting(root, draws), CONFIG, MarkedState(id), ENTRY)
         == Ok((MarkedState(id).(foldCurves := map[START := DIGEST]), Some(EVIDENCE)))
  {
    var none: map<int, string> := map[];
    assert none[START := DIGEST] == map[START := DIGEST];
  }

  lemma RootOfSupport(root: real -> real)
    requires IsRoot(root)
    ensures root(0.01) == 0.1 && Times(1.0, root(0.01)) == 0.1
  {
    assert Times(0.1, 0.1) == 0.01;
    RootOfSquare(root, 0.1);
  }

  lemma FeesAreQuoted()
    ensures Quote(FEES, BTC, Spot, ENTRY_TIME) == Some(0.001) && Quote(FEES, BTC, Perp, ENTRY_TIME) == Some(0.001)
  {
    assert FEES.periods[1..] == [PERP_FEE] && QuoteFrom([PERP_FEE], false, BTC, Perp, ENTRY_TIME) == Some(0.001);
  }

  lemma CapCoversALot(root: real -> real, draws: seq<Double>)
    requires IsRoot(root)
    ensures 0.0 < PerUnit(Setting(root, draws), CONFIG, ENTRY, EVIDENCE, 0.001, 0.001) <= 1000.0
    ensures Cap(1000.0, PerUnit(Setting(root, draws), CONFIG, ENTRY, EVIDENCE, 0.001, 0.001), 100.0) >= 100.0
  {
    RootOfSupport(root);
    hide IsRoot;
    var perUnit := PerUnit(Setting(root, draws), CONFIG, ENTRY, EVIDENCE, 0.001, 0.001);
    QuotientGrows(perUnit, 1000.0, perUnit);
    TimesGrows(100.0, 1.0, 1000.0 / perUnit);
    TimesCommutes(100.0, 1000.0 / perUnit);
  }

  function Charged(): Charges {
    ChargesFor(EVIDENCE, ENTRY, 0.001, 0.001)
  }

  lemma ChargesAreTen()
    ensures Charged() == Charges(0.0, 0.0, 10.0, 10.0, 10.0, 10.0, 0.0)
  {
  }

  /** One lot passes every limit and the gate. */
  lemma OneLotEnters(root: real -> real, draws: seq<Double>, cap: real)
    requires IsRoot(root) && cap >= 100.0 && Promising(draws)
    ensures var a := AskFor(CONFIG, ENTRY, EVIDENCE, Some(ForecastOf(draws)), cap, Charged());
            a.Valid() && Admissible(a) && InLimits(a, 1) && Enters(root, a, 1)
  {
    RootOfSupport(root);
    ChargesAreTen();
    hide IsRoot;
    var a := AskFor(CONFIG, ENTRY, EVIDENCE, Some(ForecastOf(draws)), cap, Charged());
    assert Quantity(a, 1) == 1.0;
    assert InLimits(a, 1);
    assert Notional(a, 1) == 100.0 && Fraction(a, 1) == 0.01;
    hide InLimits, Quantity, Notional, Fraction, Times;
    assert Estimate(root, a, 1).Ok?;
    assert Hurdle(Estimate(root, a, 1).value, false) == HURDLE;
    hide FromCurve, Hurdle, Mean, Probability;
  }

  function AdmittedState(id: string): State {
    MarkedState(id).(foldCurves := map[START := DIGEST])
  }

  lemma EntryIsProper(root: real -> real, draws: seq<Double>, id: string)
    requires IsRoot(root)
    ensures Proper(Setting(root, draws), CONFIG, AdmittedState(id), ENTRY) && EVIDENCE.Valid()
  {
    hide IsRoot;
    SettingIsValid(root, draws);
    hide ValidConfig, FeeSchedule.Valid;
  }

  lemma EntryIsSized(root: real -> real, draws: seq<Double>, id: string)
    requires IsRoot(root) && Promising(draws)
    ensures Proper(Setting(root, draws), CONFIG, AdmittedState(id), ENTRY) && EVIDENCE.Valid()
    ensures var r := SizeEntry(Setting(root, draws), CONFIG, AdmittedState(id), ENTRY, EVIDENCE, Some(ForecastOf(draws)));
            r.Ok? && r.value.Some? && r.value.value.decision.action == Enter
  {
    hide IsRoot, PerUnit, Quote, Proper, Cap, SizingOf, Admissible, InLimits, Enters, Ask.Valid;
    EntryIsProper(root, draws, id);
    FeesAreQuoted();
    CapCoversALot(root, draws);
    var cap := Cap(1000.0, PerUnit(Setting(root, draws), CONFIG, ENTRY, EVIDENCE, 0.001, 0.001), 100.0);
    var a := AskFor(CONFIG, ENTRY, EVIDENCE, Some(ForecastOf(draws)), cap, Charged());
    OneLotEnters(root, draws, cap);
    SizingIsOptimal(root, a);
  }

  lemma EntryIsApproved(root: real -> real, draws: seq<Double>, id: string)
    requires IsRoot(root) && Promising(draws) && id != "a:finance"
    ensures Approved(Setting(root, draws), CONFIG, Deciding(id), ENTRY, EVIDENCE)
  {
    hide IsRoot, Admit, Marked, MarketRefusal, SizeEntry, Proper, ValidConfig, FeeSchedule.Valid, Accepted, Forecaster;
    SettingIsValid(root, draws);
    EntryIsMarked(id);
    SeenAreAccepted();
    ForecastIsMade(draws);
    EvidenceIsAdmitted(root, draws, id);
    EntryIsSized(root, draws, id);
  }

  /** The stream is accepted and its entry approved under every usable name of the settlement; the
      entry is executed unless that name is one of its fills'. */
  lemma {:induction false} TwoNamesLoseTheEntry(root: real -> real, draws: seq<Double>, id: string)
    requires IsRoot(root) && Promising(draws) && id !in {"", "warmup 1", "warmup 2", "a", "a:finance"}
    ensures FEES.Valid() && AllValid(Stream(id)) && Infers(Setting(root, draws)) && OfMarket(ENTRY).Valid()
    ensures Backtest(Setting(root, draws), CONFIG, FEES, Stream(id)) == Ok(Opened(id))
    ensures Approved(Setting(root, draws), CONFIG, Deciding(id), ENTRY, EVIDENCE)
    ensures Process(Setting(root, draws), CONFIG, Opened(id), OfMarket(ENTRY)).Ok? <==> id !in {"a:spot", "a:perp"}
  {
    hide IsRoot, Infers, Approved, Process, Backtest, Inv, FeeSchedule.Valid, SizedQuantity, PerpImpact, ValidConfig,
        WorstImpact;
    SettingIsValid(root, draws);
    StreamIsAccepted(root, draws, id);
    EntryIsApproved(root, draws, id);
    EveryApprovedEntryIsExecuted(Setting(root, draws), CONFIG, FEES, Stream(id), ENTRY, EVIDENCE);
    OneSettlement(id);
    var n := |Ticks(CONFIG, Stream(id))|;
    InvForDeciding(id, n);
    SizedImpactIsBounded(Setting(root, draws), CONFIG, Deciding(id), ENTRY, EVIDENCE, n);
    WorstIsSmall(root, draws);
    assert "a" + ":spot" == "a:spot" && "a" + ":perp" == "a:perp";
  }

  lemma InvForDeciding(id: string, n: nat)
    requires Inv(CONFIG, Opened(id), n)
    ensures Inv(CONFIG, Deciding(id), n)
  {
    hide Hedged;
  }

  lemma WorstIsSmall(root: real -> real, draws: seq<Double>)
    requires IsRoot(root)
    ensures WorstImpact(Setting(root, draws), EVIDENCE) < 1.0
  {
    RootOfSupport(root);
    hide IsRoot;
  }

  lemma OneSettlement(id: string)
    ensures SettledIds(CONFIG, Stream(id)) == {id}
  {
    var events := Stream(id);
    assert events[..2][..1] == events[..1] && events[..1][..0] == [];
    assert SettledIds(CONFIG, events[..1]) == {} && SettledIds(CONFIG, events[..2]) == {};
  }
}
