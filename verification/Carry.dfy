/** Entry and continuation decisions of the carry strategy. */
module Carry {
  import opened Wrappers
  import opened Reals
  import opened Clock

  datatype Policy = Policy(horizon: int, entryProbability: real, continuationProbability: real, allowSynthetic: bool) {
    predicate Valid() {
      horizon >= 1 && 0.0 <= continuationProbability < entryProbability < 1.0
    }
  }

  datatype Position = Position(
    symbol: string, notional: real, openedAt: int, planned: int, held: int, intervalHours: int)

  /** A predictive sample of cumulative funding and the evidence it was made from. */
  datatype Forecast = Forecast(
    symbol: string, samples: seq<Double>, asOf: int, lastObservation: int, trainingFirst: int, horizon: int,
    intervalHours: int, trainingSettlements: int, model: string)

  datatype Approval = Approval(
    symbol: string, horizons: seq<int>, intervalHours: int, validationEnd: int, validUntil: int, approved: bool,
    model: string)

  datatype CostKind = Calibrated | Synthetic

  datatype CostEstimate = CostEstimate(
    symbol: string, notional: real, horizon: int, quotedAt: int, validUntil: int, evidenceEnd: int, kind: CostKind,
    entry: real, closeNow: real, terminalClose: real, financing: real)

  datatype Action = Enter | Wait | Hold | Exit

  datatype Reason = HorizonComplete | FundingUnavailable | InvalidForecast | CadenceChanged | FundingNotAdmitted
                  | CostsUnavailable | CostsNotAdmitted | NonpositiveEdge | ProbabilityBelowThreshold | PositiveEdge
                  | MarketEvidenceUnavailable | CapitalUnavailable | FillCapitalUnavailable
                  | SizingNotAdmitted | NoExecutableSize | NonpositiveProfit

  datatype Decision = Decision(action: Action, reason: Reason, probability: Option<real>, edge: Option<real>)

  datatype Strategy = Strategy(symbol: string, policy: Policy)

  datatype DecisionError = PositionMismatch

  // ---------------------------------------------------------------- the sample

  predicate AllFinite(samples: seq<Double>) {
    forall i | 0 <= i < |samples| :: samples[i].Num?
  }

  predicate HasSample(forecast: Option<Forecast>) {
    forecast.Some? && AllFinite(forecast.value.samples) && forecast.value.samples != []
  }

  function Sum(samples: seq<Double>): real
    requires AllFinite(samples)
  {
    if samples == [] then 0.0 else Sum(samples[..|samples| - 1]) + samples[|samples| - 1].value
  }

  function Above(samples: seq<Double>, hurdle: real): (n: nat)
    requires AllFinite(samples)
    ensures n <= |samples|
  {
    if samples == [] then 0
    else Above(samples[..|samples| - 1], hurdle) + if samples[|samples| - 1].value > hurdle then 1 else 0
  }

  function Mean(samples: seq<Double>): real
    requires AllFinite(samples) && samples != []
  {
    Sum(samples) / |samples| as real
  }

  function Probability(samples: seq<Double>, hurdle: real): real
    requires AllFinite(samples) && samples != []
  {
    Above(samples, hurdle) as real / |samples| as real
  }

  lemma {:induction false} LowerHurdleCountsMore(samples: seq<Double>, low: real, high: real)
    requires AllFinite(samples) && low <= high
    ensures Above(samples, low) >= Above(samples, high)
  {
    if samples != [] {
      LowerHurdleCountsMore(samples[..|samples| - 1], low, high);
    }
  }

  lemma LowerHurdleIsLikelier(samples: seq<Double>, low: real, high: real)
    requires AllFinite(samples) && samples != [] && low <= high
    ensures Probability(samples, low) >= Probability(samples, high)
  {
    LowerHurdleCountsMore(samples, low, high);
    QuotientGrows(Above(samples, high) as real, Above(samples, low) as real, |samples| as real);
  }

  // ---------------------------------------------------------------- the decision

  /** The forecast is for this symbol, this instant and this horizon, on recent enough evidence. */
  predicate Usable(f: Forecast, now: int, remaining: int) {
    |f.samples| >= 2 && AllFinite(f.samples)
    && f.asOf >= 0 && f.lastObservation >= 0 && f.trainingFirst >= 0 && f.horizon >= 0 && f.intervalHours >= 0
    && f.trainingSettlements >= 0
    && f.asOf == now && f.lastObservation <= now && now - f.lastObservation <= f.intervalHours * HOUR_MS + JITTER_MS
    && f.trainingFirst <= f.lastObservation && f.horizon == remaining && 1 <= f.intervalHours <= 24
    && f.trainingSettlements >= 3
  }

  predicate Covers(a: Approval, symbol: string, f: Forecast, now: int, remaining: int) {
    a.approved && a.symbol == symbol && a.model == f.model && remaining in a.horizons
    && a.intervalHours == f.intervalHours && a.validationEnd <= now < a.validUntil
  }

  predicate Quotable(c: CostEstimate, s: Strategy, now: int, remaining: int, position: Option<Position>) {
    c.symbol == s.symbol && c.horizon == remaining && c.quotedAt <= now < c.validUntil && c.evidenceEnd <= now
    && (c.kind.Synthetic? ==> s.policy.allowSynthetic)
    && (position.Some? ==> c.notional == position.value.notional)
  }

  /** What the funding must exceed: a round trip to enter, the change in closing cost to stay. */
  function Hurdle(c: CostEstimate, held: bool): real {
    if held then c.terminalClose - c.closeNow + c.financing else c.entry + c.terminalClose + c.financing
  }

  function Remaining(s: Strategy, position: Option<Position>): int {
    if position.Some? then position.value.planned - position.value.held else s.policy.horizon
  }

  function Blocked(position: Option<Position>, reason: Reason): Decision {
    Decision(if position.Some? then Exit else Wait, reason, None, None)
  }

  function Gate(s: Strategy, samples: seq<Double>, c: CostEstimate, position: Option<Position>): Decision
    requires AllFinite(samples) && samples != []
  {
    var held := position.Some?;
    var hurdle := Hurdle(c, held);
    var probability, edge := Probability(samples, hurdle), Mean(samples) - hurdle;
    var threshold := if held then s.policy.continuationProbability else s.policy.entryProbability;
    if edge <= 0.0 then Blocked(position, NonpositiveEdge).(probability := Some(probability), edge := Some(edge))
    else if probability <= threshold
    then Blocked(position, ProbabilityBelowThreshold).(probability := Some(probability), edge := Some(edge))
    else Decision(if held then Hold else Enter, PositiveEdge, Some(probability), Some(edge))
  }

  function Decide(s: Strategy, now: int, forecast: Option<Forecast>, costs: Option<CostEstimate>,
                  approval: Option<Approval>, position: Option<Position>): Result<Decision, DecisionError> {
    if position.Some? && (position.value.symbol != s.symbol || position.value.openedAt > now) then Err(PositionMismatch)
    else
      var remaining := Remaining(s, position);
      if position.Some? && remaining <= 0 then Ok(Decision(Exit, HorizonComplete, None, None))
      else if forecast.None? then Ok(Blocked(position, FundingUnavailable))
      else
        var f := forecast.value;
        if f.symbol != s.symbol then Ok(Blocked(position, InvalidForecast))
        else if position.Some? && f.intervalHours != position.value.intervalHours
        then Ok(Decision(Exit, CadenceChanged, None, None))
        else if !Usable(f, now, remaining) then Ok(Blocked(position, InvalidForecast))
        else if approval.None? || !Covers(approval.value, s.symbol, f, now, remaining)
        then Ok(Blocked(position, FundingNotAdmitted))
        else if costs.None? then Ok(Blocked(position, CostsUnavailable))
        else if !Quotable(costs.value, s, now, remaining, position) then Ok(Blocked(position, CostsNotAdmitted))
        else Ok(Gate(s, f.samples, costs.value, position))
  }

  // ---------------------------------------------------------------- what the gate guarantees

  /** Two estimates on the same evidence, whatever their sizes. */
  predicate SameEvidence(a: CostEstimate, b: CostEstimate) {
    a.symbol == b.symbol && a.horizon == b.horizon && a.quotedAt == b.quotedAt && a.validUntil == b.validUntil
    && a.evidenceEnd == b.evidenceEnd && a.kind == b.kind
  }

  /** Cheaper on the same evidence: what was worth entering still is, at no less edge or probability. */
  lemma {:induction false} CheaperStillEnters(s: Strategy, now: int, forecast: Option<Forecast>, cheap: CostEstimate,
                                              dear: CostEstimate, approval: Option<Approval>)
    requires SameEvidence(cheap, dear) && Hurdle(cheap, false) <= Hurdle(dear, false)
    requires Decide(s, now, forecast, Some(dear), approval, None).value.action == Enter
    ensures Decide(s, now, forecast, Some(cheap), approval, None).value.action == Enter
    ensures Decide(s, now, forecast, Some(cheap), approval, None).value.edge.value
         == Decide(s, now, forecast, Some(dear), approval, None).value.edge.value + Hurdle(dear, false) - Hurdle(cheap, false)
  {
    LowerHurdleIsLikelier(forecast.value.samples, Hurdle(cheap, false), Hurdle(dear, false));
    hide Mean, Probability, Hurdle, Usable, Covers;
  }

  /** The guards of a decision that acts, gathered. */
  lemma ActsExactlyWhen(s: Strategy, now: int, forecast: Option<Forecast>, costs: Option<CostEstimate>,
                        approval: Option<Approval>, position: Option<Position>)
    requires Decide(s, now, forecast, costs, approval, position).Ok?
    ensures var held, remaining := position.Some?, Remaining(s, position);
            Acts(s, now, forecast, costs, approval, position)
            <==> && (held ==> remaining > 0)
                 && forecast.Some? && forecast.value.symbol == s.symbol && Usable(forecast.value, now, remaining)
                 && (held ==> forecast.value.intervalHours == position.value.intervalHours)
                 && approval.Some? && Covers(approval.value, s.symbol, forecast.value, now, remaining)
                 && costs.Some? && Quotable(costs.value, s, now, remaining, position)
                 && Mean(forecast.value.samples) > Hurdle(costs.value, held)
                 && Probability(forecast.value.samples, Hurdle(costs.value, held))
                    > (if held then s.policy.continuationProbability else s.policy.entryProbability)
  {
    hide Mean, Probability, Hurdle, Covers, Quotable;
  }

  /** The decision is to be in the position: to enter, or to stay. */
  predicate Acts(s: Strategy, now: int, forecast: Option<Forecast>, costs: Option<CostEstimate>,
                 approval: Option<Approval>, position: Option<Position>) {
    var decided := Decide(s, now, forecast, costs, approval, position);
    decided.Ok? && decided.value.action == if position.Some? then Hold else Enter
  }

  lemma DecidesUnlessMismatched(s: Strategy, now: int, forecast: Option<Forecast>, costs: Option<CostEstimate>,
                                approval: Option<Approval>, position: Option<Position>)
    ensures Decide(s, now, forecast, costs, approval, position).Ok?
       <==> (position.Some? ==> position.value.symbol == s.symbol && position.value.openedAt <= now)
    ensures Acts(s, now, forecast, costs, approval, position) ==> Decide(s, now, forecast, costs, approval, position).Ok?
  {
    hide Mean, Probability, Hurdle, Covers, Quotable, Usable;
  }

  lemma ActingEdge(s: Strategy, now: int, forecast: Option<Forecast>, costs: Option<CostEstimate>,
                   approval: Option<Approval>, position: Option<Position>)
    requires Acts(s, now, forecast, costs, approval, position)
    ensures HasSample(forecast) && costs.Some?
    ensures var decision := Decide(s, now, forecast, costs, approval, position).value;
            var hurdle := Hurdle(costs.value, position.Some?);
            && decision.edge == Some(Mean(forecast.value.samples) - hurdle)
            && decision.probability == Some(Probability(forecast.value.samples, hurdle))
  {
    hide Mean, Probability, Hurdle, Covers, Quotable;
  }

  /** How many draws exceed the hurdle, over how many there are. */
  lemma {:induction false} ProbabilityIsTheShare(samples: seq<Double>, hurdle: real)
    requires AllFinite(samples) && samples != []
    ensures Probability(samples, hurdle)
         == |set i | 0 <= i < |samples| && samples[i].value > hurdle| as real / |samples| as real
  {
    AboveIsTheCount(samples, hurdle);
  }

  lemma {:induction false} AboveIsTheCount(samples: seq<Double>, hurdle: real)
    requires AllFinite(samples)
    ensures Above(samples, hurdle) == |set i | 0 <= i < |samples| && samples[i].value > hurdle|
  {
    if samples != [] {
      var n := |samples| - 1;
      AboveIsTheCount(samples[..n], hurdle);
      var before := set i | 0 <= i < n && samples[..n][i].value > hurdle;
      var after := set i | 0 <= i < n + 1 && samples[i].value > hurdle;
      assert after == if samples[n].value > hurdle then before + {n} else before;
    }
  }

  /** The decision, exactly. It stands for a flat account or for a position of this symbol already
      open. A held position is kept, or a flat account enters, precisely on a forecast of this
      symbol, this instant and the settlements left, from recent enough evidence, approved for it,
      with a quote that is current and allowed, if the mean draw exceeds the hurdle and a large
      enough share of the draws does. Anything else closes a held position and leaves a flat
      account waiting: nothing else is ever answered. */
  lemma {:induction false} DecisionIsExact(s: Strategy, now: int, forecast: Option<Forecast>, costs: Option<CostEstimate>,
                                           approval: Option<Approval>, position: Option<Position>)
    ensures var decided, held := Decide(s, now, forecast, costs, approval, position), position.Some?;
            var left := if held then position.value.planned - position.value.held else s.policy.horizon;
            && (decided.Ok? <==> (held ==> position.value.symbol == s.symbol && position.value.openedAt <= now))
            && (decided.Ok? ==>
                  var worth := && (held ==> left > 0)
                               && forecast.Some? && costs.Some? && approval.Some?
                               && var (f, c, a) := (forecast.value, costs.value, approval.value);
                                  && f.symbol == s.symbol && |f.samples| >= 2
                                  && (forall i | 0 <= i < |f.samples| :: f.samples[i].Num?)
                                  && 0 <= f.trainingFirst <= f.lastObservation <= f.asOf == now
                                  && now <= f.lastObservation + f.intervalHours * HOUR_MS + JITTER_MS
                                  && 0 <= f.horizon == left && f.trainingSettlements >= 3 && 1 <= f.intervalHours <= 24
                                  && (held ==> f.intervalHours == position.value.intervalHours)
                                  && a.approved && a.symbol == s.symbol && a.model == f.model && left in a.horizons
                                  && a.intervalHours == f.intervalHours && a.validationEnd <= now < a.validUntil
                                  && c.symbol == s.symbol && c.horizon == left && c.quotedAt <= now < c.validUntil
                                  && c.evidenceEnd <= now && (c.kind.Synthetic? ==> s.policy.allowSynthetic)
                                  && (held ==> c.notional == position.value.notional)
                                  && var hurdle := c.financing + c.terminalClose + if held then -c.closeNow else c.entry;
                                     var least := if held then s.policy.continuationProbability else s.policy.entryProbability;
                                     Mean(f.samples) > hurdle && Probability(f.samples, hurdle) > least;
                  decided.value.action
                  == if held then (if worth then Hold else Exit) else (if worth then Enter else Wait))
  {
    hide Mean, Probability;
  }

  /** What the reasons say: each is given for its own failure, and the estimate is reported exactly
      when it was reached. */
  lemma {:induction false} ReasonsAreTheirs(s: Strategy, now: int, forecast: Option<Forecast>,
                                            costs: Option<CostEstimate>, approval: Option<Approval>,
                                            position: Option<Position>)
    requires Decide(s, now, forecast, costs, approval, position).Ok?
    ensures var d, held := Decide(s, now, forecast, costs, approval, position).value, position.Some?;
            var over := held && position.value.planned <= position.value.held;
            && (d.reason == HorizonComplete <==> over)
            && (d.reason == FundingUnavailable <==> !over && forecast.None?)
            && (d.reason == CadenceChanged
                <==> && !over && held && forecast.Some? && forecast.value.symbol == s.symbol
                     && forecast.value.intervalHours != position.value.intervalHours)
            && (d.reason in {InvalidForecast, FundingNotAdmitted, CostsUnavailable, CostsNotAdmitted} ==>
                  && !over && forecast.Some?
                  && var (f, left) := (forecast.value, Remaining(s, position));
                     var usable := f.symbol == s.symbol && Usable(f, now, left);
                     var covered := usable && approval.Some? && Covers(approval.value, s.symbol, f, now, left);
                     && (d.reason == InvalidForecast <==> !usable)
                     && (d.reason == FundingNotAdmitted <==> usable && !covered)
                     && (d.reason == CostsUnavailable <==> covered && costs.None?)
                     && (d.reason == CostsNotAdmitted
                         <==> covered && costs.Some? && !Quotable(costs.value, s, now, left, position)))
            && (d.edge.Some? <==> d.reason in {NonpositiveEdge, ProbabilityBelowThreshold, PositiveEdge})
            && (d.probability.Some? <==> d.edge.Some?)
            && (d.edge.Some? ==> && (d.reason == NonpositiveEdge <==> d.edge.value <= 0.0)
                                 && (d.reason == PositiveEdge <==> d.action in {Enter, Hold}))
  {
    hide Mean, Probability, Hurdle, Usable, Covers, Quotable;
  }

  // ---------------------------------------------------------------- better evidence

  /** The same forecast with no draw lower. */
  predicate NoWorseForecast(better: Forecast, worse: Forecast) {
    && better == worse.(samples := better.samples) && AllFinite(better.samples) && AllFinite(worse.samples)
    && |better.samples| == |worse.samples|
    && forall i | 0 <= i < |worse.samples| :: better.samples[i].value >= worse.samples[i].value
  }

  /** The same scope, known no later, quoted for no less time, at no higher hurdle. */
  predicate NoWorseQuote(better: CostEstimate, worse: CostEstimate, held: bool) {
    && better.symbol == worse.symbol && better.notional == worse.notional && better.horizon == worse.horizon
    && better.quotedAt <= worse.quotedAt && worse.validUntil <= better.validUntil
    && better.evidenceEnd <= worse.evidenceEnd && (better.kind.Synthetic? ==> worse.kind.Synthetic?)
    && Hurdle(better, held) <= Hurdle(worse, held)
  }

  /** An approval of at least the same horizons over at least the same time. */
  predicate NoWorseApproval(better: Approval, worse: Approval) {
    && better.symbol == worse.symbol && better.model == worse.model && better.intervalHours == worse.intervalHours
    && (worse.approved ==> better.approved) && (forall h | h in worse.horizons :: h in better.horizons)
    && better.validationEnd <= worse.validationEnd && worse.validUntil <= better.validUntil
  }

  /** Thresholds no higher and no kind of cost newly forbidden. */
  predicate NoStricter(looser: Policy, tighter: Policy) {
    && looser.horizon == tighter.horizon && looser.entryProbability <= tighter.entryProbability
    && looser.continuationProbability <= tighter.continuationProbability
    && (tighter.allowSynthetic ==> looser.allowSynthetic)
  }

  lemma {:induction false} HigherDrawsCountMore(better: seq<Double>, worse: seq<Double>, hurdle: real)
    requires AllFinite(better) && AllFinite(worse) && |better| == |worse|
    requires forall i | 0 <= i < |worse| :: better[i].value >= worse[i].value
    ensures Sum(better) >= Sum(worse) && Above(better, hurdle) >= Above(worse, hurdle)
  {
    if worse != [] {
      var n := |worse| - 1;
      HigherDrawsCountMore(better[..n], worse[..n], hurdle);
    }
  }

  lemma HigherDrawsAreLikelier(better: seq<Double>, worse: seq<Double>, low: real, high: real)
    requires AllFinite(better) && AllFinite(worse) && |better| == |worse| > 0 && low <= high
    requires forall i | 0 <= i < |worse| :: better[i].value >= worse[i].value
    ensures Mean(better) >= Mean(worse) && Probability(better, low) >= Probability(worse, high)
  {
    hide Sum, Above;
    HigherDrawsCountMore(better, worse, high);
    QuotientGrows(Sum(worse), Sum(better), |worse| as real);
    QuotientGrows(Above(worse, high) as real, Above(better, high) as real, |worse| as real);
    LowerHurdleIsLikelier(better, low, high);
  }

  /** Nothing that speaks for a position can turn it down: a decision to enter or to stay survives
      higher draws, a lower hurdle, a wider approval, a longer quote and a looser policy, and its
      edge and probability do not fall. */
  lemma {:induction false} BetterStillActs(s: Strategy, looser: Policy, now: int, f: Forecast, better: Forecast,
                                           c: CostEstimate, cheaper: CostEstimate, a: Approval, wider: Approval,
                                           position: Option<Position>)
    requires NoStricter(looser, s.policy) && NoWorseForecast(better, f) && NoWorseApproval(wider, a)
    requires NoWorseQuote(cheaper, c, position.Some?)
    requires Acts(s, now, Some(f), Some(c), Some(a), position)
    ensures var t := s.(policy := looser);
            && Acts(t, now, Some(better), Some(cheaper), Some(wider), position)
            && var before := Decide(s, now, Some(f), Some(c), Some(a), position).value;
               var after := Decide(t, now, Some(better), Some(cheaper), Some(wider), position).value;
               after.edge.value >= before.edge.value && after.probability.value >= before.probability.value
  {
    hide Mean, Probability, Hurdle, Decide, Acts, AllFinite;
    var t, held := s.(policy := looser), position.Some?;
    DecidesUnlessMismatched(s, now, Some(f), Some(c), Some(a), position);
    DecidesUnlessMismatched(t, now, Some(better), Some(cheaper), Some(wider), position);
    ActsExactlyWhen(s, now, Some(f), Some(c), Some(a), position);
    ActingEdge(s, now, Some(f), Some(c), Some(a), position);
    HigherDrawsAreLikelier(better.samples, f.samples, Hurdle(cheaper, held), Hurdle(c, held));
    ActsExactlyWhen(t, now, Some(better), Some(cheaper), Some(wider), position);
    ActingEdge(t, now, Some(better), Some(cheaper), Some(wider), position);
  }

  /** Entering or holding always means a positive expected gain over the hurdle, at a probability
      above the policy's threshold. */
  lemma {:induction false} ActingIsProfitable(s: Strategy, now: int, forecast: Option<Forecast>,
                                              costs: Option<CostEstimate>, approval: Option<Approval>,
                                              position: Option<Position>)
    requires Decide(s, now, forecast, costs, approval, position).Ok?
    requires Decide(s, now, forecast, costs, approval, position).value.action in {Enter, Hold}
    ensures HasSample(forecast) && costs.Some? && approval.Some?
    ensures var hurdle := Hurdle(costs.value, position.Some?);
            && Mean(forecast.value.samples) > hurdle
            && Probability(forecast.value.samples, hurdle)
               > (if position.Some? then s.policy.continuationProbability else s.policy.entryProbability)
    ensures position.Some? ==> position.value.held < position.value.planned
    ensures Decide(s, now, forecast, costs, approval, position).value.action == Enter <==> position.None?
  {
    hide Mean, Probability, Hurdle;
  }
}
