/** Market events of a run, and the fills inferred from an impact curve. */
module Execution {
  import opened Wrappers
  import opened Reals
  import opened Fees
  import opened Accounting
  import opened Carry
  import opened Costs
  import Sizing

  datatype Opportunity = Opportunity(
    foldStart: int, curve: ImpactCurve, approval: Option<Approval>, market: Sizing.SizingInputs,
    perpHalfSpread: real, spotExecution: real, financing: real) {
    /** What the constructors of its parts enforce. */
    predicate Valid() {
      curve.Valid() && market.Valid() && perpHalfSpread >= 0.0 && spotExecution >= 0.0 && financing >= 0.0
    }
  }

  datatype MarketEvent = MarketEvent(
    id: string, time: int, spotMid: real, perpMid: real, marks: Marks, opportunity: Option<Opportunity>,
    decide: bool, financing: real)

  /** Whether the model may infer a fill of this size from what is known at the event. */
  predicate Inferable(e: MarketEvent, quantity: real) {
    e.opportunity.Some?
    && var o := e.opportunity.value;
       o.market.advBase > 0.0
       && o.curve.symbol == e.marks.symbol && o.curve.admittedAt <= e.time && o.curve.evidenceEnd <= e.time
       && o.market.observedAt <= e.time < o.market.validUntil
       && o.curve.sizeMin <= quantity / o.market.advBase <= o.curve.sizeMax
       && quantity <= o.market.validatedQuantity
  }

  function PerpImpact(root: real -> real, o: Opportunity, quantity: real, opening: bool): real
    requires o.market.advBase > 0.0
  {
    var coefficient := if opening then o.curve.sellBps else o.curve.buyBps;
    Times(coefficient, root(quantity / o.market.advBase)) / 10000.0 + o.perpHalfSpread / 10000.0
  }

  function SpotImpact(o: Opportunity): real {
    o.spotExecution / 10000.0
  }

  /** Buy spot and sell perp to open, the reverse to close, each at its mid moved by its impact. */
  function InferredFills(root: real -> real, e: MarketEvent, quantity: real, opening: bool): Option<seq<Fill>> {
    if !Inferable(e, quantity) then None
    else
      var o := e.opportunity.value;
      var sign := if opening then 1.0 else -1.0;
      Some([Fill(e.id + ":spot", e.marks.symbol, e.time, Spot, Times(sign, quantity),
                 Times(e.spotMid, 1.0 + Times(sign, SpotImpact(o))), e.spotMid),
            Fill(e.id + ":perp", e.marks.symbol, e.time, Perp, Times(-sign, quantity),
                 Times(e.perpMid, 1.0 - Times(sign, PerpImpact(root, o, quantity, opening))), e.perpMid)])
  }

  lemma SignedQuantity(quantity: real)
    ensures Times(1.0, quantity) == quantity && Times(-1.0, quantity) == -quantity
  {
  }

  /** Impact always costs: opening or closing, no leg is inferred on the right side of its mid. */
  lemma {:induction false} ImpactIsACost(root: real -> real, e: MarketEvent, quantity: real, opening: bool)
    requires IsRoot(root) && InferredFills(root, e, quantity, opening).Some? && e.opportunity.value.Valid()
    requires quantity > 0.0 && e.spotMid > 0.0 && e.perpMid > 0.0
    ensures forall f | f in InferredFills(root, e, quantity, opening).value ::
              Times(f.quantity, f.price - f.referenceMid) >= 0.0
  {
    var o := e.opportunity.value;
    var sign := if opening then 1.0 else -1.0;
    var impact := PerpImpact(root, o, quantity, opening);
    QuotientSign(quantity, o.market.advBase);
    TimesSign(if opening then o.curve.sellBps else o.curve.buyBps, root(quantity / o.market.advBase));
    CostOfSide(sign, quantity, e.spotMid, SpotImpact(o));
    CostOfSide(-sign, quantity, e.perpMid, impact);
    TimesDistributes(sign, impact, impact);
    hide Times, PerpImpact, SpotImpact;
  }

  lemma CostOfSide(sign: real, quantity: real, mid: real, impact: real)
    requires (sign == 1.0 || sign == -1.0) && quantity >= 0.0 && mid >= 0.0 && impact >= 0.0
    ensures Times(Times(sign, quantity), Times(mid, 1.0 + Times(sign, impact)) - mid) >= 0.0
  {
    var cost := Times(mid, impact);
    TimesSign(mid, impact);
    TimesSign(quantity, cost);
    TimesDistributes(mid, 1.0, Times(sign, impact));
    assert Times(mid, Times(sign, impact)) == Times(sign, cost);
    assert Times(Times(sign, quantity), Times(sign, cost)) == Times(quantity, cost);
    assert Times(mid, 1.0) == mid;
  }
}
