/** Dated taker fees, quoted for a market and a time or not at all. */
module Fees {
  import opened Wrappers

  datatype Market = Spot | Perp

  datatype FeeKind = Verified | Assumption

  datatype FeePeriod = FeePeriod(
    symbol: string, market: Market, start: int, end: int, taker: real, observedAt: int, kind: FeeKind)

  datatype FeeSchedule = FeeSchedule(periods: seq<FeePeriod>, allowAssumptions: bool) {
    /** The rules the source's constructors enforce on rates. */
    ghost predicate Valid() {
      forall i | 0 <= i < |periods| :: 0.0 <= periods[i].taker < 1.0
    }
  }

  function Quote(fees: FeeSchedule, symbol: string, market: Market, time: int): Option<real> {
    QuoteFrom(fees.periods, fees.allowAssumptions, symbol, market, time)
  }

  /** The first period covering the time decides, even if only to refuse. */
  function QuoteFrom(periods: seq<FeePeriod>, allowed: bool, symbol: string, market: Market, time: int): Option<real> {
    if periods == [] then None
    else
      var p := periods[0];
      if p.symbol == symbol && p.market == market && p.start <= time < p.end then
        if (p.kind.Assumption? && !allowed) || (p.kind.Verified? && p.observedAt > time) then None
        else Some(p.taker)
      else QuoteFrom(periods[1..], allowed, symbol, market, time)
  }

  lemma {:induction false} QuoteIsFraction(periods: seq<FeePeriod>, allowed: bool, symbol: string, market: Market,
                                           time: int)
    requires FeeSchedule(periods, allowed).Valid() && QuoteFrom(periods, allowed, symbol, market, time).Some?
    ensures 0.0 <= QuoteFrom(periods, allowed, symbol, market, time).value < 1.0
  {
    var p := periods[0];
    if !(p.symbol == symbol && p.market == market && p.start <= time < p.end) {
      QuoteIsFraction(periods[1..], allowed, symbol, market, time);
    }
  }

  /** Exactly which fee is quoted: the rate of the first period of this symbol and market over the
      time, if that period is an assumption one may use or evidence observed by then. */
  lemma {:induction false} QuoteIsExact(fees: FeeSchedule, symbol: string, market: Market, time: int, rate: real)
    ensures Quote(fees, symbol, market, time) == Some(rate)
       <==> exists i :: && 0 <= i < |fees.periods| && fees.periods[i].taker == rate
                        && fees.periods[i].symbol == symbol && fees.periods[i].market == market
                        && fees.periods[i].start <= time < fees.periods[i].end
                        && (if fees.periods[i].kind.Assumption? then fees.allowAssumptions
                            else fees.periods[i].observedAt <= time)
                        && forall j | 0 <= j < i :: fees.periods[j].symbol != symbol || fees.periods[j].market != market
                                                    || !(fees.periods[j].start <= time < fees.periods[j].end)
  {
    var first := FirstCovering(fees.periods, 0, symbol, market, time);
    FirstPeriodDecides(fees.periods, fees.allowAssumptions, 0, symbol, market, time);
    assert fees.periods[0..] == fees.periods;
    hide QuoteFrom, FirstCovering;
    if first < |fees.periods| {
      assert CoversTime(fees.periods[first], symbol, market, time);
    }
  }

  function FirstCovering(periods: seq<FeePeriod>, from: nat, symbol: string, market: Market, time: int): (i: nat)
    requires from <= |periods|
    ensures from <= i <= |periods|
    ensures forall j | from <= j < i :: !CoversTime(periods[j], symbol, market, time)
    ensures i < |periods| ==> CoversTime(periods[i], symbol, market, time)
    decreases |periods| - from
  {
    if from == |periods| || CoversTime(periods[from], symbol, market, time) then from
    else FirstCovering(periods, from + 1, symbol, market, time)
  }

  lemma {:induction false} FirstPeriodDecides(periods: seq<FeePeriod>, allowed: bool, from: nat, symbol: string,
                                              market: Market, time: int)
    requires from <= |periods|
    ensures var i := FirstCovering(periods, from, symbol, market, time);
            QuoteFrom(periods[from..], allowed, symbol, market, time)
            == if i < |periods| && (if periods[i].kind.Assumption? then allowed else periods[i].observedAt <= time)
               then Some(periods[i].taker) else None
    decreases |periods| - from
  {
    if from < |periods| && !CoversTime(periods[from], symbol, market, time) {
      assert periods[from..][1..] == periods[from + 1..];
      FirstPeriodDecides(periods, allowed, from + 1, symbol, market, time);
    }
  }

  predicate CoversTime(p: FeePeriod, symbol: string, market: Market, time: int) {
    p.symbol == symbol && p.market == market && p.start <= time < p.end
  }

  lemma QuotesAreFractions(fees: FeeSchedule, symbol: string, time: int)
    requires fees.Valid()
    ensures forall market :: Quote(fees, symbol, market, time).Some? ==> 0.0 <= Quote(fees, symbol, market, time).value < 1.0
  {
    forall market | Quote(fees, symbol, market, time).Some?
      ensures 0.0 <= Quote(fees, symbol, market, time).value < 1.0
    {
      QuoteIsFraction(fees.periods, fees.allowAssumptions, symbol, market, time);
    }
  }

  function Freed(periods: seq<FeePeriod>): seq<FeePeriod> {
    if periods == [] then [] else [periods[0].(taker := 0.0)] + Freed(periods[1..])
  }

  /** The same schedule with every rate zero. */
  function Free(fees: FeeSchedule): FeeSchedule {
    fees.(periods := Freed(fees.periods))
  }

  /** Making fees free changes rates, not coverage. */
  lemma {:induction false} FreeQuote(periods: seq<FeePeriod>, allowed: bool, symbol: string, market: Market, time: int)
    ensures QuoteFrom(Freed(periods), allowed, symbol, market, time)
         == if QuoteFrom(periods, allowed, symbol, market, time).Some? then Some(0.0) else None
  {
    if periods != [] {
      FreeQuote(periods[1..], allowed, symbol, market, time);
      assert Freed(periods)[1..] == Freed(periods[1..]);
    }
  }
}
