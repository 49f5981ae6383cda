/** Execution estimates from a calibrated square-root impact curve. */
module Costs {
  import opened Wrappers
  import opened Reals
  import opened Carry

  datatype ImpactCurve = ImpactCurve(
    symbol: string, admittedAt: int, evidenceEnd: int, artifact: string, kind: CostKind,
    sellBps: real, buyBps: real, sizeMin: real, sizeMax: real) {
    predicate Valid() {
      sellBps >= 0.0 && buyBps >= 0.0 && 0.0 < sizeMin <= sizeMax
    }

    function RoundTrip(): real {
      sellBps / 10000.0 + buyBps / 10000.0
    }
  }

  /** All in basis points, except the financing, which is a fraction. */
  datatype Charges = Charges(
    entryHalfSpread: real, closeHalfSpread: real, entryFee: real, closeFee: real, hedgeEntry: real, hedgeClose: real,
    financing: real) {
    predicate Valid() {
      entryHalfSpread >= 0.0 && closeHalfSpread >= 0.0 && entryFee >= 0.0 && closeFee >= 0.0
      && hedgeEntry >= 0.0 && hedgeClose >= 0.0 && financing >= 0.0
    }

    function FixedFraction(): real {
      entryHalfSpread / 10000.0 + closeHalfSpread / 10000.0 + entryFee / 10000.0 + closeFee / 10000.0
      + hedgeEntry / 10000.0 + hedgeClose / 10000.0 + financing
    }
  }

  datatype CostError = FutureEvidence | Extrapolated | BadNumber

  // ---------------------------------------------------------------- square roots

  /** `root` takes square roots; nothing else about it is known. */
  ghost predicate IsRoot(root: real -> real) {
    forall x | x >= 0.0 :: root(x) >= 0.0 && Times(root(x), root(x)) == x
  }

  lemma RootGrows(root: real -> real, x: real, y: real)
    requires IsRoot(root) && 0.0 <= x && 0.0 <= y
    ensures x <= y <==> root(x) <= root(y)
  {
    SquareGrows(root(x), root(y));
    SquareGrows(root(y), root(x));
    hide Times;
  }

  lemma RootOfSquare(root: real -> real, s: real)
    requires IsRoot(root) && s >= 0.0
    ensures root(Times(s, s)) == s
  {
    SquareIsNonnegative(s);
    var r := root(Times(s, s));
    SquareGrows(r, s);
    SquareGrows(s, r);
    hide Times;
  }

  lemma SquareIsNonnegative(s: real)
    ensures Times(s, s) >= 0.0
  {
  }

  // ---------------------------------------------------------------- the estimate

  /** Sell the perp to open, buy it back to close; the terminal cost is today's closing cost. */
  function FromCurve(root: real -> real, curve: ImpactCurve, now: int, validUntil: int, notional: real, fraction: real,
                     horizon: int, charges: Charges): Result<CostEstimate, CostError> {
    if fraction < 0.0 then Err(BadNumber)
    else if curve.admittedAt > now || curve.evidenceEnd > now then Err(FutureEvidence)
    else if !(curve.sizeMin <= fraction <= curve.sizeMax) then Err(Extrapolated)
    else if !charges.Valid() || notional <= 0.0 || horizon < 1 || validUntil <= now then Err(BadNumber)
    else
      var entry := (Times(curve.sellBps, root(fraction)) + charges.entryHalfSpread + charges.entryFee + charges.hedgeEntry)
                   / 10000.0;
      var close := (Times(curve.buyBps, root(fraction)) + charges.closeHalfSpread + charges.closeFee + charges.hedgeClose)
                   / 10000.0;
      Ok(CostEstimate(curve.symbol, notional, horizon, now, validUntil, curve.evidenceEnd, curve.kind,
                      entry, close, close, charges.financing))
  }

  /** The round trip costs what every size pays plus the impact of this one. */
  lemma {:induction false} HurdleIsFixedPlusImpact(root: real -> real, curve: ImpactCurve, now: int, validUntil: int,
                                                   notional: real, fraction: real, horizon: int, charges: Charges)
    requires FromCurve(root, curve, now, validUntil, notional, fraction, horizon, charges).Ok?
    ensures Hurdle(FromCurve(root, curve, now, validUntil, notional, fraction, horizon, charges).value, false)
         == charges.FixedFraction() + Times(curve.RoundTrip(), root(fraction))
  {
    var s := root(fraction);
    assert Times(curve.RoundTrip(), s) == Times(curve.sellBps, s) / 10000.0 + Times(curve.buyBps, s) / 10000.0;
  }

  /** Staying costs the financing only, at any size: closing now or at the horizon is priced alike. */
  lemma {:induction false} HeldHurdleIsFinancing(root: real -> real, curve: ImpactCurve, now: int, validUntil: int,
                                                 notional: real, fraction: real, horizon: int, charges: Charges)
    requires FromCurve(root, curve, now, validUntil, notional, fraction, horizon, charges).Ok?
    ensures Hurdle(FromCurve(root, curve, now, validUntil, notional, fraction, horizon, charges).value, true)
         == charges.financing
  {
  }

  /** A larger order is never quoted cheaper, opening, closing or for the round trip. */
  lemma {:induction false} LargerIsNeverCheaper(root: real -> real, curve: ImpactCurve, now: int, validUntil: int,
                                                small: real, x: real, large: real, y: real, horizon: int,
                                                charges: Charges)
    requires IsRoot(root) && curve.Valid() && x <= y
    requires FromCurve(root, curve, now, validUntil, small, x, horizon, charges).Ok?
    requires FromCurve(root, curve, now, validUntil, large, y, horizon, charges).Ok?
    ensures var less := FromCurve(root, curve, now, validUntil, small, x, horizon, charges).value;
            var more := FromCurve(root, curve, now, validUntil, large, y, horizon, charges).value;
            && less.entry <= more.entry && less.closeNow <= more.closeNow && less.terminalClose <= more.terminalClose
            && Hurdle(less, false) <= Hurdle(more, false) && Hurdle(less, true) == Hurdle(more, true)
  {
    RootGrows(root, x, y);
    TimesGrows(curve.sellBps, root(x), root(y));
    TimesGrows(curve.buyBps, root(x), root(y));
    hide Times, IsRoot;
  }

  lemma QuotesAreCosts(root: real -> real, curve: ImpactCurve, now: int, validUntil: int, notional: real,
                       fraction: real, horizon: int, charges: Charges)
    requires IsRoot(root) && curve.Valid()
    requires FromCurve(root, curve, now, validUntil, notional, fraction, horizon, charges).Ok?
    ensures var quote := FromCurve(root, curve, now, validUntil, notional, fraction, horizon, charges).value;
            quote.entry >= 0.0 && quote.terminalClose >= 0.0 && quote.financing >= 0.0
  {
    assert root(fraction) >= 0.0;
    TimesSign(curve.sellBps, root(fraction));
    TimesSign(curve.buyBps, root(fraction));
    hide Times, IsRoot;
  }

  /** What is entered on a quote is held on the same quote: the round trip is in the entry hurdle
      only, and staying asks for less than entering, so no entry is undone by its own evidence. */
  lemma {:induction false} EntryIsThenHeld(root: real -> real, curve: ImpactCurve, now: int, validUntil: int,
                                           notional: real, fraction: real, charges: Charges, s: Strategy,
                                           forecast: Option<Forecast>, approval: Option<Approval>)
    requires IsRoot(root) && curve.Valid() && s.policy.Valid()
    requires FromCurve(root, curve, now, validUntil, notional, fraction, s.policy.horizon, charges).Ok?
    requires var quote := FromCurve(root, curve, now, validUntil, notional, fraction, s.policy.horizon, charges).value;
             Acts(s, now, forecast, Some(quote), approval, None)
    ensures var quote := FromCurve(root, curve, now, validUntil, notional, fraction, s.policy.horizon, charges).value;
            var position := Position(s.symbol, notional, now, s.policy.horizon, 0, forecast.value.intervalHours);
            && Acts(s, now, forecast, Some(quote), approval, Some(position))
            && Decide(s, now, forecast, Some(quote), approval, Some(position)).value.edge.value
               == Decide(s, now, forecast, Some(quote), approval, None).value.edge.value + quote.entry + quote.terminalClose
  {
    var quote := FromCurve(root, curve, now, validUntil, notional, fraction, s.policy.horizon, charges).value;
    QuotesAreCosts(root, curve, now, validUntil, notional, fraction, s.policy.horizon, charges);
    HeldHurdleIsFinancing(root, curve, now, validUntil, notional, fraction, s.policy.horizon, charges);
    assert quote.notional == notional;
    hide Mean, Probability, Decide, Acts, Usable, Covers, FromCurve, IsRoot, ImpactCurve.Valid;
    DecidesUnlessMismatched(s, now, forecast, Some(quote), approval, None);
    ActsExactlyWhen(s, now, forecast, Some(quote), approval, None);
    ActingEdge(s, now, forecast, Some(quote), approval, None);
    var position := Position(s.symbol, notional, now, s.policy.horizon, 0, forecast.value.intervalHours);
    LowerHurdleIsLikelier(forecast.value.samples, Hurdle(quote, true), Hurdle(quote, false));
    DecidesUnlessMismatched(s, now, forecast, Some(quote), approval, Some(position));
    ActsExactlyWhen(s, now, forecast, Some(quote), approval, Some(position));
    ActingEdge(s, now, forecast, Some(quote), approval, Some(position));
  }

  /** The impact part of the round trip grows with the size. */
  lemma {:induction false} ImpactGrows(root: real -> real, curve: ImpactCurve, x: real, y: real)
    requires IsRoot(root) && curve.Valid() && 0.0 <= x <= y
    ensures Times(curve.RoundTrip(), root(x)) <= Times(curve.RoundTrip(), root(y))
  {
    RootGrows(root, x, y);
    TimesGrows(curve.RoundTrip(), root(x), root(y));
  }
}
