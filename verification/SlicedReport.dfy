/** What the report on a sliced order says of its slices. */
module SlicedReport {
  import opened Wrappers
  import opened Reals
  import opened OrderBook
  import opened ImpactSimulator
  import opened SlicedExecution
  import opened WalkReport

  function ExhaustedIn(fills: seq<Fill>): set<int> {
    set i | 0 <= i < |fills| && fills[i].exhausted
  }

  function DeepIn(fills: seq<Fill>): set<int> {
    set i | 0 <= i < |fills| && fills[i].beyondValidatedDepth
  }

  function CrossedIn(fills: seq<Fill>): set<int> {
    set i | 0 <= i < |fills| && fills[i].crossedAtEntry
  }

  lemma OneMoreFill(fills: seq<Fill>)
    requires fills != []
    ensures var n, last := |fills| - 1, fills[|fills| - 1]; var init := fills[..n];
            && ExhaustedIn(fills) == ExhaustedIn(init) + (if last.exhausted then {n} else {})
            && DeepIn(fills) == DeepIn(init) + (if last.beyondValidatedDepth then {n} else {})
            && CrossedIn(fills) == CrossedIn(init) + (if last.crossedAtEntry then {n} else {})
            && n !in ExhaustedIn(init) && n !in DeepIn(init) && n !in CrossedIn(init)
  {
  }

  lemma {:induction false} FlagsAreCounted(fills: seq<Fill>)
    ensures CountIf(fills, Exhausted) == |ExhaustedIn(fills)|
    ensures CountIf(fills, BeyondDepth) == |DeepIn(fills)|
    ensures CountIf(fills, Crossed) == |CrossedIn(fills)|
  {
    if fills == [] {
      assert ExhaustedIn(fills) == {} && DeepIn(fills) == {} && CrossedIn(fills) == {};
    } else {
      FlagsAreCounted(fills[..|fills| - 1]);
      OneMoreFill(fills);
      hide ExhaustedIn, DeepIn, CrossedIn;
    }
  }

  /** The worst price over the slices: one of theirs, and none of theirs is worse. */
  lemma {:induction false} WorstIsTheWorst(side: OrderSide, fills: seq<Fill>)
    ensures var worst := WorstOf(side, fills);
            && (worst.None? <==> forall i | 0 <= i < |fills| :: fills[i].worst.None?)
            && (worst.Some? ==> && (exists i :: 0 <= i < |fills| && fills[i].worst == worst)
                                && forall i | 0 <= i < |fills| && fills[i].worst.Some? ::
                                     if side.Buy? then fills[i].worst.value <= worst.value
                                     else fills[i].worst.value >= worst.value)
  {
    if fills != [] {
      var n := |fills| - 1;
      WorstIsTheWorst(side, fills[..n]);
      assert forall i | 0 <= i < n :: fills[..n][i] == fills[i];
      if WorstOf(side, fills[..n]).Some? {
        var i :| 0 <= i < n && fills[..n][i].worst == WorstOf(side, fills[..n]);
        assert fills[i].worst == WorstOf(side, fills[..n]);
      }
    }
  }

  /** Every field of the report on an order whose slices filled as they did. */
  lemma {:induction false} SlicedReportIsExact(side: OrderSide, total: real, fills: seq<Fill>)
    requires fills != []
    ensures var r := Finish(side, total, fills); var p := r.parent;
            && r.slices == fills && p.requested == total
            && r.exhausted == |ExhaustedIn(fills)| && r.beyondValidatedDepth == |DeepIn(fills)|
            && r.crossed == |CrossedIn(fills)|
            && (r.completed <==> ExhaustedIn(fills) == {}) && (p.exhausted <==> ExhaustedIn(fills) != {})
            && (p.beyondValidatedDepth <==> DeepIn(fills) != {})
            && p.mid == fills[0].mid && p.touch == fills[0].touch && p.crossedAtEntry == fills[0].crossedAtEntry
            && p.filled == TotalFilled(fills) && p.notional == TotalNotional(fills) && p.levelsConsumed == TotalLevels(fills)
            && (p.average.Some? <==> p.filled > 0.0)
            && (p.average.Some? ==> Times(p.average.value, p.filled) == p.notional)
            && IsSlippage(side, p.average, p.mid, p.slippageVsMid)
            && IsSlippage(side, p.average, p.touch, p.slippageVsTouch)
            && (p.worst.Some? <==> p.filled > 0.0 && exists i :: 0 <= i < |fills| && fills[i].worst.Some?)
            && (p.worst.Some? ==> && (exists i :: 0 <= i < |fills| && fills[i].worst == p.worst)
                                  && forall i | 0 <= i < |fills| && fills[i].worst.Some? ::
                                       if side.Buy? then fills[i].worst.value <= p.worst.value
                                       else fills[i].worst.value >= p.worst.value)
  {
    hide CountIf, WorstOf, TotalFilled, TotalNotional, TotalLevels, IsSlippage, SlippageBps, Times, ExhaustedIn, DeepIn,
        CrossedIn, Average;
    FlagsAreCounted(fills);
    WorstIsTheWorst(side, fills);
    var filled, notional := TotalFilled(fills), TotalNotional(fills);
    SlippageIsInBps(side, Average(filled, notional), fills[0].mid);
    SlippageIsInBps(side, Average(filled, notional), fills[0].touch);
    AverageTimesFilled(filled, notional);
    NoAverageOfNothing(filled, notional);
  }

  lemma NoAverageOfNothing(filled: real, notional: real)
    ensures filled <= 0.0 ==> Average(filled, notional).None?
  {
  }
}
