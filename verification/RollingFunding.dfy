/** The rolling funding history: one symbol's settlements, pruned as they arrive. */
module RollingFunding {
  import opened Wrappers
  import opened Clock

  datatype Observation = Observation(time: int, rate: real, hours: int)

  /** An update as offered, before any check. */
  datatype Attempt = Attempt(time: int, rate: Double, hours: int)

  datatype HistoryError = BadSetting | BadTime | BadHours | BadRate | NotIncreasing | Irregular
                        | NoHistory | BadDecision | DecisionTooEarly | Stale | TooFew

  function Abs(x: int): int {
    if x < 0 then -x else x
  }

  /** Why an update is refused after the observations accepted so far. */
  function Refusal(past: seq<Observation>, a: Attempt): Option<HistoryError> {
    if a.time < 0 then Some(BadTime)
    else if a.hours < 1 then Some(BadHours)
    else if a.hours > 24 || a.rate.NonFinite? || a.rate.value > 0.05 || a.rate.value < -0.05 then Some(BadRate)
    else if past != [] && a.time <= past[|past| - 1].time then Some(NotIncreasing)
    else if past != [] && Abs(a.time - past[|past| - 1].time - a.hours * HOUR_MS) > JITTER_MS then Some(Irregular)
    else None
  }

  /** What a sequence of updates leaves accepted; a refused one leaves no trace. */
  function Accepted(attempts: seq<Attempt>): seq<Observation> {
    if attempts == [] then []
    else
      var past, a := Accepted(attempts[..|attempts| - 1]), attempts[|attempts| - 1];
      if Refusal(past, a).Some? then past else past + [Observation(a.time, a.rate.value, a.hours)]
  }

  predicate Follows(earlier: Observation, o: Observation) {
    earlier.time < o.time && Abs(o.time - earlier.time - o.hours * HOUR_MS) <= JITTER_MS
  }

  predicate LinkAt(a: seq<Observation>, i: nat)
    requires i < |a|
  {
    1 <= a[i].hours <= 24 && (i > 0 ==> Follows(a[i - 1], a[i]))
  }

  /** Neighbours are one cadence apart, give or take the jitter. */
  ghost predicate Chained(a: seq<Observation>) {
    forall i | 0 <= i < |a| :: LinkAt(a, i)
  }

  lemma LinkGrows(a: seq<Observation>, o: Observation)
    requires Chained(a) && 1 <= o.hours <= 24 && (a != [] ==> Follows(a[|a| - 1], o))
    ensures Chained(a + [o])
  {
    hide Follows;
    forall i | 0 <= i < |a| + 1 ensures LinkAt(a + [o], i) {
      assert i < |a| ==> LinkAt(a, i);
    }
  }

  lemma {:induction false} AcceptedAreChained(attempts: seq<Attempt>)
    ensures Chained(Accepted(attempts))
  {
    hide LinkAt;
    if attempts != [] {
      var past, a := Accepted(attempts[..|attempts| - 1]), attempts[|attempts| - 1];
      AcceptedAreChained(attempts[..|attempts| - 1]);
      if Refusal(past, a).None? {
        LinkGrows(past, Observation(a.time, a.rate.value, a.hours));
      }
    }
  }

  lemma {:induction false} TimesGrow(a: seq<Observation>, i: nat, j: nat)
    requires Chained(a) && i < j < |a|
    ensures a[i].time < a[j].time
  {
    assert LinkAt(a, j);
    if i < j - 1 {
      TimesGrow(a, i, j - 1);
    }
  }

  // ---------------------------------------------------------------- the window

  /** Shares the latest cadence and is not older than `cutoff`. */
  predicate Kept(a: seq<Observation>, i: nat, cutoff: int)
    requires i < |a|
  {
    a[i].hours == a[|a| - 1].hours && a[i].time >= cutoff
  }

  /** `a[k..]` is the longest suffix of such observations. */
  ghost predicate IsWindow(a: seq<Observation>, k: nat, cutoff: int) {
    k <= |a| && (forall i | k <= i < |a| :: Kept(a, i, cutoff)) && (k > 0 ==> !Kept(a, k - 1, cutoff))
  }

  function Cutoff(a: seq<Observation>, days: nat): int
    requires a != []
  {
    a[|a| - 1].time - days * DAY_MS
  }

  /** A window of settlements one cadence apart holds at most this many. */
  function Capacity(hours: int, days: nat): nat
    requires hours >= 1
  {
    1 + (days * DAY_MS) / (hours * HOUR_MS - JITTER_MS)
  }

  lemma {:induction false} RunSpans(a: seq<Observation>, k: nat, n: nat)
    requires Chained(a) && k <= n < |a| && forall i | k <= i <= n :: a[i].hours == a[n].hours
    ensures a[n].time - a[k].time >= (n - k) * (a[n].hours * HOUR_MS - JITTER_MS)
  {
    if n > k {
      assert LinkAt(a, n);
      RunSpans(a, k, n - 1);
      var gap := a[n].hours * HOUR_MS - JITTER_MS;
      assert (n - 1 - k) * gap + gap == (n - k) * gap;
    }
  }

  /** Pruning bounds the history by the window, whatever is offered. */
  lemma {:induction false} WindowIsBounded(a: seq<Observation>, k: nat, days: nat)
    requires Chained(a) && a != [] && a[|a| - 1].hours >= 1 && IsWindow(a, k, Cutoff(a, days))
    ensures |a| - k <= Capacity(a[|a| - 1].hours, days)
  {
    var n := |a| - 1;
    if k < n {
      var gap := a[n].hours * HOUR_MS - JITTER_MS;
      assert LinkAt(a, n) && Kept(a, k, Cutoff(a, days));
      forall i | k <= i <= n ensures a[i].hours == a[n].hours {
        assert Kept(a, i, Cutoff(a, days));
      }
      RunSpans(a, k, n);
      QuotientAtLeast(n - k, gap, days * DAY_MS);
    }
  }

  lemma QuotientAtLeast(n: nat, gap: int, total: int)
    requires gap > 0 && n * gap <= total
    ensures n <= total / gap
  {
    var q := total / gap;
    assert total < gap * q + gap;
    assert n > q ==> gap * (n - q - 1) >= 0;
    assert gap * (n - q - 1) == n * gap - gap * q - gap;
  }

  /** A window about to be pruned: one cadence, nothing droppable dropped in error. */
  ghost predicate Prunable(a: seq<Observation>, k: nat, cutoff: int) {
    k < |a| && (forall i | k <= i < |a| :: a[i].hours == a[|a| - 1].hours) && (k > 0 ==> !Kept(a, k - 1, cutoff))
  }

  /** A later observation moves the window forward only. */
  lemma WindowMoves(a: seq<Observation>, o: Observation, k: nat, days: nat)
    requires a != [] && IsWindow(a, k, Cutoff(a, days)) && o.time > a[|a| - 1].time
    ensures Prunable(a + [o], if o.hours != a[|a| - 1].hours then |a| else k, Cutoff(a + [o], days))
  {
    var b := a + [o];
    assert Cutoff(b, days) >= Cutoff(a, days);
    assert forall i | 0 <= i < |a| :: b[i] == a[i];
    if o.hours == a[|a| - 1].hours {
      forall i | k <= i < |b| ensures b[i].hours == o.hours {
        assert i < |a| ==> Kept(a, i, Cutoff(a, days));
      }
    }
  }

  lemma SuffixGrows(a: seq<Observation>, o: Observation, k: nat)
    requires k <= |a|
    ensures (a + [o])[k..] == a[k..] + [o] && |a + [o]| == |a| + 1 && (a + [o])[|a|] == o
  {
  }

  lemma PruneStep(a: seq<Observation>, k: nat, cutoff: int)
    requires Prunable(a, k, cutoff) && k < |a| && a[k].time < cutoff <= a[|a| - 1].time
    ensures Prunable(a, k + 1, cutoff) && k + 1 < |a|
  {
  }

  lemma PrunedIsWindow(a: seq<Observation>, k: nat, cutoff: int)
    requires Chained(a) && Prunable(a, k, cutoff) && a[k].time >= cutoff
    ensures IsWindow(a, k, cutoff)
  {
    hide Chained;
    forall i | k <= i < |a| ensures Kept(a, i, cutoff) {
      if k < i { TimesGrow(a, k, i); }
    }
  }

  // ---------------------------------------------------------------- cadence changes

  predicate ChangesAt(a: seq<Observation>, i: int) {
    1 <= i < |a| && a[i - 1].hours != a[i].hours
  }

  function Changes(a: seq<Observation>): set<int> {
    set i | 1 <= i < |a| && ChangesAt(a, i)
  }

  lemma ChangesGrow(a: seq<Observation>, o: Observation)
    ensures |Changes(a + [o])| == |Changes(a)| + (if a != [] && o.hours != a[|a| - 1].hours then 1 else 0)
  {
    var b := a + [o];
    assert forall i | 0 <= i < |a| :: ChangesAt(b, i) == ChangesAt(a, i);
    assert ChangesAt(b, |a|) <==> a != [] && o.hours != a[|a| - 1].hours;
    hide ChangesAt;
    if a != [] && o.hours != a[|a| - 1].hours {
      assert Changes(b) == Changes(a) + {|a|};
    } else {
      assert Changes(b) == Changes(a);
    }
  }

  // ---------------------------------------------------------------- the model

  /** The rows at or after `cutoff`. */
  function From(rows: seq<Observation>, cutoff: int): seq<Observation> {
    if rows == [] then []
    else
      var last := rows[|rows| - 1];
      From(rows[..|rows| - 1], cutoff) + if last.time >= cutoff then [last] else []
  }

  /** The same rows counted off: how many come before `cutoff`. */
  function Skipped(rows: seq<Observation>, cutoff: int): (k: nat)
    ensures k <= |rows|
    ensures forall i | 0 <= i < k :: rows[i].time < cutoff
    ensures k < |rows| ==> rows[k].time >= cutoff
  {
    if rows == [] || rows[0].time >= cutoff then 0 else 1 + Skipped(rows[1..], cutoff)
  }

  lemma {:induction false} FromSkips(rows: seq<Observation>, cutoff: int, k: nat)
    requires k <= |rows| && (forall i | 0 <= i < k :: rows[i].time < cutoff)
    requires forall i | k <= i < |rows| :: rows[i].time >= cutoff
    ensures From(rows, cutoff) == rows[k..]
  {
    hide From;
    FromLast(rows, cutoff);
    if rows != [] {
      var init := rows[..|rows| - 1];
      FromSkips(init, cutoff, if k < |rows| then k else k - 1);
      assert k < |rows| ==> rows[k..] == init[k..] + [rows[|rows| - 1]];
    }
  }

  lemma FromLast(rows: seq<Observation>, cutoff: int)
    ensures rows == [] ==> From(rows, cutoff) == []
    ensures rows != [] ==>
              var last := rows[|rows| - 1];
              From(rows, cutoff) == From(rows[..|rows| - 1], cutoff) + (if last.time >= cutoff then [last] else [])
  {
  }

  /** The longest suffix of the accepted observations sharing the latest cadence and not older
      than the window before `decision`. */
  ghost predicate SelectedAt(a: seq<Observation>, decision: int, days: nat, rows: seq<Observation>) {
    IsSuffixWindow(a, decision - days * DAY_MS, rows)
  }

  ghost predicate IsSuffixWindow(a: seq<Observation>, cutoff: int, rows: seq<Observation>) {
    exists k :: 0 <= k <= |a| && IsWindow(a, k, cutoff) && rows == a[k..]
  }

  /** Filtering the pruned history is filtering everything accepted. */
  lemma {:induction false} SelectionIsWindow(a: seq<Observation>, k: nat, was: int, cutoff: int)
    requires Chained(a) && a != [] && IsWindow(a, k, was) && was <= cutoff
    ensures IsSuffixWindow(a, cutoff, From(a[k..], cutoff))
  {
    var rows := a[k..];
    var n := Skipped(rows, cutoff);
    SuffixIsLate(a, k, n, cutoff);
    FromSkips(rows, cutoff, n);
    SuffixIsWindow(a, k, n, was, cutoff);
    assert rows[n..] == a[k + n..];
    hide Chained, IsWindow, From, Skipped;
    assert 0 <= k + n <= |a| && IsWindow(a, k + n, cutoff) && From(a[k..], cutoff) == a[k + n..];
  }

  lemma SuffixIsLate(a: seq<Observation>, k: nat, n: nat, cutoff: int)
    requires Chained(a) && k + n <= |a| && (k + n < |a| ==> a[k + n].time >= cutoff)
    ensures forall i | n <= i < |a[k..]| :: a[k..][i].time >= cutoff
  {
    hide Chained;
    forall i | n <= i < |a[k..]| ensures a[k..][i].time >= cutoff {
      if n < i { TimesGrow(a, k + n, k + i); }
    }
  }

  lemma SuffixIsWindow(a: seq<Observation>, k: nat, n: nat, was: int, cutoff: int)
    requires IsWindow(a, k, was) && k + n <= |a| && was <= cutoff
    requires forall i | 0 <= i < |a[k..]| :: a[k..][i].time < cutoff <==> i < n
    ensures IsWindow(a, k + n, cutoff)
  {
    forall i | k + n <= i < |a| ensures Kept(a, i, cutoff) {
      assert Kept(a, i, was) && a[k..][i - k].time >= cutoff;
    }
    assert n > 0 ==> a[k..][n - 1].time < cutoff;
  }

  /** Where the longest run of such observations ending before `n` begins. */
  function WindowStart(a: seq<Observation>, n: nat, cutoff: int, hours: int): (k: nat)
    requires n <= |a|
    ensures k <= n
    ensures forall i | k <= i < n :: a[i].hours == hours && a[i].time >= cutoff
    ensures k > 0 ==> a[k - 1].hours != hours || a[k - 1].time < cutoff
  {
    if n > 0 && a[n - 1].hours == hours && a[n - 1].time >= cutoff then WindowStart(a, n - 1, cutoff, hours) else n
  }

  /** What a forecast is trained on, from everything accepted. */
  function Trained(a: seq<Observation>, cutoff: int): seq<Observation>
    requires a != []
  {
    a[WindowStart(a, |a|, cutoff, a[|a| - 1].hours)..]
  }

  /** There is one such window. */
  lemma {:induction false} TrainedIsTheWindow(a: seq<Observation>, cutoff: int, rows: seq<Observation>)
    requires a != []
    ensures IsSuffixWindow(a, cutoff, rows) <==> rows == Trained(a, cutoff)
  {
    var n := WindowStart(a, |a|, cutoff, a[|a| - 1].hours);
    assert IsWindow(a, n, cutoff) && Trained(a, cutoff) == a[n..];
    if IsSuffixWindow(a, cutoff, rows) {
      var k :| 0 <= k <= |a| && IsWindow(a, k, cutoff) && rows == a[k..];
      assert k == n;
    }
  }

  /** The rows a forecast at `asOf` is trained on, or why there are none. */
  function SelectionOf(a: seq<Observation>, asOf: Option<int>, days: nat, settlements: nat)
    : Result<(int, seq<Observation>), HistoryError>
  {
    if a == [] then Err(NoHistory)
    else
      var latest := a[|a| - 1];
      var decision := if asOf.Some? then asOf.value else latest.time;
      if decision < 0 then Err(BadDecision)
      else if decision < latest.time then Err(DecisionTooEarly)
      else if decision - latest.time > latest.hours * HOUR_MS + JITTER_MS then Err(Stale)
      else
        var rows := Trained(a, decision - days * DAY_MS);
        if |rows| < settlements then Err(TooFew) else Ok((decision, rows))
  }

  lemma NotRefused(past: seq<Observation>, a: Attempt)
    requires Refusal(past, a).None?
    ensures a.rate.Num? && (past != [] ==> a.time > past[|past| - 1].time)
  {
  }

  lemma AcceptedGrows(attempts: seq<Attempt>, a: Attempt)
    ensures var past := Accepted(attempts);
            Accepted(attempts + [a])
            == if Refusal(past, a).Some? then past else past + [Observation(a.time, a.rate.value, a.hours)]
  {
    assert (attempts + [a])[..|attempts|] == attempts;
  }

  /** Exactly which update joins the history: at a time since the epoch, with a rate of at most 5%
      either way and a cadence of 1 to 24 hours, that cadence after the last one accepted, give or
      take the jitter. Any other leaves the history as it was. */
  lemma {:induction false} AcceptanceIsExact(attempts: seq<Attempt>, a: Attempt)
    ensures var past := Accepted(attempts);
            var regular := && a.time >= 0 && 1 <= a.hours <= 24 && a.rate.Num? && -0.05 <= a.rate.value <= 0.05
                           && (past != [] ==> var gap := a.time - past[|past| - 1].time;
                                              gap > 0 && -JITTER_MS <= gap - a.hours * HOUR_MS <= JITTER_MS);
            Accepted(attempts + [a]) == if regular then past + [Observation(a.time, a.rate.value, a.hours)] else past
  {
    AcceptedGrows(attempts, a);
    hide Accepted;
  }

  lemma {:induction false} AcceptedTimesAreNatural(attempts: seq<Attempt>)
    ensures forall i | 0 <= i < |Accepted(attempts)| :: Accepted(attempts)[i].time >= 0
  {
    if attempts != [] {
      AcceptedTimesAreNatural(attempts[..|attempts| - 1]);
    }
  }

  lemma LatestIsLast(a: seq<Observation>, k: nat, days: nat)
    requires Chained(a) && k <= |a| && (a != [] ==> IsWindow(a, k, Cutoff(a, days)))
    ensures a != [] ==> k < |a| && a[k..] != [] && a[k..][|a| - k - 1] == a[|a| - 1] && a[|a| - 1].hours >= 1
                        && |a[k..]| <= Capacity(a[|a| - 1].hours, days)
  {
    if a != [] {
      assert LinkAt(a, |a| - 1) && Kept(a, |a| - 1, Cutoff(a, days));
      WindowIsBounded(a, k, days);
    }
  }

  /** Where pruning starts once `o` is appended: after a change of cadence, from `o` alone. */
  lemma PruneStarts(a: seq<Observation>, o: Observation, k: nat, days: nat)
    requires a != [] ==> IsWindow(a, k, Cutoff(a, days)) && o.time > a[|a| - 1].time
    requires a == [] ==> k == 0
    ensures Prunable(a + [o], if a != [] && o.hours != a[|a| - 1].hours then |a| else k, o.time - days * DAY_MS)
  {
    if a != [] {
      WindowMoves(a, o, k, days);
      hide IsWindow, Prunable;
    }
  }

  class RollingFundingModel {
    const rollingDays: nat
    const minSettlements: nat
    var history: seq<Observation>
    var cadenceResets: nat
    ghost var attempts: seq<Attempt>
    ghost var start: nat

    constructor Configured(days: nat, settlements: nat)
      requires days >= 1 && settlements >= 3
      ensures Valid() && attempts == [] && rollingDays == days && minSettlements == settlements
    {
      rollingDays, minSettlements, history, cadenceResets := days, settlements, [], 0;
      attempts, start := [], 0;
    }

    /** The construction the source offers, with its checks. */
    static method Create(days: int, settlements: int) returns (r: Result<RollingFundingModel, HistoryError>)
      ensures r.Ok? <==> days >= 1 && settlements >= 3
      ensures r.Ok? ==> fresh(r.value) && r.value.Valid() && r.value.attempts == []
                        && r.value.rollingDays == days && r.value.minSettlements == settlements
    {
      if days < 1 || settlements < 3 {
        return Err(BadSetting);
      }
      var model := new RollingFundingModel.Configured(days, settlements);
      return Ok(model);
    }

    ghost function Past(): seq<Observation>
      reads this
    {
      Accepted(attempts)
    }

    /** The history is the longest suffix of the accepted observations that shares the latest
        cadence and lies within the rolling window. */
    ghost predicate Valid()
      reads this
    {
      && rollingDays >= 1 && minSettlements >= 3
      && start <= |Past()| && history == Past()[start..]
      && (Past() == [] <==> history == [])
      && (Past() != [] ==> IsWindow(Past(), start, Cutoff(Past(), rollingDays)))
      && cadenceResets == |Changes(Past())|
    }

    method Update(time: int, rate: Double, hours: int) returns (error: Option<HistoryError>)
      requires Valid()
      modifies this
      ensures Valid() && attempts == old(attempts) + [Attempt(time, rate, hours)]
      ensures error == Refusal(old(Past()), Attempt(time, rate, hours))
      ensures error.Some? ==> Past() == old(Past()) && history == old(history) && cadenceResets == old(cadenceResets)
      ensures error.None? ==> Past() == old(Past()) + [Observation(time, rate.value, hours)]
      ensures history != [] ==>
                var hours := history[|history| - 1].hours; hours >= 1 && |history| <= Capacity(hours, rollingDays)
    {
      hide Accepted, Refusal, Chained, IsWindow, Kept, Changes, Capacity, Prunable, Cutoff;
      ghost var a, past := Attempt(time, rate, hours), Past();
      AcceptedGrows(attempts, a);
      AcceptedAreChained(attempts);
      AcceptedAreChained(attempts + [a]);
      LatestIsLast(past, start, rollingDays);
      error := RefusalOf(time, rate, hours);
      attempts := attempts + [a];
      if error.Some? {
        return;
      }
      NotRefused(past, a);
      Append(Observation(time, rate.value, hours), past);
      LatestIsLast(past + [Observation(time, rate.value, hours)], start, rollingDays);
    }

    /** Restarts the history on a change of cadence, appends the observation and prunes. */
    method Append(o: Observation, ghost past: seq<Observation>)
      requires start <= |past| && history == past[start..] && (past == [] <==> history == [])
      requires past != [] ==> IsWindow(past, start, Cutoff(past, rollingDays)) && o.time > past[|past| - 1].time
      requires Chained(past + [o]) && cadenceResets == |Changes(past)|
      modifies `history, `start, `cadenceResets
      ensures var now := past + [o];
              && start < |now| && history == now[start..] && IsWindow(now, start, Cutoff(now, rollingDays))
              && cadenceResets == |Changes(now)|
    {
      hide Chained, IsWindow, Kept, Changes, Prunable;
      ghost var now := past + [o];
      ChangesGrow(past, o);
      PruneStarts(past, o, start, rollingDays);
      if history != [] && o.hours != history[|history| - 1].hours {
        history, start := [], |past|;
        cadenceResets := cadenceResets + 1;
      }
      history := history + [o];
      SuffixGrows(past, o, start);
      Prune(o.time - rollingDays * DAY_MS, now);
      PrunedIsWindow(now, start, o.time - rollingDays * DAY_MS);
    }

    /** Drops the observations that have left the window. */
    method Prune(cutoff: int, ghost now: seq<Observation>)
      requires start < |now| && history == now[start..] && Prunable(now, start, cutoff) && cutoff <= now[|now| - 1].time
      modifies `history, `start
      ensures start < |now| && history == now[start..] && Prunable(now, start, cutoff) && now[start].time >= cutoff
    {
      hide Prunable;
      while history[0].time < cutoff
        invariant start < |now| && history == now[start..] && Prunable(now, start, cutoff)
        decreases |history|
      {
        PruneStep(now, start, cutoff);
        assert now[start..][1..] == now[start + 1..];
        history, start := history[1..], start + 1;
      }
    }

    method RefusalOf(time: int, rate: Double, hours: int) returns (error: Option<HistoryError>)
      requires start <= |Past()| && history == Past()[start..] && (Past() == [] <==> history == [])
      ensures error == Refusal(Past(), Attempt(time, rate, hours))
    {
      if time < 0 {
        return Some(BadTime);
      }
      if hours < 1 {
        return Some(BadHours);
      }
      if hours > 24 || rate.NonFinite? || rate.value > 0.05 || rate.value < -0.05 {
        return Some(BadRate);
      }
      if history != [] {
        var previous := history[|history| - 1];
        if time <= previous.time {
          return Some(NotIncreasing);
        }
        if Abs(time - previous.time - hours * HOUR_MS) > JITTER_MS {
          return Some(Irregular);
        }
      }
      return None;
    }

    /** The rows a forecast at `asOf` is trained on: nothing pruning dropped would have been one. */
    method Selection(asOf: Option<int>) returns (r: Result<(int, seq<Observation>), HistoryError>)
      requires Valid()
      ensures r == SelectionOf(Past(), asOf, rollingDays, minSettlements)
      ensures r.Ok? ==> Past() != [] && history != [] && SelectedAt(Past(), r.value.0, rollingDays, r.value.1)
                        && |r.value.1| >= minSettlements
      ensures r == Err(NoHistory) <==> Past() == []
      ensures Past() != [] ==>
                var latest := Past()[|Past()| - 1];
                var decision := if asOf.Some? then asOf.value else latest.time;
                && (r == Err(BadDecision) <==> decision < 0)
                && (r == Err(DecisionTooEarly) <==> 0 <= decision < latest.time)
                && (r == Err(Stale) <==> decision >= 0 && decision - latest.time > latest.hours * HOUR_MS + JITTER_MS)
                && (r.Ok? ==> r.value.0 == decision)
                && (r == Err(TooFew) ==>
                      exists rows :: SelectedAt(Past(), decision, rollingDays, rows) && |rows| < minSettlements)
    {
      hide Accepted, Chained, IsWindow, From, Capacity, Changes, IsSuffixWindow, Trained;
      AcceptedAreChained(attempts);
      AcceptedTimesAreNatural(attempts);
      LatestIsLast(Past(), start, rollingDays);
      if history == [] {
        return Err(NoHistory);
      }
      var latest := history[|history| - 1];
      var decision := latest.time;
      if asOf.Some? {
        if asOf.value < 0 {
          return Err(BadDecision);
        }
        decision := asOf.value;
      }
      if decision < latest.time {
        return Err(DecisionTooEarly);
      }
      if decision - latest.time > latest.hours * HOUR_MS + JITTER_MS {
        return Err(Stale);
      }
      var cutoff := decision - rollingDays * DAY_MS;
      var selected := From(history, cutoff);
      SelectionIsWindow(Past(), start, Cutoff(Past(), rollingDays), cutoff);
      TrainedIsTheWindow(Past(), cutoff, selected);
      if |selected| < minSettlements {
        return Err(TooFew);
      }
      return Ok((decision, selected));
    }
  }
}
