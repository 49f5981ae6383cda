/** Tick and step sizes derived from observed decimals by an exact greatest common divisor. */
module SymbolGrid {
  import opened Wrappers

  /** A decimal as text spells it: `coefficient * 10^exponent`, trailing zeros and all. */
  datatype Decimal = Decimal(coefficient: int, exponent: int)

  datatype GridError = NoValues | NonPositive(value: Decimal)

  // ---------------------------------------------------------------- decimals as numbers

  function Ten(n: nat): (r: nat)
    ensures r > 0
  {
    if n == 0 then 1 else 10 * Ten(n - 1)
  }

  function Value(d: Decimal): real {
    if d.exponent >= 0 then (d.coefficient * Ten(d.exponent)) as real
    else d.coefficient as real / Ten(-d.exponent) as real
  }

  /** Digits after the point. */
  function Places(d: Decimal): nat {
    if d.exponent < 0 then -d.exponent else 0
  }

  function Scaled(d: Decimal, places: nat): int
    requires places >= Places(d)
  {
    d.coefficient * Ten(d.exponent + places)
  }

  lemma {:induction false} TenAdds(a: nat, b: nat)
    ensures Ten(a + b) == Ten(a) * Ten(b)
  {
    if a > 0 {
      TenAdds(a - 1, b);
    }
  }

  /** Scaling is exact: it multiplies the value by the power of ten and truncates nothing. */
  lemma {:induction false} ScaledIsExact(d: Decimal, places: nat)
    requires places >= Places(d)
    ensures Scaled(d, places) as real == Value(d) * Ten(places) as real
  {
    hide Ten;
    if d.exponent >= 0 {
      TenAdds(d.exponent, places);
      ProductAsReal(d.coefficient, Ten(d.exponent), Ten(places));
    } else {
      var less: nat := d.exponent + places;
      TenAdds(less, -d.exponent);
      assert places == less + -d.exponent;
      QuotientTimes(d.coefficient, Ten(less), Ten(-d.exponent));
    }
  }

  lemma ProductAsReal(a: int, b: nat, c: nat)
    ensures (a * (b * c)) as real == (a * b) as real * c as real
  {
    assert a * (b * c) == a * b * c;
  }

  lemma QuotientTimes(a: int, b: nat, c: nat)
    requires c > 0
    ensures (a * b) as real == a as real / c as real * (b * c) as real
  {
    var x, y, z := a as real, b as real, c as real;
    assert (a * b) as real == x * y && (b * c) as real == y * z;
    assert x / z * (y * z) == x / z * z * y;
  }

  lemma SignOfValue(d: Decimal)
    ensures Value(d) > 0.0 <==> d.coefficient > 0
  {
    if d.exponent >= 0 {
      SignOfProduct(d.coefficient, Ten(d.exponent));
    } else {
      SignOfQuotient(d.coefficient as real, Ten(-d.exponent) as real);
    }
  }

  lemma SignOfProduct(a: int, b: nat)
    requires b > 0
    ensures a * b > 0 <==> a > 0
  {
  }

  lemma SignOfQuotient(a: real, b: real)
    requires b > 0.0
    ensures a / b > 0.0 <==> a > 0.0
  {
    var q := a / b;
    assert q * b == a;
  }

  // ---------------------------------------------------------------- multiples

  /** `x` is a whole number of steps of `t`. */
  ghost predicate Multiple(x: real, t: real) {
    exists k: int :: x == Steps(k, t)
  }

  function Steps(k: int, t: real): real {
    k as real * t
  }

  lemma StepsAdd(a: int, b: int, t: real)
    ensures Steps(a, t) + Steps(b, t) == Steps(a + b, t)
    ensures Steps(-a, t) == -Steps(a, t)
  {
  }

  lemma StepsOfSteps(a: int, b: int, t: real)
    ensures Steps(a, Steps(b, t)) == Steps(a * b, t)
  {
    assert (a * b) as real == a as real * b as real;
  }

  lemma MultipleCombines(x: real, y: real, n: int, t: real)
    requires Multiple(x, t) && Multiple(y, t)
    ensures Multiple(x + Steps(n, y), t)
  {
    var a: int :| x == Steps(a, t);
    var b: int :| y == Steps(b, t);
    StepsOfSteps(n, b, t);
    StepsAdd(a, n * b, t);
  }

  lemma MultipleOfMultiple(x: real, y: real, t: real)
    requires Multiple(x, y) && Multiple(y, t)
    ensures Multiple(x, t)
  {
    var a: int :| x == Steps(a, y);
    var b: int :| y == Steps(b, t);
    StepsOfSteps(a, b, t);
  }

  lemma MultiplesOfEachOther(x: real, y: real)
    requires x > 0.0 && y > 0.0 && Multiple(x, y) && Multiple(y, x)
    ensures x == y
  {
    MultipleIsNoSmaller(x, y);
    MultipleIsNoSmaller(y, x);
  }

  lemma MultipleIsNoSmaller(x: real, y: real)
    requires x > 0.0 && y > 0.0 && Multiple(x, y)
    ensures x >= y
  {
    var a: int :| x == Steps(a, y);
    NoStepsNoSize(a, y);
    assert (a - 1) as real * y >= 0.0;
  }

  lemma NoStepsNoSize(a: int, y: real)
    requires y > 0.0
    ensures a <= 0 ==> Steps(a, y) <= 0.0
  {
  }

  // ---------------------------------------------------------------- Euclid

  function Gcd(a: nat, b: nat): (r: nat)
    ensures a > 0 || b > 0 ==> r > 0
    decreases b
  {
    if b == 0 then a else Gcd(b, a % b)
  }

  /** Divides both, and every common step of both, whole or not, divides it. */
  lemma {:induction false} GcdIsGreatest(a: nat, b: nat, unit: real, t: real)
    ensures Multiple(Steps(a, unit), Steps(Gcd(a, b), unit)) && Multiple(Steps(b, unit), Steps(Gcd(a, b), unit))
    ensures Multiple(Steps(a, unit), t) && Multiple(Steps(b, unit), t) ==> Multiple(Steps(Gcd(a, b), unit), t)
    decreases b
  {
    hide Steps, Multiple;
    var g := Steps(Gcd(a, b), unit);
    if b == 0 {
      WholeAndNone(Steps(a, unit), unit);
    } else {
      var q, r := a / b, a % b;
      GcdIsGreatest(b, r, unit, t);
      Remainder(a, b, unit);
      MultipleCombines(Steps(r, unit), Steps(b, unit), q, g);
      if Multiple(Steps(a, unit), t) && Multiple(Steps(b, unit), t) {
        MultipleCombines(Steps(a, unit), Steps(b, unit), -q, t);
      }
    }
  }

  lemma WholeAndNone(x: real, unit: real)
    ensures Multiple(x, x) && Multiple(Steps(0, unit), x)
  {
    assert x == Steps(1, x) && Steps(0, unit) == Steps(0, x);
  }

  lemma Remainder(a: nat, b: nat, unit: real)
    requires b > 0
    ensures Steps(a, unit) == Steps(a % b, unit) + Steps(a / b, Steps(b, unit))
    ensures Steps(a % b, unit) == Steps(a, unit) + Steps(-(a / b), Steps(b, unit))
  {
    hide Steps;
    var q := a / b;
    StepsOfSteps(q, b, unit);
    StepsOfSteps(-q, b, unit);
    assert q * b + a % b == a;
    StepsAdd(a % b, q * b, unit);
    StepsAdd(a, -q * b, unit);
  }

  // ---------------------------------------------------------------- the grid of a sample

  function MaxPlaces(values: seq<Decimal>): (p: nat)
    ensures forall i | 0 <= i < |values| :: p >= Places(values[i])
  {
    if values == [] then 0
    else
      var p, last := MaxPlaces(values[..|values| - 1]), Places(values[|values| - 1]);
      if last > p then last else p
  }

  predicate AllPositive(values: seq<Decimal>) {
    forall i | 0 <= i < |values| :: values[i].coefficient > 0
  }

  /** The divisor of the scaled values, folded left to right. */
  function Common(values: seq<Decimal>, places: nat): (g: nat)
    requires values != [] && AllPositive(values) && places >= MaxPlaces(values)
    ensures g > 0
  {
    var n := |values| - 1;
    assert values[n].coefficient > 0 && places >= Places(values[n]);
    var last := ScaledPositive(values[n], places);
    if n == 0 then last
    else Gcd(Common(values[..n], places), last)
  }

  function ScaledPositive(d: Decimal, places: nat): (n: nat)
    requires places >= Places(d) && d.coefficient > 0
    ensures n == Scaled(d, places) > 0
  {
    SignOfProduct(d.coefficient, Ten(d.exponent + places));
    Scaled(d, places)
  }

  /** Plain notation without trailing zeros after the point. */
  function Plain(coefficient: nat, places: nat): Decimal {
    if places > 0 && coefficient % 10 == 0 then Plain(coefficient / 10, places - 1)
    else Decimal(coefficient, 0 - places)
  }

  predicate IsPlain(d: Decimal) {
    d.exponent <= 0 && (d.exponent < 0 ==> d.coefficient % 10 != 0)
  }

  function FirstNonPositive(values: seq<Decimal>): Option<Decimal> {
    if values == [] then None
    else if values[0].coefficient <= 0 then Some(values[0])
    else FirstNonPositive(values[1..])
  }

  lemma {:induction false} FirstNonPositiveIsExact(values: seq<Decimal>)
    ensures FirstNonPositive(values).None? <==> AllPositive(values)
  {
    if values != [] {
      FirstNonPositiveIsExact(values[1..]);
      if AllPositive(values[1..]) && values[0].coefficient > 0 {
        assert values == [values[0]] + values[1..];
      }
    }
  }

  function DecimalGcd(values: seq<Decimal>): Result<Decimal, GridError> {
    if values == [] then Err(NoValues)
    else
      FirstNonPositiveIsExact(values);
      match FirstNonPositive(values)
      case Some(value) => Err(NonPositive(value))
      case None =>
        var places := MaxPlaces(values);
        Ok(Plain(Common(values, places), places))
  }

  /** One unit in the last scaled place. */
  function Unit(places: nat): real {
    1.0 / Ten(places) as real
  }

  lemma ValueIsSteps(d: Decimal, places: nat)
    requires places >= Places(d)
    ensures Value(d) == Steps(Scaled(d, places), Unit(places))
  {
    ScaledIsExact(d, places);
    hide Ten, Scaled;
    DivideOut(Value(d), Scaled(d, places), Ten(places) as real);
  }

  lemma DivideOut(x: real, n: int, y: real)
    requires y != 0.0 && n as real == x * y
    ensures x == Steps(n, 1.0 / y)
  {
    assert x * y * (1.0 / y) == x * (y * (1.0 / y));
  }

  ghost predicate AllMultiples(values: seq<Decimal>, t: real) {
    forall i | 0 <= i < |values| :: Multiple(Value(values[i]), t)
  }

  lemma {:induction false} CommonIsGreatest(values: seq<Decimal>, places: nat, t: real)
    requires values != [] && AllPositive(values) && places >= MaxPlaces(values)
    ensures AllMultiples(values, Steps(Common(values, places), Unit(places)))
    ensures AllMultiples(values, t) ==> Multiple(Steps(Common(values, places), Unit(places)), t)
  {
    hide Multiple, Steps, Gcd, Unit, Value, Scaled;
    var n := |values| - 1;
    var last, unit := ScaledPositive(values[n], places), Unit(places);
    var g := Steps(Common(values, places), unit);
    ValueIsSteps(values[n], places);
    if n == 0 {
      WholeAndNone(g, unit);
    } else {
      var init := values[..n];
      CommonIsGreatest(init, places, t);
      GcdIsGreatest(Common(init, places), last, unit, t);
      forall i | 0 <= i < n ensures Multiple(Value(values[i]), g) {
        assert init[i] == values[i];
        MultipleOfMultiple(Value(values[i]), Steps(Common(init, places), unit), g);
      }
    }
  }

  lemma {:induction false} PlainIsExact(coefficient: nat, places: nat)
    ensures Value(Plain(coefficient, places)) == Steps(coefficient, Unit(places))
    ensures IsPlain(Plain(coefficient, places))
  {
    hide Value, Unit, Steps;
    if places > 0 && coefficient % 10 == 0 {
      PlainIsExact(coefficient / 10, places - 1);
      CoarserUnit(coefficient, places);
    } else {
      ValueInUnits(coefficient, places);
    }
  }

  lemma ValueInUnits(coefficient: nat, places: nat)
    ensures Value(Decimal(coefficient, 0 - places)) == Steps(coefficient, Unit(places))
  {
    assert Ten(0) == 1;
    hide Ten;
    DivideOut(coefficient as real / Ten(places) as real, coefficient, Ten(places) as real);
  }

  lemma CoarserUnit(coefficient: nat, places: nat)
    requires places > 0 && coefficient % 10 == 0
    ensures Steps(coefficient / 10, Unit(places - 1)) == Steps(coefficient, Unit(places))
  {
    assert Ten(places) == 10 * Ten(places - 1);
    hide Ten, Steps;
    TenthOf(coefficient, Ten(places - 1) as real);
  }

  lemma TenthOf(c: nat, y: real)
    requires c % 10 == 0 && y > 0.0
    ensures Steps(c / 10, 1.0 / y) == Steps(c, 1.0 / (10.0 * y))
  {
    assert c == c / 10 * 10;
    assert 10.0 * (1.0 / (10.0 * y)) == 1.0 / y;
  }

  /** Two plain decimals of the same value are written the same. */
  lemma {:induction false} PlainIsUnique(a: Decimal, b: Decimal)
    requires IsPlain(a) && IsPlain(b) && Value(a) == Value(b)
    ensures a == b
  {
    hide Value, Ten, Scaled;
    var p := if Places(a) < Places(b) then Places(b) else Places(a);
    ScaledIsExact(a, p);
    ScaledIsExact(b, p);
    if Places(a) < Places(b) {
      FinerIsNotPlain(a, b, p);
    } else if Places(b) < Places(a) {
      FinerIsNotPlain(b, a, p);
    } else {
      PlainScaled(a);
      PlainScaled(b);
    }
  }

  lemma PlainScaled(d: Decimal)
    requires IsPlain(d)
    ensures Scaled(d, Places(d)) == d.coefficient
  {
    assert Ten(0) == 1;
  }

  lemma FinerIsNotPlain(a: Decimal, b: Decimal, p: nat)
    requires IsPlain(a) && IsPlain(b) && p == Places(b) > Places(a)
    ensures Scaled(a, p) != Scaled(b, p)
  {
    PlainScaled(b);
    var shift := a.exponent + p;
    assert Ten(shift) == 10 * Ten(shift - 1);
    TenTimes(a.coefficient, Ten(shift - 1));
  }

  lemma TenTimes(a: int, b: nat)
    ensures (a * (10 * b)) % 10 == 0
  {
    assert a * (10 * b) == 10 * (a * b);
  }

  // ---------------------------------------------------------------- what the grid is

  /** The grid of a positive sample: it divides every observation, and whatever step divides
      every observation divides it. A true grid is therefore never underestimated. */
  lemma {:induction false} GridIsGreatest(values: seq<Decimal>, t: real)
    requires values != [] && AllPositive(values)
    ensures DecimalGcd(values).Ok?
    ensures var grid := DecimalGcd(values).value;
            && IsPlain(grid) && Value(grid) > 0.0
            && AllMultiples(values, Value(grid))
            && (AllMultiples(values, t) ==> Multiple(Value(grid), t))
  {
    hide AllMultiples, Value, Steps, Unit, Common, Gcd;
    FirstNonPositiveIsExact(values);
    var places := MaxPlaces(values);
    var common := Common(values, places);
    CommonIsGreatest(values, places, t);
    PlainIsExact(common, places);
    StepsArePositive(common, places);
  }

  lemma StepsArePositive(n: nat, places: nat)
    requires n > 0
    ensures Steps(n, Unit(places)) > 0.0
  {
    SignOfQuotient(1.0, Ten(places) as real);
    var u := Unit(places);
    assert (n - 1) as real * u >= 0.0;
  }

  function ValueSet(values: seq<Decimal>): set<real> {
    set i | 0 <= i < |values| :: Value(values[i])
  }

  /** Exactly which samples are refused. */
  lemma {:induction false} RefusalIsExact(values: seq<Decimal>)
    ensures DecimalGcd(values) == Err(NoValues) <==> values == []
    ensures DecimalGcd(values).Ok? <==> values != [] && forall x | x in ValueSet(values) :: x > 0.0
  {
    FirstNonPositiveIsExact(values);
    forall i | 0 <= i < |values| ensures Value(values[i]) > 0.0 <==> values[i].coefficient > 0 {
      SignOfValue(values[i]);
    }
    hide Value, Common, Plain;
    if values != [] && !AllPositive(values) {
      var i :| 0 <= i < |values| && values[i].coefficient <= 0;
      assert Value(values[i]) in ValueSet(values);
    }
  }

  lemma MultiplesBySet(a: seq<Decimal>, b: seq<Decimal>, t: real)
    requires AllMultiples(a, t) && ValueSet(b) <= ValueSet(a)
    ensures AllMultiples(b, t)
  {
    hide Value, Multiple;
    forall i | 0 <= i < |b| ensures Multiple(Value(b[i]), t) {
      assert Value(b[i]) in ValueSet(b);
    }
  }

  /** Order, repeats and trailing zeros do not matter: only the set of numbers observed does. */
  lemma {:induction false} GridIgnoresPresentation(a: seq<Decimal>, b: seq<Decimal>)
    requires DecimalGcd(a).Ok? && ValueSet(a) == ValueSet(b)
    ensures DecimalGcd(b) == DecimalGcd(a)
  {
    RefusalIsExact(a);
    RefusalIsExact(b);
    NoValuesNoSet(a);
    NoValuesNoSet(b);
    FirstNonPositiveIsExact(a);
    FirstNonPositiveIsExact(b);
    hide DecimalGcd, ValueSet, Multiple, AllMultiples, Value;
    SubgridDivides(a, b);
    SubgridDivides(b, a);
    MultiplesOfEachOther(Value(DecimalGcd(a).value), Value(DecimalGcd(b).value));
    PlainIsUnique(DecimalGcd(a).value, DecimalGcd(b).value);
  }

  lemma OkIsPositive(values: seq<Decimal>)
    ensures DecimalGcd(values).Ok? <==> values != [] && AllPositive(values)
  {
    FirstNonPositiveIsExact(values);
  }

  lemma NoValuesNoSet(values: seq<Decimal>)
    ensures values == [] <==> ValueSet(values) == {}
  {
    if values != [] {
      assert Value(values[0]) in ValueSet(values);
    }
  }

  /** More observations can only refine the grid. */
  lemma {:induction false} SubgridDivides(all: seq<Decimal>, some: seq<Decimal>)
    requires DecimalGcd(all).Ok? && DecimalGcd(some).Ok? && ValueSet(some) <= ValueSet(all)
    ensures Value(DecimalGcd(all).value) > 0.0 && Value(DecimalGcd(some).value) > 0.0
    ensures IsPlain(DecimalGcd(all).value) && IsPlain(DecimalGcd(some).value)
    ensures Multiple(Value(DecimalGcd(some).value), Value(DecimalGcd(all).value))
  {
    OkIsPositive(all);
    OkIsPositive(some);
    hide DecimalGcd, ValueSet, Multiple, AllMultiples, Value;
    var grid := Value(DecimalGcd(all).value);
    GridIsGreatest(all, grid);
    MultiplesBySet(all, some, grid);
    GridIsGreatest(some, grid);
  }

  // ---------------------------------------------------------------- estimates and windows

  const MIN_DISTINCT_VALUES: nat := 20

  /** A grid with the distinct numbers that support it. */
  datatype GridEstimate = GridEstimate(value: Decimal, values: seq<Decimal>, samples: nat)

  datatype WindowEstimate = WindowEstimate(symbol: string, date: string, tick: GridEstimate, step: GridEstimate) {
    function Field(field: GridField): GridEstimate {
      if field.Tick? then tick else step
    }
  }

  datatype GridField = Tick | Step

  datatype SymbolMeta = SymbolMeta(
    symbol: string, tickSize: Decimal, stepSize: Decimal, trades: nat,
    distinctPrices: nat, distinctQuantities: nat, confident: bool)

  datatype CombineError = NoWindows | DifferentSymbols | Disagreement(field: GridField) | Ungridded(error: GridError)

  /** One representative of each number, the first seen. */
  function Unique(values: seq<Decimal>): seq<Decimal> {
    if values == [] then []
    else
      var before, last := Unique(values[..|values| - 1]), values[|values| - 1];
      if Value(last) in ValueSet(before) then before else before + [last]
  }

  lemma {:induction false} UniqueKeepsNumbers(values: seq<Decimal>)
    ensures ValueSet(Unique(values)) == ValueSet(values) && |Unique(values)| == |ValueSet(values)|
  {
    hide Value;
    if values == [] {
      NoValuesNoSet([]);
    } else {
      var init, last := values[..|values| - 1], values[|values| - 1];
      UniqueKeepsNumbers(init);
      ValueSetGrows(init, last);
      ValueSetGrows(Unique(init), last);
      assert values == init + [last];
    }
  }

  lemma ValueSetGrows(values: seq<Decimal>, last: Decimal)
    ensures ValueSet(values + [last]) == ValueSet(values) + {Value(last)}
  {
    hide Value;
    var all := values + [last];
    forall x ensures x in ValueSet(all) <==> x in ValueSet(values) || x == Value(last) {
      assert all[|values|] == last;
      if x in ValueSet(values) {
        var i :| 0 <= i < |values| && Value(values[i]) == x;
        assert all[i] == values[i];
      }
    }
  }

  function EstimateGrid(values: seq<Decimal>): Result<GridEstimate, GridError> {
    match DecimalGcd(Unique(values))
    case Err(error) => Err(error)
    case Ok(grid) => Ok(GridEstimate(grid, Unique(values), |values|))
  }

  /** The evidence counts numbers, not spellings, and the grid is that of the whole sample. */
  lemma {:induction false} EstimateIsOfTheSample(values: seq<Decimal>)
    ensures EstimateGrid(values).Ok? <==> DecimalGcd(values).Ok?
    ensures EstimateGrid(values).Ok? ==> var e := EstimateGrid(values).value;
              DecimalGcd(values) == Ok(e.value) == DecimalGcd(e.values) && |e.values| == |ValueSet(values)|
  {
    UniqueKeepsNumbers(values);
    RefusalIsExact(values);
    RefusalIsExact(Unique(values));
    NoValuesNoSet(values);
    NoValuesNoSet(Unique(values));
    hide DecimalGcd, ValueSet, Unique;
    if DecimalGcd(values).Ok? {
      GridIgnoresPresentation(values, Unique(values));
    }
  }

  function Observed(windows: seq<WindowEstimate>, field: GridField): seq<Decimal> {
    if windows == [] then []
    else Observed(windows[..|windows| - 1], field) + windows[|windows| - 1].Field(field).values
  }

  function Samples(windows: seq<WindowEstimate>): nat {
    if windows == [] then 0 else Samples(windows[..|windows| - 1]) + windows[|windows| - 1].tick.samples
  }

  predicate SameSymbol(windows: seq<WindowEstimate>) {
    forall i | 0 <= i < |windows| :: windows[i].symbol == windows[0].symbol
  }

  predicate SameGrid(windows: seq<WindowEstimate>, field: GridField) {
    forall i | 0 <= i < |windows| :: windows[i].Field(field).value == windows[0].Field(field).value
  }

  /** Evidence pooled by union, once every window agrees. */
  function Pooled(windows: seq<WindowEstimate>, field: GridField): Result<GridEstimate, GridError> {
    var union := Unique(Observed(windows, field));
    match DecimalGcd(union)
    case Err(error) => Err(error)
    case Ok(grid) => Ok(GridEstimate(grid, union, Samples(windows)))
  }

  function Combine(windows: seq<WindowEstimate>): Result<SymbolMeta, CombineError> {
    if windows == [] then Err(NoWindows)
    else if !SameSymbol(windows) then Err(DifferentSymbols)
    else if !SameGrid(windows, Tick) then Err(Disagreement(Tick))
    else if !SameGrid(windows, Step) then Err(Disagreement(Step))
    else
      match Pooled(windows, Tick)
      case Err(error) => Err(Ungridded(error))
      case Ok(tick) =>
        match Pooled(windows, Step)
        case Err(error) => Err(Ungridded(error))
        case Ok(step) =>
          Ok(SymbolMeta(windows[0].symbol, tick.value, step.value, Samples(windows), |tick.values|, |step.values|,
                        |tick.values| >= MIN_DISTINCT_VALUES && |step.values| >= MIN_DISTINCT_VALUES && |windows| >= 2))
  }

  /** An estimate as `EstimateGrid` makes it. */
  predicate Supported(e: GridEstimate) {
    DecimalGcd(e.values) == Ok(e.value)
  }

  lemma {:induction false} ObservedIsUnion(windows: seq<WindowEstimate>, field: GridField, i: nat)
    requires i < |windows|
    ensures ValueSet(windows[i].Field(field).values) <= ValueSet(Observed(windows, field))
  {
    var n := |windows| - 1;
    var before, last := Observed(windows[..n], field), windows[n].Field(field).values;
    SetOfConcat(before, last);
    if i < n {
      ObservedIsUnion(windows[..n], field, i);
    }
    hide ValueSet;
  }

  lemma SetOfConcat(a: seq<Decimal>, b: seq<Decimal>)
    ensures ValueSet(a + b) == ValueSet(a) + ValueSet(b)
  {
    hide Value;
    var all := a + b;
    forall x ensures x in ValueSet(all) <==> x in ValueSet(a) || x in ValueSet(b) {
      if x in ValueSet(a) {
        var i :| 0 <= i < |a| && Value(a[i]) == x;
        assert all[i] == a[i];
      }
      if x in ValueSet(b) {
        var i :| 0 <= i < |b| && Value(b[i]) == x;
        assert all[|a| + i] == b[i];
      }
    }
  }

  lemma {:induction false} ObservedArePositive(windows: seq<WindowEstimate>, field: GridField, t: real)
    requires forall i | 0 <= i < |windows| ::
               AllPositive(windows[i].Field(field).values) && AllMultiples(windows[i].Field(field).values, t)
    ensures AllPositive(Observed(windows, field)) && AllMultiples(Observed(windows, field), t)
  {
    hide Multiple, Value;
    if windows != [] {
      var n := |windows| - 1;
      ObservedArePositive(windows[..n], field, t);
      assert windows[n].Field(field).values == windows[n].Field(field).values[..];
    }
  }

  /** Pooling agreeing windows gives the value each of them gave, over the union of their numbers. */
  lemma {:induction false} PoolingKeepsTheGrid(windows: seq<WindowEstimate>, field: GridField)
    requires windows != [] && SameGrid(windows, field)
    requires forall i | 0 <= i < |windows| :: Supported(windows[i].Field(field))
    ensures Pooled(windows, field).Ok?
    ensures Pooled(windows, field).value.value == windows[0].Field(field).value
    ensures |Pooled(windows, field).value.values| == |ValueSet(Observed(windows, field))|
  {
    var first, all := windows[0].Field(field), Observed(windows, field);
    var union := Unique(all);
    var grid := Value(first.value);
    forall i | 0 <= i < |windows|
      ensures AllPositive(windows[i].Field(field).values) && AllMultiples(windows[i].Field(field).values, grid)
    {
      OkIsPositive(windows[i].Field(field).values);
      GridIsGreatest(windows[i].Field(field).values, grid);
      assert windows[i].Field(field).value == first.value;
    }
    ObservedArePositive(windows, field, grid);
    ObservedIsUnion(windows, field, 0);
    UniqueKeepsNumbers(all);
    hide ValueSet, Multiple, AllMultiples, Value, Unique, Observed;
    GridIsOfUnion(all, first, union, grid);
  }

  lemma GridIsOfUnion(all: seq<Decimal>, first: GridEstimate, union: seq<Decimal>, grid: real)
    requires Supported(first) && grid == Value(first.value) && union == Unique(all)
    requires AllPositive(all) && AllMultiples(all, grid) && ValueSet(first.values) <= ValueSet(all)
    ensures DecimalGcd(union) == Ok(first.value)
  {
    UniqueKeepsNumbers(all);
    OkIsPositive(first.values);
    OkIsPositive(all);
    OkIsPositive(union);
    RefusalIsExact(all);
    RefusalIsExact(union);
    NoValuesNoSet(all);
    NoValuesNoSet(union);
    NoValuesNoSet(first.values);
    hide ValueSet, Multiple, AllMultiples, Value, Unique, DecimalGcd, AllPositive;
    MultiplesBySet(all, union, grid);
    GridIsGreatest(union, grid);
    SubgridDivides(union, first.values);
    MultiplesOfEachOther(Value(DecimalGcd(union).value), grid);
    PlainIsUnique(DecimalGcd(union).value, first.value);
  }

  /** Windows combine exactly when they agree, and then into the grids they agree on. */
  lemma {:induction false} CombineIsExact(windows: seq<WindowEstimate>)
    requires forall i | 0 <= i < |windows| :: Supported(windows[i].tick) && Supported(windows[i].step)
    ensures Combine(windows).Ok?
       <==> windows != [] && SameSymbol(windows) && SameGrid(windows, Tick) && SameGrid(windows, Step)
    ensures Combine(windows).Ok? ==> forall i | 0 <= i < |windows| ::
              windows[i].tick.value == Combine(windows).value.tickSize
              && windows[i].step.value == Combine(windows).value.stepSize
              && windows[i].symbol == Combine(windows).value.symbol
    ensures Combine(windows).Ok? ==>
              Combine(windows).value.distinctPrices == |ValueSet(Observed(windows, Tick))|
              && Combine(windows).value.distinctQuantities == |ValueSet(Observed(windows, Step))|
  {
    if windows != [] && SameGrid(windows, Tick) && SameGrid(windows, Step) {
      PoolingKeepsTheGrid(windows, Tick);
      PoolingKeepsTheGrid(windows, Step);
    }
    hide Pooled, Observed, ValueSet, Supported;
  }

  /** The record of windows that combine: its trades are counted by the price samples, window by
      window, and it is trusted exactly with enough numbers of each kind and a second window. */
  lemma {:induction false} RecordIsItsWindows(windows: seq<WindowEstimate>, w: WindowEstimate)
    ensures Combine([w]).Ok? ==> Combine([w]).value.trades == w.tick.samples && !Combine([w]).value.confident
    ensures Combine(windows).Ok? && Combine(windows + [w]).Ok? ==>
              var m := Combine(windows + [w]).value;
              && m.trades == Combine(windows).value.trades + w.tick.samples
              && (m.confident <==> m.distinctPrices >= 20 && m.distinctQuantities >= 20)
  {
    hide Pooled, SameGrid, SameSymbol;
    assert (windows + [w])[..|windows|] == windows;
    assert [w][..0] == [] && Samples([]) == 0;
  }

  // ---------------------------------------------------------------- from the trades to the record

  datatype Trade = Trade(price: Decimal, quantity: Decimal) {
    function Field(field: GridField): Decimal {
      if field.Tick? then price else quantity
    }
  }

  datatype Day = Day(date: string, trades: seq<Trade>)

  function Values(trades: seq<Trade>, field: GridField): (r: seq<Decimal>)
    ensures |r| == |trades|
  {
    seq(|trades|, i requires 0 <= i < |trades| => trades[i].Field(field))
  }

  function EstimateWindow(symbol: string, day: Day): Result<WindowEstimate, GridError> {
    match EstimateGrid(Values(day.trades, Tick))
    case Err(error) => Err(error)
    case Ok(tick) =>
      match EstimateGrid(Values(day.trades, Step))
      case Err(error) => Err(error)
      case Ok(step) => Ok(WindowEstimate(symbol, day.date, tick, step))
  }

  /** Every trade of every day, in order. */
  function AllTrades(days: seq<Day>): seq<Trade> {
    if days == [] then [] else AllTrades(days[..|days| - 1]) + days[|days| - 1].trades
  }

  /** Every day has trades, all at positive prices and in positive quantities. */
  predicate Usable(days: seq<Day>) {
    forall i | 0 <= i < |days| :: UsableDay(days[i])
  }

  predicate UsableDay(day: Day) {
    day.trades != []
    && forall j | 0 <= j < |day.trades| :: day.trades[j].price.coefficient > 0 && day.trades[j].quantity.coefficient > 0
  }

  /** The days taken one at a time have one grid. */
  predicate Agree(days: seq<Day>, field: GridField) {
    forall i | 0 <= i < |days| ::
      DecimalGcd(Values(days[i].trades, field)) == DecimalGcd(Values(days[0].trades, field))
  }

  predicate Fits(symbol: string, day: Day, w: WindowEstimate, field: GridField) {
    && w.symbol == symbol
    && Supported(w.Field(field))
    && DecimalGcd(Values(day.trades, field)) == Ok(w.Field(field).value)
    && ValueSet(w.Field(field).values) == ValueSet(Values(day.trades, field))
    && w.Field(field).samples == |day.trades|
  }

  lemma WindowFits(symbol: string, day: Day)
    ensures EstimateWindow(symbol, day).Ok? <==> UsableDay(day)
    ensures EstimateWindow(symbol, day).Ok? ==>
              Fits(symbol, day, EstimateWindow(symbol, day).value, Tick)
              && Fits(symbol, day, EstimateWindow(symbol, day).value, Step)
  {
    var prices, quantities := Values(day.trades, Tick), Values(day.trades, Step);
    EstimateIsOfTheSample(prices);
    EstimateIsOfTheSample(quantities);
    UniqueKeepsNumbers(prices);
    UniqueKeepsNumbers(quantities);
    OkIsPositive(prices);
    OkIsPositive(quantities);
    ValuesArePositive(day.trades);
    hide DecimalGcd, ValueSet, Unique, AllPositive;
  }

  lemma ValuesArePositive(trades: seq<Trade>)
    ensures AllPositive(Values(trades, Tick)) && AllPositive(Values(trades, Step))
       <==> forall j | 0 <= j < |trades| :: trades[j].price.coefficient > 0 && trades[j].quantity.coefficient > 0
  {
    var prices, quantities := Values(trades, Tick), Values(trades, Step);
    if AllPositive(prices) && AllPositive(quantities) {
      forall j | 0 <= j < |trades| ensures trades[j].price.coefficient > 0 && trades[j].quantity.coefficient > 0 {
        assert prices[j].coefficient > 0 && quantities[j].coefficient > 0;
      }
    }
  }

  ghost predicate AllFit(symbol: string, days: seq<Day>, windows: seq<WindowEstimate>) {
    && |windows| == |days|
    && (forall i | 0 <= i < |days| :: Fits(symbol, days[i], windows[i], Tick))
    && (forall i | 0 <= i < |days| :: Fits(symbol, days[i], windows[i], Step))
  }

  lemma {:induction false} PooledAreAllTrades(symbol: string, days: seq<Day>, windows: seq<WindowEstimate>, field: GridField)
    requires AllFit(symbol, days, windows)
    ensures ValueSet(Observed(windows, field)) == ValueSet(Values(AllTrades(days), field))
    ensures Samples(windows) == |AllTrades(days)|
  {
    hide ValueSet, DecimalGcd;
    if days == [] {
      assert Values([], field) == [];
    } else {
      var n := |days| - 1;
      PooledAreAllTrades(symbol, days[..n], windows[..n], field);
      assert Fits(symbol, days[n], windows[n], field) && Fits(symbol, days[n], windows[n], Tick);
      SetOfConcat(Observed(windows[..n], field), windows[n].Field(field).values);
      SetOfConcat(Values(AllTrades(days[..n]), field), Values(days[n].trades, field));
      assert Values(AllTrades(days), field) == Values(AllTrades(days[..n]), field) + Values(days[n].trades, field);
    }
  }

  lemma GridsAgree(symbol: string, days: seq<Day>, windows: seq<WindowEstimate>, field: GridField)
    requires AllFit(symbol, days, windows)
    ensures Agree(days, field) <==> SameGrid(windows, field)
  {
    hide DecimalGcd, ValueSet, Supported;
    forall i | 0 <= i < |days|
      ensures DecimalGcd(Values(days[i].trades, field)) == Ok(windows[i].Field(field).value)
    {
      assert Fits(symbol, days[i], windows[i], Tick) && Fits(symbol, days[i], windows[i], Step);
    }
    if SameGrid(windows, field) {
      forall i | 0 <= i < |days|
        ensures DecimalGcd(Values(days[i].trades, field)) == DecimalGcd(Values(days[0].trades, field))
      {
        assert windows[i].Field(field).value == windows[0].Field(field).value;
      }
    }
    if Agree(days, field) {
      forall i | 0 <= i < |windows| ensures windows[i].Field(field).value == windows[0].Field(field).value {
        assert DecimalGcd(Values(days[i].trades, field)) == DecimalGcd(Values(days[0].trades, field));
      }
    }
  }

  /** The grid of one field over every trade of every day. */
  lemma PooledGrid(symbol: string, days: seq<Day>, windows: seq<WindowEstimate>, field: GridField)
    requires days != [] && AllFit(symbol, days, windows) && SameGrid(windows, field)
    ensures Pooled(windows, field).Ok?
    ensures DecimalGcd(Values(AllTrades(days), field)) == Ok(Pooled(windows, field).value.value)
    ensures |Pooled(windows, field).value.values| == |ValueSet(Values(AllTrades(days), field))|
  {
    forall i | 0 <= i < |windows| ensures Supported(windows[i].Field(field)) {
      assert Fits(symbol, days[i], windows[i], Tick) && Fits(symbol, days[i], windows[i], Step);
    }
    PoolingKeepsTheGrid(windows, field);
    PooledAreAllTrades(symbol, days, windows, field);
    UniqueKeepsNumbers(Observed(windows, field));
    hide DecimalGcd, ValueSet, Unique, AllFit, SameGrid, Observed;
    GridIgnoresPresentation(Unique(Observed(windows, field)), Values(AllTrades(days), field));
  }

  /** The record of a symbol is that of all its trades together. It is refused exactly when there
      is no day, a day is empty or holds a non-positive number, or two days have different grids. */
  method Derive(symbol: string, days: seq<Day>) returns (r: Result<SymbolMeta, CombineError>)
    ensures r.Ok? <==> days != [] && Usable(days) && Agree(days, Tick) && Agree(days, Step)
    ensures r.Ok? ==> var all := AllTrades(days);
              && r.value.symbol == symbol
              && DecimalGcd(Values(all, Tick)) == Ok(r.value.tickSize)
              && DecimalGcd(Values(all, Step)) == Ok(r.value.stepSize)
              && r.value.trades == |all|
              && r.value.distinctPrices == |ValueSet(Values(all, Tick))|
              && r.value.distinctQuantities == |ValueSet(Values(all, Step))|
              && (r.value.confident <==>
                  |days| >= 2 && |ValueSet(Values(all, Tick))| >= 20 && |ValueSet(Values(all, Step))| >= 20)
    ensures days != [] && Usable(days) && !Agree(days, Tick) ==> r == Err(Disagreement(Tick))
    ensures days != [] && Usable(days) && Agree(days, Tick) && !Agree(days, Step) ==> r == Err(Disagreement(Step))
  {
    hide Fits, DecimalGcd, ValueSet, Values, AllTrades, UsableDay, Supported, EstimateWindow, Samples, SameGrid, Agree, Pooled;
    var windows: seq<WindowEstimate> := [];
    for i := 0 to |days|
      invariant AllFit(symbol, days[..i], windows) && Usable(days[..i])
    {
      WindowFits(symbol, days[i]);
      var w := EstimateWindow(symbol, days[i]);
      if w.Err? {
        assert !Usable(days);
        return Err(Ungridded(w.error));
      }
      windows := windows + [w.value];
    }
    assert days[..|days|] == days;
    GridsAgree(symbol, days, windows, Tick);
    GridsAgree(symbol, days, windows, Step);
    SymbolsAgree(symbol, days, windows);
    if days != [] && SameGrid(windows, Tick) && SameGrid(windows, Step) {
      PooledGrid(symbol, days, windows, Tick);
      PooledGrid(symbol, days, windows, Step);
      PooledAreAllTrades(symbol, days, windows, Tick);
    }
    r := Combine(windows);
  }

  lemma SymbolsAgree(symbol: string, days: seq<Day>, windows: seq<WindowEstimate>)
    requires AllFit(symbol, days, windows)
    ensures SameSymbol(windows) && (windows != [] ==> windows[0].symbol == symbol)
  {
    hide DecimalGcd, ValueSet, Values, Supported;
    forall i | 0 <= i < |windows| ensures windows[i].symbol == symbol {
      assert Fits(symbol, days[i], windows[i], Tick);
    }
  }
}
