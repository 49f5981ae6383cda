/** The price-level book: two vectors kept best-first, updated by binary search. */
module OrderBook {
  import opened Wrappers

  datatype Side = Bid | Ask

  datatype Level = Level(price: real, quantity: real)

  datatype Book = Book(bids: seq<Level>, asks: seq<Level>) {
    function Levels(side: Side): seq<Level> {
      if side.Bid? then bids else asks
    }

    function With(side: Side, levels: seq<Level>): Book {
      if side.Bid? then this.(bids := levels) else this.(asks := levels)
    }

    predicate Crossed() {
      |bids| > 0 && |asks| > 0 && bids[0].price >= asks[0].price
    }

    ghost predicate Valid() {
      WellFormed(Bid, bids) && WellFormed(Ask, asks)
    }
  }

  datatype BookError = BadPrice | BadQuantity

  const EMPTY := Book([], [])

  predicate IsBetter(side: Side, a: real, b: real) {
    if side.Bid? then a > b else a < b
  }

  ghost predicate BestFirst(side: Side, levels: seq<Level>) {
    forall i, j | 0 <= i < j < |levels| :: IsBetter(side, levels[i].price, levels[j].price)
  }

  ghost predicate AllPositive(levels: seq<Level>) {
    forall i | 0 <= i < |levels| :: levels[i].price > 0.0 && levels[i].quantity > 0.0
  }

  ghost predicate WellFormed(side: Side, levels: seq<Level>) {
    BestFirst(side, levels) && AllPositive(levels)
  }

  /** The plain price-to-quantity map a side stands for; 0 where no level exists. */
  function QuantityAt(levels: seq<Level>, price: real): real {
    if levels == [] then 0.0
    else if levels[0].price == price then levels[0].quantity
    else QuantityAt(levels[1..], price)
  }

  function Validate(price: Double, quantity: Double): Option<BookError> {
    if price.NonFinite? || price.value <= 0.0 then Some(BadPrice)
    else if quantity.NonFinite? || quantity.value < 0.0 then Some(BadQuantity)
    else None
  }

  /** How many leading levels are strictly better than `price`. */
  function Rank(side: Side, levels: seq<Level>, price: real): (n: nat)
    ensures n <= |levels|
    ensures forall i | 0 <= i < n :: IsBetter(side, levels[i].price, price)
    ensures n < |levels| ==> !IsBetter(side, levels[n].price, price)
  {
    if levels == [] || !IsBetter(side, levels[0].price, price) then 0
    else 1 + Rank(side, levels[1..], price)
  }

  predicate AtRank(side: Side, levels: seq<Level>, price: real) {
    var pos := Rank(side, levels, price);
    pos < |levels| && levels[pos].price == price
  }

  function Front(side: Side, levels: seq<Level>, price: real): seq<Level> {
    levels[..Rank(side, levels, price)]
  }

  function Back(side: Side, levels: seq<Level>, price: real): seq<Level> {
    levels[Rank(side, levels, price) + if AtRank(side, levels, price) then 1 else 0..]
  }

  function Single(price: real, quantity: real): seq<Level> {
    if quantity == 0.0 then [] else [Level(price, quantity)]
  }

  /** The side after `price` was set to `quantity`: strictly better levels, the new level if it
      holds anything, strictly worse levels. */
  function Updated(side: Side, levels: seq<Level>, price: real, quantity: real): seq<Level> {
    Front(side, levels, price) + (Single(price, quantity) + Back(side, levels, price))
  }

  function ApplyLevel(book: Book, side: Side, price: Double, quantity: Double): Result<Book, BookError> {
    match Validate(price, quantity)
    case Some(error) => Err(error)
    case None => Ok(book.With(side, Updated(side, book.Levels(side), price.value, quantity.value)))
  }

  // ---------------------------------------------------------------- the map view

  lemma {:induction false} QuantityIsLevel(side: Side, levels: seq<Level>, i: nat)
    requires BestFirst(side, levels) && i < |levels|
    ensures QuantityAt(levels, levels[i].price) == levels[i].quantity
  {
    if i > 0 {
      assert IsBetter(side, levels[0].price, levels[i].price);
      QuantityIsLevel(side, levels[1..], i - 1);
    }
  }

  lemma {:induction false} QuantityAbsent(levels: seq<Level>, price: real)
    requires forall i | 0 <= i < |levels| :: levels[i].price != price
    ensures QuantityAt(levels, price) == 0.0
  {
    if levels != [] {
      assert levels[0].price != price;
      QuantityAbsent(levels[1..], price);
    }
  }

  lemma {:induction false} QuantityConcat(a: seq<Level>, b: seq<Level>, price: real)
    ensures (exists i | 0 <= i < |a| :: a[i].price == price)
            ==> QuantityAt(a + b, price) == QuantityAt(a, price)
    ensures (forall i | 0 <= i < |a| :: a[i].price != price)
            ==> QuantityAt(a + b, price) == QuantityAt(b, price)
  {
    if a == [] {
      assert a + b == b;
    } else {
      assert (a + b)[1..] == a[1..] + b;
      assert (a + b)[0] == a[0];
      QuantityConcat(a[1..], b, price);
      if a[0].price != price {
        if i :| 0 <= i < |a| && a[i].price == price {
          assert a[1..][i - 1].price == price;
        }
      }
    }
  }

  /** An update keeps the side well formed, and means the map update `price := quantity`. */
  lemma {:induction false} UpdatedMeansMapUpdate(side: Side, levels: seq<Level>, price: real, quantity: real)
    requires WellFormed(side, levels) && price > 0.0 && quantity >= 0.0
    ensures WellFormed(side, Updated(side, levels, price, quantity))
    ensures forall p :: QuantityAt(Updated(side, levels, price, quantity), p)
                     == if p == price then quantity else QuantityAt(levels, p)
  {
    UpdatedWellFormed(side, levels, price, quantity);
    forall p
      ensures QuantityAt(Updated(side, levels, price, quantity), p)
           == if p == price then quantity else QuantityAt(levels, p)
    {
      UpdatedQuantity(side, levels, price, quantity, p);
    }
  }

  lemma {:induction false} RankIs(side: Side, levels: seq<Level>, price: real, n: nat)
    requires n <= |levels|
    requires forall i | 0 <= i < n :: IsBetter(side, levels[i].price, price)
    requires n < |levels| ==> !IsBetter(side, levels[n].price, price)
    ensures Rank(side, levels, price) == n
  {
    if n > 0 {
      RankIs(side, levels[1..], price, n - 1);
    }
  }

  lemma SliceWellFormed(side: Side, levels: seq<Level>, i: nat, j: nat)
    requires WellFormed(side, levels) && i <= j <= |levels|
    ensures WellFormed(side, levels[i..j])
  {
    forall m, n | 0 <= m < n < j - i
      ensures IsBetter(side, levels[i..j][m].price, levels[i..j][n].price)
    {
      assert IsBetter(side, levels[i + m].price, levels[i + n].price);
    }
  }

  lemma BeyondRankIsWorse(side: Side, levels: seq<Level>, price: real, j: nat)
    requires BestFirst(side, levels) && Rank(side, levels, price) <= j < |levels|
    ensures IsBetter(side, price, levels[j].price) || (j == Rank(side, levels, price) && AtRank(side, levels, price))
  {
    var pos := Rank(side, levels, price);
    if pos < j {
      assert IsBetter(side, levels[pos].price, levels[j].price);
    }
  }

  lemma FrontIsBetter(side: Side, levels: seq<Level>, price: real)
    requires WellFormed(side, levels)
    ensures WellFormed(side, Front(side, levels, price))
    ensures forall i | 0 <= i < |Front(side, levels, price)| ::
              IsBetter(side, Front(side, levels, price)[i].price, price)
  {
    SliceWellFormed(side, levels, 0, Rank(side, levels, price));
  }

  lemma BackIsWorse(side: Side, levels: seq<Level>, price: real)
    requires WellFormed(side, levels)
    ensures WellFormed(side, Back(side, levels, price))
    ensures forall i | 0 <= i < |Back(side, levels, price)| ::
              IsBetter(side, price, Back(side, levels, price)[i].price)
  {
    var back := Back(side, levels, price);
    var next := |levels| - |back|;
    SliceWellFormed(side, levels, next, |levels|);
    assert back == levels[next..|levels|];
    forall i | 0 <= i < |back| ensures IsBetter(side, price, back[i].price) {
      BeyondRankIsWorse(side, levels, price, next + i);
    }
  }

  lemma SplitAtRank(side: Side, levels: seq<Level>, price: real) returns (middle: seq<Level>)
    ensures levels == Front(side, levels, price) + (middle + Back(side, levels, price))
    ensures middle == [] || (|middle| == 1 && middle[0].price == price)
  {
    var pos := Rank(side, levels, price);
    if AtRank(side, levels, price) {
      middle := [levels[pos]];
    } else {
      middle := [];
    }
  }

  lemma JoinWellFormed(side: Side, a: seq<Level>, b: seq<Level>)
    requires WellFormed(side, a) && WellFormed(side, b)
    requires forall i, j | 0 <= i < |a| && 0 <= j < |b| :: IsBetter(side, a[i].price, b[j].price)
    ensures WellFormed(side, a + b)
  {
    forall i, j | 0 <= i < j < |a + b|
      ensures IsBetter(side, (a + b)[i].price, (a + b)[j].price)
    {
      if |a| <= i {
        assert IsBetter(side, b[i - |a|].price, b[j - |a|].price);
      }
    }
  }

  lemma {:induction false} UpdatedWellFormed(side: Side, levels: seq<Level>, price: real, quantity: real)
    requires WellFormed(side, levels) && price > 0.0 && quantity >= 0.0
    ensures WellFormed(side, Updated(side, levels, price, quantity))
  {
    FrontIsBetter(side, levels, price);
    BackIsWorse(side, levels, price);
    PlaceWellFormed(side, Front(side, levels, price), price, quantity, Back(side, levels, price));
  }

  lemma PlaceWellFormed(side: Side, front: seq<Level>, price: real, quantity: real, back: seq<Level>)
    requires WellFormed(side, front) && WellFormed(side, back) && price > 0.0 && quantity >= 0.0
    requires forall i | 0 <= i < |front| :: IsBetter(side, front[i].price, price)
    requires forall i | 0 <= i < |back| :: IsBetter(side, price, back[i].price)
    ensures WellFormed(side, front + (Single(price, quantity) + back))
  {
    JoinWellFormed(side, Single(price, quantity), back);
    JoinWellFormed(side, front, Single(price, quantity) + back);
  }

  lemma UpdatedQuantity(side: Side, levels: seq<Level>, price: real, quantity: real, p: real)
    requires WellFormed(side, levels) && price > 0.0 && quantity >= 0.0
    ensures QuantityAt(Updated(side, levels, price, quantity), p)
         == if p == price then quantity else QuantityAt(levels, p)
  {
    var front, back := Front(side, levels, price), Back(side, levels, price);
    var middle := SplitAtRank(side, levels, price);
    FrontIsBetter(side, levels, price);
    BackIsWorse(side, levels, price);
    SplitQuantity(side, front, middle, back, price, p);
    SplitQuantity(side, front, Single(price, quantity), back, price, p);
  }

  lemma SplitQuantity(side: Side, front: seq<Level>, middle: seq<Level>, back: seq<Level>, price: real, p: real)
    requires forall i | 0 <= i < |front| :: IsBetter(side, front[i].price, price)
    requires forall i | 0 <= i < |back| :: IsBetter(side, price, back[i].price)
    requires middle == [] || (|middle| == 1 && middle[0].price == price)
    ensures p == price ==> QuantityAt(front + (middle + back), p)
                           == if middle == [] then 0.0 else middle[0].quantity
    ensures p != price ==> QuantityAt(front + (middle + back), p) == QuantityAt(front + back, p)
  {
    QuantityConcat(front, middle + back, p);
    QuantityConcat(front, back, p);
    QuantityConcat(middle, back, p);
    if p == price {
      QuantityAbsent(back, p);
    }
  }

  /** A well formed side is the only best-first listing of its map. */
  lemma {:induction false} ListingIsUnique(side: Side, a: seq<Level>, b: seq<Level>)
    requires WellFormed(side, a) && WellFormed(side, b)
    requires forall p :: QuantityAt(a, p) == QuantityAt(b, p)
    ensures a == b
  {
    assert a != [] ==> QuantityAt(a, a[0].price) > 0.0;
    assert b != [] ==> QuantityAt(b, b[0].price) > 0.0;
    if a != [] && b != [] {
      HeadIsBest(side, a, b);
      HeadIsBest(side, b, a);
      assert QuantityAt(a, a[0].price) == QuantityAt(b, a[0].price);
      forall p ensures QuantityAt(a[1..], p) == QuantityAt(b[1..], p) {
        assert QuantityAt(a, p) == QuantityAt(b, p);
        if p == a[0].price {
          QuantityAbsent(a[1..], p);
          QuantityAbsent(b[1..], p);
        }
      }
      ListingIsUnique(side, a[1..], b[1..]);
    }
  }

  lemma HeadIsBest(side: Side, a: seq<Level>, b: seq<Level>)
    requires WellFormed(side, a) && WellFormed(side, b) && a != [] && b != []
    requires forall p :: QuantityAt(a, p) == QuantityAt(b, p)
    ensures !IsBetter(side, b[0].price, a[0].price)
  {
    var p := b[0].price;
    assert QuantityAt(a, p) == b[0].quantity;
    if forall i | 0 <= i < |a| :: a[i].price != p {
      QuantityAbsent(a, p);
    } else {
      var i :| 0 <= i < |a| && a[i].price == p;
      assert i > 0 ==> IsBetter(side, a[0].price, a[i].price);
    }
  }

  // ---------------------------------------------------------------- the object

  lemma OverwriteIsSplice<T>(s: seq<T>, i: nat, x: T)
    requires i < |s|
    ensures s[i := x] == s[..i] + ([x] + s[i + 1..])
  {
  }

  /** What the splice amounts to in each of the vector's own operations. */
  lemma UpdatedByCase(side: Side, levels: seq<Level>, price: real, quantity: real, pos: nat)
    requires pos == Rank(side, levels, price)
    ensures quantity == 0.0 && AtRank(side, levels, price)
            ==> Updated(side, levels, price, quantity) == levels[..pos] + levels[pos + 1..]
    ensures quantity == 0.0 && !AtRank(side, levels, price)
            ==> Updated(side, levels, price, quantity) == levels
    ensures quantity != 0.0 && AtRank(side, levels, price)
            ==> Updated(side, levels, price, quantity) == levels[pos := Level(price, quantity)]
    ensures quantity != 0.0 && !AtRank(side, levels, price)
            ==> Updated(side, levels, price, quantity) == levels[..pos] + [Level(price, quantity)] + levels[pos..]
  {
    hide Rank;
    if AtRank(side, levels, price) {
      OverwriteIsSplice(levels, pos, Level(price, quantity));
    }
  }

  class LiveBook {
    var bids: seq<Level>
    var asks: seq<Level>

    function View(): Book
      reads this
    {
      Book(bids, asks)
    }

    constructor ()
      ensures View() == EMPTY
    {
      bids, asks := [], [];
    }

    constructor Copy(book: Book)
      ensures View() == book
    {
      bids, asks := book.bids, book.asks;
    }

    /** std::lower_bound: the first level not better than `price`. */
    method LowerBound(side: Side, levels: seq<Level>, price: real) returns (pos: nat)
      requires BestFirst(side, levels)
      ensures pos == Rank(side, levels, price)
    {
      var low, high := 0, |levels|;
      while low < high
        invariant 0 <= low <= high <= |levels|
        invariant forall i | 0 <= i < low :: IsBetter(side, levels[i].price, price)
        invariant forall i | high <= i < |levels| :: !IsBetter(side, levels[i].price, price)
      {
        var middle := (low + high) / 2;
        if IsBetter(side, levels[middle].price, price) {
          low := middle + 1;
        } else {
          high := middle;
        }
      }
      pos := low;
      RankIs(side, levels, price, pos);
    }

    /** The erase, overwrite or insert of one level at its binary-search position. */
    method PutLevel(side: Side, levels: seq<Level>, price: real, quantity: real) returns (updated: seq<Level>)
      requires BestFirst(side, levels)
      ensures updated == Updated(side, levels, price, quantity)
    {
      var pos := LowerBound(side, levels, price);
      UpdatedByCase(side, levels, price, quantity, pos);
      var found := pos < |levels| && levels[pos].price == price;
      if quantity == 0.0 {
        if found {
          updated := levels[..pos] + levels[pos + 1..];
        } else {
          updated := levels;
        }
      } else if found {
        updated := levels[pos := Level(levels[pos].price, quantity)];
      } else {
        updated := levels[..pos] + [Level(price, quantity)] + levels[pos..];
      }
    }

    method Apply(side: Side, price: Double, quantity: Double) returns (error: Option<BookError>)
      requires View().Valid()
      modifies this
      ensures error == Validate(price, quantity)
      ensures error.Some? ==> View() == old(View())
      ensures error.None? ==> ApplyLevel(old(View()), side, price, quantity) == Ok(View())
      ensures View().Valid()
    {
      error := Validate(price, quantity);
      if error.Some? {
        return;
      }
      UpdatedWellFormed(side, View().Levels(side), price.value, quantity.value);
      if side.Bid? {
        bids := PutLevel(side, bids, price.value, quantity.value);
      } else {
        asks := PutLevel(side, asks, price.value, quantity.value);
      }
    }

    method Clear()
      modifies this
      ensures View() == EMPTY
    {
      bids, asks := [], [];
    }

    method Best(side: Side) returns (best: Option<Level>)
      requires View().Valid()
      ensures best.None? <==> forall p :: QuantityAt(View().Levels(side), p) == 0.0
      ensures best.Some? ==> QuantityAt(View().Levels(side), best.value.price) == best.value.quantity > 0.0
      ensures best.Some? ==> forall p :: QuantityAt(View().Levels(side), p) != 0.0
                                         ==> !IsBetter(side, p, best.value.price)
    {
      var levels := if side.Bid? then bids else asks;
      if levels == [] {
        return None;
      }
      best := Some(levels[0]);
      assert QuantityAt(View().Levels(side), levels[0].price) > 0.0;
      assert QuantityAt(levels, levels[0].price) == levels[0].quantity;
      forall p | QuantityAt(levels, p) != 0.0 ensures !IsBetter(side, p, levels[0].price) {
        if forall i | 0 <= i < |levels| :: levels[i].price != p {
          QuantityAbsent(levels, p);
        } else {
          var i :| 0 <= i < |levels| && levels[i].price == p;
          assert i > 0 ==> IsBetter(side, levels[0].price, levels[i].price);
        }
      }
    }
  }
}
