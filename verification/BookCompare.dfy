/** Rank-by-rank comparison of a replayed book with a reference image. */
module BookCompare {
  import opened OrderBook

  datatype DiffKind = PriceMismatch | QuantityMismatch | MissingLevel | ExtraLevel

  datatype LevelDiff = LevelDiff(side: Side, rank: nat, kind: DiffKind, replayed: Level, reference: Level)

  const NO_LEVEL := Level(0.0, 0.0)

  function MinOf(a: nat, b: nat): nat {
    if a < b then a else b
  }

  function ComparedRankCount(replayed: nat, reference: nat, depth: nat): nat {
    MinOf(depth, if replayed < reference then reference else replayed)
  }

  function Top(levels: seq<Level>, depth: nat): seq<Level> {
    levels[..MinOf(depth, |levels|)]
  }

  /** What two listings say about one rank, of which at least one speaks. */
  function DiffAt(side: Side, replayed: seq<Level>, reference: seq<Level>, rank: nat): seq<LevelDiff> {
    if rank < |replayed| && rank < |reference| then
      if replayed[rank].price != reference[rank].price
      then [LevelDiff(side, rank, PriceMismatch, replayed[rank], reference[rank])]
      else if replayed[rank].quantity != reference[rank].quantity
      then [LevelDiff(side, rank, QuantityMismatch, replayed[rank], reference[rank])]
      else []
    else if rank < |reference| then [LevelDiff(side, rank, MissingLevel, NO_LEVEL, reference[rank])]
    else if rank < |replayed| then [LevelDiff(side, rank, ExtraLevel, replayed[rank], NO_LEVEL)]
    else []
  }

  function SideDiffs(side: Side, replayed: seq<Level>, reference: seq<Level>, ranks: nat): seq<LevelDiff> {
    if ranks == 0 then []
    else SideDiffs(side, replayed, reference, ranks - 1) + DiffAt(side, replayed, reference, ranks - 1)
  }

  function Diffs(book: Book, bids: seq<Level>, asks: seq<Level>, depth: nat): seq<LevelDiff> {
    SideDiffs(Bid, book.bids, bids, ComparedRankCount(|book.bids|, |bids|, depth))
    + SideDiffs(Ask, book.asks, asks, ComparedRankCount(|book.asks|, |asks|, depth))
  }

  /** A rank is reported exactly when the two listings differ there, once, and says how. */
  lemma {:induction false} DiffsAreTheDifferences(side: Side, replayed: seq<Level>, reference: seq<Level>, ranks: nat,
                                                  d: LevelDiff)
    ensures d in SideDiffs(side, replayed, reference, ranks)
       <==> d.rank < ranks && DiffAt(side, replayed, reference, d.rank) == [d]
    ensures |SideDiffs(side, replayed, reference, ranks)| <= ranks
  {
    if ranks > 0 {
      DiffsAreTheDifferences(side, replayed, reference, ranks - 1, d);
      var last := DiffAt(side, replayed, reference, ranks - 1);
      assert d in last ==> last == [d] && d.rank == ranks - 1;
    }
  }

  /** The difference at a rank, exactly: prices compared before quantities where both listings reach
      it, otherwise the listing that does not. */
  lemma {:induction false} KindsAreExact(side: Side, replayed: seq<Level>, reference: seq<Level>, ranks: nat, d: LevelDiff)
    ensures d in SideDiffs(side, replayed, reference, ranks)
       <==> && d.side == side && d.rank < ranks
            && match d.kind {
                 case PriceMismatch =>
                   && d.rank < |replayed| && d.rank < |reference|
                   && d.replayed == replayed[d.rank] && d.reference == reference[d.rank]
                   && d.replayed.price != d.reference.price
                 case QuantityMismatch =>
                   && d.rank < |replayed| && d.rank < |reference|
                   && d.replayed == replayed[d.rank] && d.reference == reference[d.rank]
                   && d.replayed.price == d.reference.price && d.replayed.quantity != d.reference.quantity
                 case MissingLevel =>
                   |replayed| <= d.rank < |reference| && d.replayed == NO_LEVEL && d.reference == reference[d.rank]
                 case ExtraLevel =>
                   |reference| <= d.rank < |replayed| && d.replayed == replayed[d.rank] && d.reference == NO_LEVEL
               }
  {
    DiffsAreTheDifferences(side, replayed, reference, ranks, d);
    hide SideDiffs;
  }

  lemma {:induction false} NoDiffsUpTo(side: Side, replayed: seq<Level>, reference: seq<Level>, ranks: nat)
    ensures SideDiffs(side, replayed, reference, ranks) == []
       <==> forall rank | 0 <= rank < ranks :: DiffAt(side, replayed, reference, rank) == []
  {
    if ranks > 0 {
      NoDiffsUpTo(side, replayed, reference, ranks - 1);
    }
  }

  predicate SameAt(replayed: seq<Level>, reference: seq<Level>, rank: nat) {
    if rank < |replayed| && rank < |reference| then replayed[rank] == reference[rank]
    else rank >= |replayed| && rank >= |reference|
  }

  lemma NoDiffMeansSame(side: Side, replayed: seq<Level>, reference: seq<Level>, rank: nat)
    ensures DiffAt(side, replayed, reference, rank) == [] <==> SameAt(replayed, reference, rank)
  {
  }

  /** No difference means the same first `depth` ranks, however deep either side is beyond them. */
  lemma {:induction false} NoDiffsMeansSameTop(side: Side, replayed: seq<Level>, reference: seq<Level>, depth: nat)
    ensures SideDiffs(side, replayed, reference, ComparedRankCount(|replayed|, |reference|, depth)) == []
       <==> Top(replayed, depth) == Top(reference, depth)
  {
    hide SideDiffs, DiffAt;
    forall rank: nat ensures DiffAt(side, replayed, reference, rank) == [] <==> SameAt(replayed, reference, rank) {
      NoDiffMeansSame(side, replayed, reference, rank);
    }
    var ranks := ComparedRankCount(|replayed|, |reference|, depth);
    NoDiffsUpTo(side, replayed, reference, ranks);
    var a, b := Top(replayed, depth), Top(reference, depth);
    var k := MinOf(|a|, |b|);
    assert |a| != |b| ==> k < ranks && DiffAt(side, replayed, reference, k) != [];
    if a == b {
      forall rank | 0 <= rank < ranks ensures DiffAt(side, replayed, reference, rank) == [] {
        assert |a| == |b|;
        assert a[rank] == replayed[rank] && b[rank] == reference[rank];
      }
    } else if SideDiffs(side, replayed, reference, ranks) == [] {
      forall rank | 0 <= rank < |a| ensures a[rank] == b[rank] {
        assert DiffAt(side, replayed, reference, rank) == [];
      }
    }
  }

  predicate Agrees(book: Book, bids: seq<Level>, asks: seq<Level>, depth: nat) {
    Top(book.bids, depth) == Top(bids, depth) && Top(book.asks, depth) == Top(asks, depth)
  }

  lemma NoDiffsMeansAgrees(book: Book, bids: seq<Level>, asks: seq<Level>, depth: nat)
    ensures Diffs(book, bids, asks, depth) == [] <==> Agrees(book, bids, asks, depth)
  {
    NoDiffsMeansSameTop(Bid, book.bids, bids, depth);
    NoDiffsMeansSameTop(Ask, book.asks, asks, depth);
    hide SideDiffs, Top;
  }

  lemma NoRanks(side: Side, replayed: seq<Level>, reference: seq<Level>)
    ensures SideDiffs(side, replayed, reference, 0) == []
  {
  }

  lemma OneMoreRank(side: Side, replayed: seq<Level>, reference: seq<Level>, rank: nat, found: seq<LevelDiff>)
    ensures found + SideDiffs(side, replayed, reference, rank) + DiffAt(side, replayed, reference, rank)
         == found + SideDiffs(side, replayed, reference, rank + 1)
  {
  }

  method CompareSide(book: Book, side: Side, reference: seq<Level>, depth: nat, found: seq<LevelDiff>)
    returns (diffs: seq<LevelDiff>)
    ensures diffs == found + SideDiffs(side, book.Levels(side), reference,
                                       ComparedRankCount(|book.Levels(side)|, |reference|, depth))
  {
    hide SideDiffs;
    var replayed := book.Levels(side);
    NoRanks(side, replayed, reference);
    var limit := ComparedRankCount(|replayed|, |reference|, depth);
    diffs := found;
    for rank := 0 to limit
      invariant diffs == found + SideDiffs(side, replayed, reference, rank)
    {
      ghost var before, more := diffs, DiffAt(side, replayed, reference, rank);
      if rank < |replayed| && rank < |reference| {
        if replayed[rank].price != reference[rank].price {
          diffs := diffs + [LevelDiff(side, rank, PriceMismatch, replayed[rank], reference[rank])];
        } else if replayed[rank].quantity != reference[rank].quantity {
          diffs := diffs + [LevelDiff(side, rank, QuantityMismatch, replayed[rank], reference[rank])];
        }
      } else if rank < |reference| {
        diffs := diffs + [LevelDiff(side, rank, MissingLevel, NO_LEVEL, reference[rank])];
      } else {
        diffs := diffs + [LevelDiff(side, rank, ExtraLevel, replayed[rank], NO_LEVEL)];
      }
      assert diffs == before + more;
      OneMoreRank(side, replayed, reference, rank, found);
    }
  }

  method CompareTopN(book: Book, bids: seq<Level>, asks: seq<Level>, depth: nat) returns (diffs: seq<LevelDiff>)
    ensures diffs == Diffs(book, bids, asks, depth)
    ensures diffs == [] <==> Agrees(book, bids, asks, depth)
  {
    diffs := CompareSide(book, Bid, bids, depth, []);
    diffs := CompareSide(book, Ask, asks, depth, diffs);
    NoDiffsMeansAgrees(book, bids, asks, depth);
  }
}
