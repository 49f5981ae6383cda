/** The validation harness: every reference image against the book replayed to its millisecond. */
module ReplayValidate {
  import opened Wrappers
  import opened OrderBook
  import opened BookReplayer
  import opened BookCompare

  // ---------------------------------------------------------------- the reference images

  datatype ReferenceRow = ReferenceRow(timestamp: int, side: Side, level: int, price: real, quantity: real)

  datatype Image = Image(time: int, bids: seq<Level>, asks: seq<Level>, rows: nat) {
    function Levels(side: Side): seq<Level> {
      if side.Bid? then bids else asks
    }
  }

  /** Levels must arrive best first without a hole. */
  predicate InPlace(image: Image, row: ReferenceRow) {
    row.level == |image.Levels(row.side)|
  }

  function Extended(image: Image, row: ReferenceRow): Image {
    var level := Level(row.price, row.quantity);
    if row.side.Bid? then image.(bids := image.bids + [level], rows := image.rows + 1)
    else image.(asks := image.asks + [level], rows := image.rows + 1)
  }

  function Blank(time: int): Image {
    Image(time, [], [], 0)
  }

  /** The images after one more row: it joins the image of its millisecond or opens a new one. */
  function Appended(images: seq<Image>, row: ReferenceRow): Option<seq<Image>> {
    var n := |images| - 1;
    if n >= 0 && images[n].time == row.timestamp then
      if InPlace(images[n], row) then Some(images[..n] + [Extended(images[n], row)]) else None
    else if InPlace(Blank(row.timestamp), row) then Some(images + [Extended(Blank(row.timestamp), row)])
    else None
  }

  /** The images a reference stream spells out, or `None` if a level is out of place. */
  function Images(rows: seq<ReferenceRow>): Option<seq<Image>> {
    if rows == [] then Some([])
    else
      match Images(rows[..|rows| - 1])
      case None => None
      case Some(images) => Appended(images, rows[|rows| - 1])
  }

  function RowTotal(images: seq<Image>): nat {
    if images == [] then 0 else RowTotal(images[..|images| - 1]) + images[|images| - 1].rows
  }

  /** Every reference row lands in exactly one image, and neighbouring images differ in time. */
  lemma {:induction false} ImagesKeepRows(rows: seq<ReferenceRow>)
    ensures Images(rows).Some? ==>
              RowTotal(Images(rows).value) == |rows| && Distinct(Images(rows).value) && RowsCounted(Images(rows).value)
  {
    hide Appended, RowTotal, Distinct, RowsCounted;
    if rows == [] {
      NoImage();
    } else {
      var n := |rows| - 1;
      ImagesKeepRows(rows[..n]);
      if Images(rows).Some? {
        var before := Images(rows[..n]).value;
        AppendedTotal(before, rows[n]);
        AppendedDistinct(before, rows[n]);
        AppendedCounted(before, rows[n]);
      }
    }
  }

  ghost predicate Distinct(images: seq<Image>) {
    forall j | 0 < j < |images| :: images[j - 1].time != images[j].time
  }

  ghost predicate RowsCounted(images: seq<Image>) {
    forall image | image in images :: image.rows == |image.bids| + |image.asks|
  }

  lemma NoImage()
    ensures RowTotal([]) == 0 && Distinct([]) && RowsCounted([])
  {
  }

  lemma AppendedTotal(images: seq<Image>, row: ReferenceRow)
    ensures Appended(images, row).Some? ==> RowTotal(Appended(images, row).value) == RowTotal(images) + 1
  {
    var n := |images| - 1;
    var last := Extended(if n >= 0 then images[n] else Blank(row.timestamp), row);
    assert n >= 0 ==> (images[..n] + [last])[..n] == images[..n];
    assert (images + [Extended(Blank(row.timestamp), row)])[..n + 1] == images;
  }

  lemma AppendedDistinct(images: seq<Image>, row: ReferenceRow)
    requires Distinct(images)
    ensures Appended(images, row).Some? ==> Distinct(Appended(images, row).value)
  {
  }

  lemma AppendedCounted(images: seq<Image>, row: ReferenceRow)
    requires RowsCounted(images)
    ensures Appended(images, row).Some? ==> RowsCounted(Appended(images, row).value)
  {
    if Appended(images, row).Some? {
      var after := Appended(images, row).value;
      forall image | image in after ensures image.rows == |image.bids| + |image.asks| {
        var k :| 0 <= k < |after| && after[k] == image;
        assert k < |images| ==> images[k] in images;
      }
    }
  }

  lemma {:induction false} MisplacedLevelIsFatal(rows: seq<ReferenceRow>, k: nat)
    requires k <= |rows| && Images(rows[..k]).None?
    ensures Images(rows).None?
  {
    if k == |rows| {
      assert rows[..k] == rows;
    } else {
      assert rows[..|rows| - 1][..k] == rows[..k];
      MisplacedLevelIsFatal(rows[..|rows| - 1], k);
    }
  }

  // ---------------------------------------------------------------- what the images say

  /** The levels rows name on one side, in the rows' order. */
  function Ladder(rows: seq<ReferenceRow>, side: Side): seq<Level> {
    if rows == [] then []
    else
      var row := rows[|rows| - 1];
      Ladder(rows[..|rows| - 1], side) + if row.side == side then [Level(row.price, row.quantity)] else []
  }

  /** The rows of one millisecond, each naming the next rank of its side, are the image's two sides. */
  ghost predicate Spells(rows: seq<ReferenceRow>, image: Image) {
    && rows != [] && (forall k | 0 <= k < |rows| :: rows[k].timestamp == image.time)
    && Ranked(rows)
    && image.bids == Ladder(rows, Bid) && image.asks == Ladder(rows, Ask) && image.rows == |rows|
  }

  /** The rows of image `j`: those after the rows of the images before it. */
  ghost predicate SpelledAt(rows: seq<ReferenceRow>, images: seq<Image>, j: nat)
    requires j < |images|
  {
    var first, last := RowTotal(images[..j]), RowTotal(images[..j + 1]);
    first <= last <= |rows| && Spells(rows[first..last], images[j])
  }

  lemma LadderGrows(rows: seq<ReferenceRow>, row: ReferenceRow, side: Side)
    ensures Ladder(rows + [row], side)
         == Ladder(rows, side) + (if row.side == side then [Level(row.price, row.quantity)] else [])
  {
    assert (rows + [row])[..|rows|] == rows;
  }

  lemma SpellingGrows(rows: seq<ReferenceRow>, image: Image, row: ReferenceRow)
    requires Spells(rows, image) && row.timestamp == image.time && InPlace(image, row)
    ensures Spells(rows + [row], Extended(image, row))
  {
    LadderGrows(rows, row, Bid);
    LadderGrows(rows, row, Ask);
    var all := rows + [row];
    forall k | 0 <= k < |all| ensures all[k].level == |Ladder(all[..k], all[k].side)| {
      assert all[..k] == if k < |rows| then rows[..k] else rows;
    }
  }

  lemma SpellingStarts(row: ReferenceRow)
    requires InPlace(Blank(row.timestamp), row)
    ensures Spells([row], Extended(Blank(row.timestamp), row))
  {
    var none: seq<ReferenceRow> := [];
    LadderGrows(none, row, Bid);
    LadderGrows(none, row, Ask);
    assert none + [row] == [row] && [row][..0] == none;
  }

  lemma RowTotalOfPrefix(images: seq<Image>, image: Image)
    ensures RowTotal(images + [image]) == RowTotal(images) + image.rows
  {
    assert (images + [image])[..|images|] == images;
  }

  lemma SpelledStays(rows: seq<ReferenceRow>, images: seq<Image>, row: ReferenceRow, more: seq<Image>, j: nat)
    requires j < |images| && SpelledAt(rows, images, j) && j < |more| && more[..j + 1] == images[..j + 1]
    ensures SpelledAt(rows + [row], more, j)
  {
    hide Spells, RowTotal;
    assert more[..j] == more[..j + 1][..j] == images[..j + 1][..j] == images[..j];
    assert more[j] == more[..j + 1][j] == images[..j + 1][j] == images[j];
    var first, last := RowTotal(images[..j]), RowTotal(images[..j + 1]);
    assert (rows + [row])[first..last] == rows[first..last];
  }

  /** The images are the rows read off in turn: each is the run of rows of one millisecond, its
      rank `r` on a side the price and quantity of that run's row of that side and level `r`, and
      holds nothing else; the next image is the next run, of another millisecond. */
  lemma {:induction false} ImagesSpellTheRows(rows: seq<ReferenceRow>)
    ensures Images(rows).Some? ==>
              var images := Images(rows).value;
              && RowTotal(images) == |rows| && Distinct(images)
              && forall j | 0 <= j < |images| :: SpelledAt(rows, images, j)
  {
    hide Spells, RowTotal, Distinct, SpelledAt, InPlace, Extended, Images;
    ImagesKeepRows(rows);
    if rows == [] {
      NoRowsNoImages();
    } else if Images(rows).Some? {
      LastRow(rows);
      var n := |rows| - 1;
      var init, row, before, after := rows[..n], rows[n], Images(rows[..n]).value, Images(rows).value;
      ImagesSpellTheRows(init);
      ImagesKeepRows(init);
      assert init + [row] == rows;
      var m := |before| - 1;
      if m >= 0 && before[m].time == row.timestamp {
        LastImageGrows(init, row, before, after);
      } else {
        NextImageStarts(init, row, before, after);
      }
    }
  }

  lemma EarlierStay(init: seq<ReferenceRow>, row: ReferenceRow, before: seq<Image>, after: seq<Image>, m: nat)
    requires m <= |before| && m <= |after| && before[..m] == after[..m]
    requires forall j | 0 <= j < m :: SpelledAt(init, before, j)
    ensures forall j | 0 <= j < m :: SpelledAt(init + [row], after, j)
  {
    hide SpelledAt;
    forall j | 0 <= j < m ensures SpelledAt(init + [row], after, j) {
      assert after[..j + 1] == after[..m][..j + 1] == before[..m][..j + 1] == before[..j + 1];
      SpelledStays(init, before, row, after, j);
    }
  }

  lemma LastSpelling(rows: seq<ReferenceRow>, images: seq<Image>)
    requires images != [] && RowTotal(images) == |rows|
    ensures var m := |images| - 1; var first := RowTotal(images[..m]);
            SpelledAt(rows, images, m) <==> first <= |rows| && Spells(rows[first..], images[m])
  {
    hide Spells, RowTotal;
    var m := |images| - 1;
    assert images[..m + 1] == images;
    assert forall first | 0 <= first <= |rows| :: rows[first..|rows|] == rows[first..];
  }

  lemma LastImageGrows(init: seq<ReferenceRow>, row: ReferenceRow, before: seq<Image>, after: seq<Image>)
    requires RowTotal(before) == |init| && (forall j | 0 <= j < |before| :: SpelledAt(init, before, j))
    requires before != [] && before[|before| - 1].time == row.timestamp && InPlace(before[|before| - 1], row)
    requires after == before[..|before| - 1] + [Extended(before[|before| - 1], row)]
    ensures forall j | 0 <= j < |after| :: SpelledAt(init + [row], after, j)
  {
    hide Spells, RowTotal, SpelledAt, InPlace, Extended;
    var m := |before| - 1;
    var earlier, last := before[..m], before[m];
    assert before == earlier + [last] && after[..m] == earlier && |after| == m + 1;
    LastGrows(init, row, earlier, last, before);
    EarlierStay(init, row, before, after, m);
    forall j | 0 <= j < |after| ensures SpelledAt(init + [row], after, j) {
      assert j < m || j == m;
    }
  }

  lemma LastGrows(init: seq<ReferenceRow>, row: ReferenceRow, earlier: seq<Image>, last: Image, before: seq<Image>)
    requires before == earlier + [last] && RowTotal(before) == |init| && SpelledAt(init, before, |earlier|)
    requires last.time == row.timestamp && InPlace(last, row)
    ensures SpelledAt(init + [row], earlier + [Extended(last, row)], |earlier|)
  {
    hide Spells, RowTotal, SpelledAt, InPlace;
    var first, after := RowTotal(earlier), earlier + [Extended(last, row)];
    assert before[..|earlier|] == earlier && after[..|earlier|] == earlier;
    LastSpelling(init, before);
    RowTotalOfPrefix(earlier, last);
    RowTotalOfPrefix(earlier, Extended(last, row));
    ExtendedCounts(last, row);
    SpellingGrows(init[first..], last, row);
    assert (init + [row])[first..] == init[first..] + [row];
    LastSpelling(init + [row], after);
  }

  lemma ExtendedCounts(image: Image, row: ReferenceRow)
    ensures Extended(image, row).rows == image.rows + 1
  {
  }

  lemma NextImageStarts(init: seq<ReferenceRow>, row: ReferenceRow, before: seq<Image>, after: seq<Image>)
    requires RowTotal(before) == |init| && (forall j | 0 <= j < |before| :: SpelledAt(init, before, j))
    requires InPlace(Blank(row.timestamp), row) && after == before + [Extended(Blank(row.timestamp), row)]
    ensures forall j | 0 <= j < |after| :: SpelledAt(init + [row], after, j)
  {
    hide Spells, RowTotal;
    var m := |before|;
    EarlierStay(init, row, before, after, m);
    SpellingStarts(row);
    RowTotalOfPrefix(before, Extended(Blank(row.timestamp), row));
    assert after[..m] == before && after[..m + 1] == after;
    assert (init + [row])[|init|..|init| + 1] == [row];
  }

  /** Where the run of a row's millisecond begins. */
  function RunStart(rows: seq<ReferenceRow>, k: nat): (a: nat)
    requires k < |rows|
    ensures a <= k
  {
    if k > 0 && rows[k - 1].timestamp == rows[k].timestamp then RunStart(rows, k - 1) else k
  }

  /** The row names a rank other than the next of its side. */
  predicate Misplaced(rows: seq<ReferenceRow>, k: nat)
    requires k < |rows|
  {
    rows[k].level != |Ladder(rows[RunStart(rows, k)..k], rows[k].side)|
  }

  /** Exactly which references are refused. */
  lemma {:induction false} RefusedIfMisplaced(rows: seq<ReferenceRow>)
    ensures Images(rows).None? <==> exists k :: 0 <= k < |rows| && Misplaced(rows, k)
  {
    hide Misplaced, Images, Appended;
    if rows == [] {
      NoRowsNoImages();
    } else {
      var n := |rows| - 1;
      RefusedIfMisplaced(rows[..n]);
      LastRow(rows);
      forall k | 0 <= k < n ensures Misplaced(rows[..n], k) == Misplaced(rows, k) {
        MisplacedInPrefix(rows, n, k);
      }
      if Images(rows[..n]).Some? {
        LastRowMisplaced(rows);
      }
    }
  }

  lemma NoRowsNoImages()
    ensures Images([]) == Some([])
  {
  }

  lemma {:induction false} SameRunStart(rows: seq<ReferenceRow>, n: nat, k: nat)
    requires k < n <= |rows|
    ensures RunStart(rows[..n], k) == RunStart(rows, k)
  {
    if k > 0 {
      SameRunStart(rows, n, k - 1);
    }
  }

  lemma MisplacedInPrefix(rows: seq<ReferenceRow>, n: nat, k: nat)
    requires k < n <= |rows|
    ensures Misplaced(rows[..n], k) == Misplaced(rows, k)
  {
    SameRunStart(rows, n, k);
    assert rows[..n][RunStart(rows, k)..k] == rows[RunStart(rows, k)..k];
  }

  lemma {:induction false} RunStartIs(rows: seq<ReferenceRow>, k: nat, a: nat)
    requires a <= k < |rows| && (forall i | a <= i <= k :: rows[i].timestamp == rows[k].timestamp)
    requires a > 0 ==> rows[a - 1].timestamp != rows[k].timestamp
    ensures RunStart(rows, k) == a
  {
    if a < k {
      RunStartIs(rows, k - 1, a);
    }
  }

  lemma LastRowMisplaced(rows: seq<ReferenceRow>)
    requires rows != [] && Images(rows[..|rows| - 1]).Some?
    ensures Images(rows).None? <==> Misplaced(rows, |rows| - 1)
  {
    hide Images, Ladder, RunStart, Appended;
    var n := |rows| - 1;
    var row, before := rows[n], Images(rows[..n]).value;
    LastRow(rows);
    AppendedIfInPlace(before, row);
    if before != [] && before[|before| - 1].time == row.timestamp {
      RunInHand(rows, before, row.side);
    } else {
      NoRunInHand(rows, before, row.side);
    }
  }

  lemma RunInHand(rows: seq<ReferenceRow>, before: seq<Image>, side: Side)
    requires rows != [] && Images(rows[..|rows| - 1]) == Some(before) && before != []
    requires before[|before| - 1].time == rows[|rows| - 1].timestamp
    ensures var n := |rows| - 1; Ladder(rows[RunStart(rows, n)..n], side) == before[|before| - 1].Levels(side)
  {
    hide Images, Ladder, RunStart, RowTotal, Spells;
    var n, m := |rows| - 1, |before| - 1;
    RunBegins(rows[..n], before);
    var first := RowTotal(before[..m]);
    assert rows[..n][first..n] == rows[first..n];
    SpelledSides(rows[first..n], before[m], side);
    forall i | first <= i < n ensures rows[i].timestamp == before[m].time {
      assert rows[i] == rows[first..n][i - first];
    }
    RunStartIs(rows, n, first);
  }

  lemma NoRunInHand(rows: seq<ReferenceRow>, before: seq<Image>, side: Side)
    requires rows != [] && Images(rows[..|rows| - 1]) == Some(before)
    requires before != [] ==> before[|before| - 1].time != rows[|rows| - 1].timestamp
    ensures var n := |rows| - 1; Ladder(rows[RunStart(rows, n)..n], side) == []
  {
    hide Images, Ladder, RunStart, RowTotal, Spells;
    var n, m := |rows| - 1, |before| - 1;
    if m >= 0 {
      RunBegins(rows[..n], before);
      var first := RowTotal(before[..m]);
      SpelledSides(rows[..n][first..n], before[m], side);
      assert rows[..n][first..n][n - 1 - first] == rows[n - 1];
    } else {
      EmptyImages(rows[..n], before);
    }
    RunStartIs(rows, n, n);
    NoLadder(rows[n..n], side);
  }

  lemma AppendedIfInPlace(images: seq<Image>, row: ReferenceRow)
    ensures var n := |images| - 1;
            Appended(images, row).Some?
            <==> InPlace(if n >= 0 && images[n].time == row.timestamp then images[n] else Blank(row.timestamp), row)
  {
  }

  lemma NoLadder(rows: seq<ReferenceRow>, side: Side)
    requires rows == []
    ensures Ladder(rows, side) == []
  {
  }

  lemma SpelledSides(rows: seq<ReferenceRow>, image: Image, side: Side)
    requires Spells(rows, image)
    ensures rows != [] && image.Levels(side) == Ladder(rows, side)
    ensures forall k | 0 <= k < |rows| :: rows[k].timestamp == image.time
  {
  }

  lemma EmptyImages(rows: seq<ReferenceRow>, images: seq<Image>)
    requires Images(rows) == Some(images) && images == []
    ensures rows == []
  {
    ImagesKeepRows(rows);
  }

  /** The last image's run goes to the end, and begins where another millisecond ends. */
  lemma RunBegins(rows: seq<ReferenceRow>, images: seq<Image>)
    requires Images(rows) == Some(images) && images != []
    ensures var first := RowTotal(images[..|images| - 1]);
            && first < |rows| && Spells(rows[first..|rows|], images[|images| - 1])
            && (first > 0 ==> rows[first - 1].timestamp != images[|images| - 1].time)
  {
    hide Images, RowTotal, Spells;
    ImagesSpellTheRows(rows);
    var m := |images| - 1;
    assert SpelledAt(rows, images, m) && images[..m + 1] == images;
    var first := RowTotal(images[..m]);
    SpelledSides(rows[first..|rows|], images[m], Bid);
    if m > 0 {
      assert SpelledAt(rows, images, m - 1) && images[..m - 1 + 1] == images[..m];
      var a := RowTotal(images[..m - 1]);
      SpelledSides(rows[a..first], images[m - 1], Bid);
      assert rows[a..first][first - a - 1] == rows[first - 1];
      assert images[m - 1].time != images[m].time;
    } else {
      NoImage();
      assert images[..0] == [];
    }
  }

  predicate NamesRank(row: ReferenceRow, side: Side, rank: int, level: Level) {
    row.side == side && row.level == rank && level == Level(row.price, row.quantity)
  }

  ghost predicate Ranked(rows: seq<ReferenceRow>) {
    forall k | 0 <= k < |rows| :: rows[k].level == |Ladder(rows[..k], rows[k].side)|
  }

  lemma RankedPrefix(rows: seq<ReferenceRow>)
    requires rows != [] && Ranked(rows)
    ensures var n := |rows| - 1; Ranked(rows[..n]) && rows[n].level == |Ladder(rows[..n], rows[n].side)|
  {
    var init := rows[..|rows| - 1];
    assert forall k | 0 <= k < |init| :: init[k] == rows[k] && init[..k] == rows[..k];
    hide Ladder;
  }

  /** Each rank of an image is what one row of its run names, and every row of the run names one. */
  lemma {:induction false} RanksAreRows(rows: seq<ReferenceRow>, image: Image, side: Side)
    requires Spells(rows, image)
    ensures var levels := image.Levels(side);
            && (forall k | 0 <= k < |rows| && rows[k].side == side ::
                  0 <= rows[k].level < |levels| && levels[rows[k].level] == Level(rows[k].price, rows[k].quantity))
            && (forall r | 0 <= r < |levels| :: exists k :: 0 <= k < |rows| && NamesRank(rows[k], side, r, levels[r]))
  {
    RowsNameRanks(rows, side, image.Levels(side));
    RanksAreNamed(rows, side, image.Levels(side));
    hide Ladder, NamesRank, Spells;
  }

  lemma {:induction false} RowsNameRanks(rows: seq<ReferenceRow>, side: Side, levels: seq<Level>)
    requires Ranked(rows) && levels == Ladder(rows, side)
    ensures forall k | 0 <= k < |rows| && rows[k].side == side ::
              0 <= rows[k].level < |levels| && levels[rows[k].level] == Level(rows[k].price, rows[k].quantity)
  {
    hide Ranked, Ladder;
    if rows != [] {
      var n := |rows| - 1;
      var init := rows[..n];
      RankedPrefix(rows);
      RowsNameRanks(init, side, Ladder(init, side));
      assert rows == init + [rows[n]];
      LadderGrows(init, rows[n], side);
      assert forall k | 0 <= k < n :: init[k] == rows[k];
    }
  }

  lemma {:induction false} RanksAreNamed(rows: seq<ReferenceRow>, side: Side, levels: seq<Level>)
    requires Ranked(rows) && levels == Ladder(rows, side)
    ensures forall r | 0 <= r < |levels| :: exists k :: 0 <= k < |rows| && NamesRank(rows[k], side, r, levels[r])
  {
    if rows == [] {
      NoLadder(rows, side);
    } else {
      hide Ranked, Ladder;
      var n := |rows| - 1;
      var init, before := rows[..n], Ladder(rows[..n], side);
      RankedPrefix(rows);
      RanksAreNamed(init, side, before);
      assert rows == init + [rows[n]];
      LadderGrows(init, rows[n], side);
      forall r | 0 <= r < |levels| ensures exists k :: 0 <= k < |rows| && NamesRank(rows[k], side, r, levels[r]) {
        if r < |before| {
          var k :| 0 <= k < n && NamesRank(init[k], side, r, before[r]);
          assert NamesRank(rows[k], side, r, levels[r]);
        } else {
          assert NamesRank(rows[n], side, r, levels[r]);
        }
      }
    }
  }

  // ---------------------------------------------------------------- pairing events with images

  /** Where a reader at `c` stops if it skips events earlier than `time`. */
  function Before(events: seq<BookUpdate>, c: nat, time: int): (k: nat)
    requires c <= |events|
    ensures c <= k <= |events|
    ensures forall i | c <= i < k :: events[i].timestamp < time
    ensures k < |events| ==> events[k].timestamp >= time
    decreases |events| - c
  {
    if c < |events| && events[c].timestamp < time then Before(events, c + 1, time) else c
  }

  /** Where it stops if it takes the events at `time`. */
  function Through(events: seq<BookUpdate>, c: nat, time: int): (k: nat)
    requires c <= |events|
    ensures c <= k <= |events|
    ensures forall i | c <= i < k :: events[i].timestamp == time
    ensures k < |events| ==> events[k].timestamp != time
    decreases |events| - c
  {
    if c < |events| && events[c].timestamp == time then Through(events, c + 1, time) else c
  }

  /** Events applied once the first `n` images are done. */
  function Cursor(events: seq<BookUpdate>, images: seq<Image>, n: nat): (c: nat)
    requires n <= |images|
    ensures c <= |events|
  {
    if n == 0 then 0
    else
      var time := images[n - 1].time;
      Through(events, Before(events, Cursor(events, images, n - 1), time), time)
  }

  /** Events sharing the image's millisecond, as the harness counts them. */
  function GroupSize(events: seq<BookUpdate>, images: seq<Image>, j: nat): nat
    requires j < |images|
  {
    Cursor(events, images, j + 1) - Before(events, Cursor(events, images, j), images[j].time)
  }

  function BookAt(events: seq<BookUpdate>, images: seq<Image>, j: nat): Book
    requires j < |images|
  {
    Replay(FRESH, events[..Cursor(events, images, j + 1)]).state.book
  }

  function EventsAt(events: seq<BookUpdate>, time: int): set<int> {
    set i | 0 <= i < |events| && events[i].timestamp == time
  }

  /** The first `c` events are the ones at or before `time`. */
  ghost predicate Splits(events: seq<BookUpdate>, c: nat, time: int) {
    forall i | 0 <= i < |events| :: events[i].timestamp <= time <==> i < c
  }

  ghost predicate InTimeOrder(events: seq<BookUpdate>) {
    forall i, j | 0 <= i < j < |events| :: events[i].timestamp <= events[j].timestamp
  }

  function Latest(images: seq<Image>, n: nat): int
    requires 0 < n <= |images|
  {
    if n == 1 || images[n - 1].time > Latest(images, n - 1) then images[n - 1].time else Latest(images, n - 1)
  }

  lemma IntervalSize(s: set<int>, a: int, b: int)
    requires a <= b && forall i :: i in s <==> a <= i < b
    ensures |s| == b - a
    decreases b - a
  {
    if a == b {
      assert s == {};
    } else {
      IntervalSize(s - {a}, a + 1, b);
    }
  }

  /** Taking the events up to `time` from a split at an earlier time, or not at all. */
  lemma SplitAdvances(events: seq<BookUpdate>, c: nat, was: int, time: int)
    requires InTimeOrder(events) && c <= |events| && Splits(events, c, was)
    ensures var b := Before(events, c, time); var a := Through(events, b, time);
            && (time > was ==> Splits(events, a, time) && a - b == |EventsAt(events, time)|)
            && (time <= was ==> b == a == c)
  {
    var b := Before(events, c, time);
    var a := Through(events, b, time);
    if time > was {
      AfterIsLater(events, b, a, time);
      assert forall i | 0 <= i < c :: events[i].timestamp <= was;
      IntervalSize(EventsAt(events, time), b, a);
    }
  }

  lemma AfterIsLater(events: seq<BookUpdate>, b: nat, a: nat, time: int)
    requires InTimeOrder(events) && b <= a <= |events| && (b < |events| ==> events[b].timestamp >= time)
    requires a < |events| ==> events[a].timestamp != time
    ensures forall i | a <= i < |events| :: events[i].timestamp > time
  {
    if a < |events| {
      assert events[b].timestamp <= events[a].timestamp || a == b;
    }
  }

  lemma StartSplits(events: seq<BookUpdate>, time: int)
    requires InTimeOrder(events)
    ensures var b := Before(events, 0, time); var a := Through(events, b, time);
            Splits(events, a, time) && a - b == |EventsAt(events, time)|
  {
    var b := Before(events, 0, time);
    var a := Through(events, b, time);
    AfterIsLater(events, b, a, time);
    IntervalSize(EventsAt(events, time), b, a);
  }

  /** Whatever order the images come in, the events applied are those up to the latest so far. */
  lemma {:induction false} CursorIsLatest(events: seq<BookUpdate>, images: seq<Image>, n: nat)
    requires InTimeOrder(events) && 0 < n <= |images|
    ensures Splits(events, Cursor(events, images, n), Latest(images, n))
  {
    if n == 1 {
      StartSplits(events, images[0].time);
    } else {
      CursorIsLatest(events, images, n - 1);
      SplitAdvances(events, Cursor(events, images, n - 1), Latest(images, n - 1), images[n - 1].time);
    }
  }

  /** An image counts the events of its millisecond, unless an image as late came before it. */
  lemma {:induction false} GroupIsTheMillisecond(events: seq<BookUpdate>, images: seq<Image>, j: nat)
    requires InTimeOrder(events) && j < |images|
    ensures GroupSize(events, images, j)
         == if j > 0 && Latest(images, j) >= images[j].time then 0 else |EventsAt(events, images[j].time)|
  {
    if j == 0 {
      StartSplits(events, images[0].time);
    } else {
      CursorIsLatest(events, images, j);
      SplitAdvances(events, Cursor(events, images, j), Latest(images, j), images[j].time);
    }
  }

  /** No look-ahead: an image that is compared at all is compared with the replay of exactly
      the events at or before its millisecond, even in a reference out of order. */
  lemma {:induction false} ComparedAgainstItsPast(events: seq<BookUpdate>, images: seq<Image>, j: nat)
    requires Replay(FRESH, events).error.None? && j < |images| && GroupSize(events, images, j) > 0
    ensures var c := Cursor(events, images, j + 1);
            && Splits(events, c, images[j].time)
            && Replay(FRESH, events[..c]).error.None?
            && BookAt(events, images, j) == Replay(FRESH, events[..c]).state.book
  {
    hide Replay, Cursor, GroupSize, Latest;
    AcceptedIsOrdered(FRESH, events);
    LatestGrows(images, j);
    GroupIsTheMillisecond(events, images, j);
    CursorIsLatest(events, images, j + 1);
    ReplayPrefix(FRESH, events, Cursor(events, images, j + 1));
  }

  lemma LatestGrows(images: seq<Image>, j: nat)
    requires j < |images|
    ensures j == 0 || Latest(images, j) < images[j].time ==> Latest(images, j + 1) == images[j].time
  {
  }

  // ---------------------------------------------------------------- the summary

  datatype Tally = Tally(
    images: nat, referenceRows: nat, unambiguous: nat, ambiguous: nat, orphans: nat,
    unambiguousMismatches: nat, ambiguousMismatches: nat,
    priceMismatches: nat, quantityMismatches: nat, missingLevels: nat, extraLevels: nat)

  datatype Verdict = Pass | Fail | Inconclusive

  /** The harness's report: what it compared, and the replay's own counters. */
  datatype Summary = Summary(tally: Tally, replay: Stats) {
    function Verdict(): Verdict {
      if tally.images == 0 then Inconclusive
      else if tally.unambiguousMismatches == 0 && tally.ambiguousMismatches == 0 then Pass
      else Fail
    }
  }

  datatype ValidationError = MisplacedLevel | EventRefused(error: ReplayError)

  const NOTHING := Tally(0, 0, 0, 0, 0, 0, 0, 0, 0, 0, 0)

  function KindCount(diffs: seq<LevelDiff>, kind: DiffKind): nat {
    if diffs == [] then 0
    else KindCount(diffs[..|diffs| - 1], kind) + if diffs[|diffs| - 1].kind == kind then 1 else 0
  }

  /** The count of one image: kinds of difference only where a single event forces the pairing. */
  function Counted(t: Tally, rows: nat, group: nat, diffs: seq<LevelDiff>): Tally {
    var u := t.(images := t.images + 1, referenceRows := t.referenceRows + rows);
    var miss := if diffs == [] then 0 else 1;
    if group == 0 then u.(orphans := u.orphans + 1)
    else if group > 1 then u.(ambiguous := u.ambiguous + 1, ambiguousMismatches := u.ambiguousMismatches + miss)
    else u.(unambiguous := u.unambiguous + 1,
            unambiguousMismatches := u.unambiguousMismatches + miss,
            priceMismatches := u.priceMismatches + KindCount(diffs, PriceMismatch),
            quantityMismatches := u.quantityMismatches + KindCount(diffs, QuantityMismatch),
            missingLevels := u.missingLevels + KindCount(diffs, MissingLevel),
            extraLevels := u.extraLevels + KindCount(diffs, ExtraLevel))
  }

  function ImageDiffs(events: seq<BookUpdate>, images: seq<Image>, depth: nat, j: nat): seq<LevelDiff>
    requires j < |images|
  {
    Diffs(BookAt(events, images, j), images[j].bids, images[j].asks, depth)
  }

  function TallyOf(events: seq<BookUpdate>, images: seq<Image>, depth: nat, n: nat): Tally
    requires n <= |images|
  {
    if n == 0 then NOTHING
    else Counted(TallyOf(events, images, depth, n - 1), images[n - 1].rows, GroupSize(events, images, n - 1),
                 ImageDiffs(events, images, depth, n - 1))
  }

  predicate Matches(events: seq<BookUpdate>, images: seq<Image>, depth: nat, j: nat)
    requires j < |images|
  {
    Agrees(BookAt(events, images, j), images[j].bids, images[j].asks, depth)
  }

  function WithGroup(events: seq<BookUpdate>, images: seq<Image>, n: nat, low: nat, high: nat): set<int>
    requires n <= |images|
  {
    set j | 0 <= j < n && low <= GroupSize(events, images, j) <= high
  }

  function Mismatched(events: seq<BookUpdate>, images: seq<Image>, depth: nat, n: nat, low: nat, high: nat): set<int>
    requires n <= |images|
  {
    set j | 0 <= j < n && low <= GroupSize(events, images, j) <= high && !Matches(events, images, depth, j)
  }

  /** More events than any group can hold. */
  function Many(events: seq<BookUpdate>): nat {
    |events| + 1
  }

  /** The partition by events per millisecond is exact, and mismatches are counted once each. */
  lemma {:induction false} TallyCounts(events: seq<BookUpdate>, images: seq<Image>, depth: nat, n: nat)
    requires n <= |images|
    ensures var t := TallyOf(events, images, depth, n); var many := Many(events);
            && t.images == n == t.orphans + t.unambiguous + t.ambiguous
            && t.referenceRows == RowTotal(images[..n])
            && t.orphans == |WithGroup(events, images, n, 0, 0)|
            && t.unambiguous == |WithGroup(events, images, n, 1, 1)|
            && t.ambiguous == |WithGroup(events, images, n, 2, many)|
            && t.unambiguousMismatches == |Mismatched(events, images, depth, n, 1, 1)|
            && t.ambiguousMismatches == |Mismatched(events, images, depth, n, 2, many)|
  {
    hide TallyOf, WithGroup, Mismatched, GroupSize, Matches;
    if n == 0 {
      NoImages(events, images, depth);
    } else {
      var j, many := n - 1, Many(events);
      TallyCounts(events, images, depth, j);
      TallyStep(events, images, depth, j);
      OneMoreImage(events, images, depth, j, 0, 0);
      OneMoreImage(events, images, depth, j, 1, 1);
      OneMoreImage(events, images, depth, j, 2, many);
      GroupIsBounded(events, images, j);
      assert images[..n][..j] == images[..j];
    }
  }

  lemma NoImages(events: seq<BookUpdate>, images: seq<Image>, depth: nat)
    ensures TallyOf(events, images, depth, 0) == NOTHING && RowTotal(images[..0]) == 0
    ensures forall low, high :: WithGroup(events, images, 0, low, high) == {}
                                && Mismatched(events, images, depth, 0, low, high) == {}
  {
  }

  lemma MatchesMeansNoDiffs(events: seq<BookUpdate>, images: seq<Image>, depth: nat, j: nat)
    requires j < |images|
    ensures Matches(events, images, depth, j) <==> ImageDiffs(events, images, depth, j) == []
  {
    hide BookAt;
    NoDiffsMeansAgrees(BookAt(events, images, j), images[j].bids, images[j].asks, depth);
  }

  lemma TallyStep(events: seq<BookUpdate>, images: seq<Image>, depth: nat, j: nat)
    requires j < |images|
    ensures var t, u := TallyOf(events, images, depth, j), TallyOf(events, images, depth, j + 1);
            var group, miss := GroupSize(events, images, j), if Matches(events, images, depth, j) then 0 else 1;
            && u.images == t.images + 1 && u.referenceRows == t.referenceRows + images[j].rows
            && u.orphans == t.orphans + (if group == 0 then 1 else 0)
            && u.unambiguous == t.unambiguous + (if group == 1 then 1 else 0)
            && u.ambiguous == t.ambiguous + (if group > 1 then 1 else 0)
            && u.unambiguousMismatches == t.unambiguousMismatches + (if group == 1 then miss else 0)
            && u.ambiguousMismatches == t.ambiguousMismatches + (if group > 1 then miss else 0)
  {
    MatchesMeansNoDiffs(events, images, depth, j);
    hide Matches, ImageDiffs, GroupSize, KindCount;
  }

  lemma OneMoreImage(events: seq<BookUpdate>, images: seq<Image>, depth: nat, j: nat, low: nat, high: nat)
    requires j < |images|
    ensures var hit := low <= GroupSize(events, images, j) <= high;
            && |WithGroup(events, images, j + 1, low, high)|
               == |WithGroup(events, images, j, low, high)| + (if hit then 1 else 0)
            && |Mismatched(events, images, depth, j + 1, low, high)|
               == |Mismatched(events, images, depth, j, low, high)|
                  + (if hit && !Matches(events, images, depth, j) then 1 else 0)
  {
    OneMoreInGroup(events, images, j, low, high);
    OneMoreMismatch(events, images, depth, j, low, high);
    hide GroupSize, Matches, WithGroup, Mismatched;
  }

  lemma OneMoreInGroup(events: seq<BookUpdate>, images: seq<Image>, j: nat, low: nat, high: nat)
    requires j < |images|
    ensures |WithGroup(events, images, j + 1, low, high)|
         == |WithGroup(events, images, j, low, high)| + (if low <= GroupSize(events, images, j) <= high then 1 else 0)
  {
    hide GroupSize;
    SetGrows(WithGroup(events, images, j, low, high), WithGroup(events, images, j + 1, low, high), j,
             low <= GroupSize(events, images, j) <= high);
  }

  lemma OneMoreMismatch(events: seq<BookUpdate>, images: seq<Image>, depth: nat, j: nat, low: nat, high: nat)
    requires j < |images|
    ensures |Mismatched(events, images, depth, j + 1, low, high)|
         == |Mismatched(events, images, depth, j, low, high)|
            + (if low <= GroupSize(events, images, j) <= high && !Matches(events, images, depth, j) then 1 else 0)
  {
    hide GroupSize, Matches;
    SetGrows(Mismatched(events, images, depth, j, low, high), Mismatched(events, images, depth, j + 1, low, high), j,
             low <= GroupSize(events, images, j) <= high && !Matches(events, images, depth, j));
  }

  /** The kinds account for every difference of the unambiguous images, so they are all zero
      exactly when no unambiguous image differs. */
  lemma {:induction false} KindsCoverDiffs(diffs: seq<LevelDiff>)
    ensures KindCount(diffs, PriceMismatch) + KindCount(diffs, QuantityMismatch)
            + KindCount(diffs, MissingLevel) + KindCount(diffs, ExtraLevel) == |diffs|
  {
    if diffs != [] {
      KindsCoverDiffs(diffs[..|diffs| - 1]);
    }
  }

  lemma {:induction false} NoKindsMeansNoMismatch(events: seq<BookUpdate>, images: seq<Image>, depth: nat, n: nat)
    requires n <= |images|
    ensures var t := TallyOf(events, images, depth, n);
            && t.unambiguousMismatches <= t.priceMismatches + t.quantityMismatches + t.missingLevels + t.extraLevels
            && (t.unambiguousMismatches == 0
                ==> t.priceMismatches + t.quantityMismatches + t.missingLevels + t.extraLevels == 0)
  {
    hide KindCount, ImageDiffs, GroupSize;
    if n > 0 {
      NoKindsMeansNoMismatch(events, images, depth, n - 1);
      KindsCoverDiffs(ImageDiffs(events, images, depth, n - 1));
    }
  }

  /** How many differences of a kind the first `n` images show, of those one event alone pairs. */
  function KindTotal(events: seq<BookUpdate>, images: seq<Image>, depth: nat, n: nat, kind: DiffKind): nat
    requires n <= |images|
  {
    if n == 0 then 0
    else KindTotal(events, images, depth, n - 1, kind)
         + if GroupSize(events, images, n - 1) == 1 then |OfKind(ImageDiffs(events, images, depth, n - 1), kind)| else 0
  }

  function OfKind(diffs: seq<LevelDiff>, kind: DiffKind): set<int> {
    set i | 0 <= i < |diffs| && diffs[i].kind == kind
  }

  lemma {:induction false} KindCountCounts(diffs: seq<LevelDiff>, kind: DiffKind)
    ensures KindCount(diffs, kind) == |OfKind(diffs, kind)|
  {
    if diffs != [] {
      var n := |diffs| - 1;
      KindCountCounts(diffs[..n], kind);
      SetGrows(OfKind(diffs[..n], kind), OfKind(diffs, kind), n, diffs[n].kind == kind);
    }
  }

  /** Each kind counter counts its own kind, over the images a single event pairs. */
  lemma {:induction false} KindsAreCounted(events: seq<BookUpdate>, images: seq<Image>, depth: nat, n: nat)
    requires n <= |images|
    ensures var t := TallyOf(events, images, depth, n);
            && t.priceMismatches == KindTotal(events, images, depth, n, PriceMismatch)
            && t.quantityMismatches == KindTotal(events, images, depth, n, QuantityMismatch)
            && t.missingLevels == KindTotal(events, images, depth, n, MissingLevel)
            && t.extraLevels == KindTotal(events, images, depth, n, ExtraLevel)
  {
    hide KindCount, OfKind, ImageDiffs, GroupSize;
    if n > 0 {
      KindsAreCounted(events, images, depth, n - 1);
      var diffs := ImageDiffs(events, images, depth, n - 1);
      KindCountCounts(diffs, PriceMismatch);
      KindCountCounts(diffs, QuantityMismatch);
      KindCountCounts(diffs, MissingLevel);
      KindCountCounts(diffs, ExtraLevel);
    }
  }

  function Report(events: seq<BookUpdate>, images: seq<Image>, depth: nat): Summary {
    Summary(TallyOf(events, images, depth, |images|), Replay(FRESH, events).state.stats)
  }

  /** Passing means there was an image, and every image that shares its millisecond with an event
      shows the replayed book's first `depth` ranks on both sides. */
  lemma {:induction false} PassIsExact(events: seq<BookUpdate>, images: seq<Image>, depth: nat)
    ensures Report(events, images, depth).Verdict() == Pass
       <==> images != [] && forall j | 0 <= j < |images| :: GroupSize(events, images, j) > 0
                                                            ==> Matches(events, images, depth, j)
  {
    hide TallyOf, Matches, GroupSize, Replay, Mismatched, WithGroup, RowTotal;
    var n := |images|;
    TallyCounts(events, images, depth, n);
    var forced, shared := Mismatched(events, images, depth, n, 1, 1), Mismatched(events, images, depth, n, 2, Many(events));
    assert Report(events, images, depth).Verdict() == Pass <==> n > 0 && forced == {} && shared == {};
    MismatchedIsEmpty(events, images, depth, n, 1, 1);
    MismatchedIsEmpty(events, images, depth, n, 2, Many(events));
    forall j | 0 <= j < n ensures GroupSize(events, images, j) <= Many(events) {
      GroupIsBounded(events, images, j);
    }
  }

  lemma MismatchedIsEmpty(events: seq<BookUpdate>, images: seq<Image>, depth: nat, n: nat, low: nat, high: nat)
    requires n <= |images|
    ensures Mismatched(events, images, depth, n, low, high) == {}
       <==> forall j | 0 <= j < n :: low <= GroupSize(events, images, j) <= high ==> Matches(events, images, depth, j)
  {
    hide GroupSize, Matches;
    var bad := Mismatched(events, images, depth, n, low, high);
    assert forall j | 0 <= j < n :: j in bad
             <==> low <= GroupSize(events, images, j) <= high && !Matches(events, images, depth, j);
  }

  lemma GroupIsBounded(events: seq<BookUpdate>, images: seq<Image>, j: nat)
    requires j < |images|
    ensures GroupSize(events, images, j) <= Many(events)
  {
  }

  /** The image's millisecond holds an event, and no earlier image was as late. */
  ghost predicate Shares(events: seq<BookUpdate>, images: seq<Image>, j: nat)
    requires j < |images|
  {
    EventsAt(events, images[j].time) != {} && (j == 0 || Latest(images, j) < images[j].time)
  }

  /** Exactly which images are compared, whatever order they come in. */
  lemma {:induction false} ComparedIsShared(events: seq<BookUpdate>, images: seq<Image>, j: nat)
    requires Replay(FRESH, events).error.None? && j < |images|
    ensures GroupSize(events, images, j) > 0 <==> Shares(events, images, j)
  {
    hide Replay, GroupSize, Latest;
    AcceptedIsOrdered(FRESH, events);
    GroupIsTheMillisecond(events, images, j);
    var none: set<int> := {};
    assert EventsAt(events, images[j].time) == none <==> |EventsAt(events, images[j].time)| == 0;
  }

  /** A verdict reached without comparing any image. */
  predicate ComparedNothing(report: Summary) {
    report.tally.unambiguous == 0 && report.tally.ambiguous == 0
  }

  /** The run that must not pass but does: it passes having compared nothing exactly when there is
      an image and none that shares its millisecond with an event is later than all before it. */
  lemma {:induction false} PassesComparingNothing(events: seq<BookUpdate>, images: seq<Image>, depth: nat)
    requires Replay(FRESH, events).error.None?
    ensures Report(events, images, depth).Verdict() == Pass && ComparedNothing(Report(events, images, depth))
       <==> images != [] && !exists j :: 0 <= j < |images| && Shares(events, images, j)
  {
    hide Replay, TallyOf, WithGroup, Shares, GroupSize, Mismatched, Matches, Summary.Verdict;
    TallyCounts(events, images, depth, |images|);
    PassIsExact(events, images, depth);
    var orphans := WithGroup(events, images, |images|, 0, 0);
    forall j | 0 <= j < |images|
      ensures j in orphans <==> !Shares(events, images, j)
      ensures GroupSize(events, images, j) > 0 <==> Shares(events, images, j)
    {
      ComparedIsShared(events, images, j);
      IsOrphan(events, images, j);
    }
    OrphansAmongImages(events, images, orphans);
  }

  lemma IsOrphan(events: seq<BookUpdate>, images: seq<Image>, j: nat)
    requires j < |images|
    ensures j in WithGroup(events, images, |images|, 0, 0) <==> GroupSize(events, images, j) == 0
  {
  }

  lemma OrphansAmongImages(events: seq<BookUpdate>, images: seq<Image>, orphans: set<int>)
    requires orphans == WithGroup(events, images, |images|, 0, 0)
    requires forall j | 0 <= j < |images| :: j in orphans <==> !Shares(events, images, j)
    ensures |orphans| < |images| <==> exists j :: 0 <= j < |images| && Shares(events, images, j)
  {
    hide Shares, GroupSize;
    var all := set j | 0 <= j < |images| && images[j].time == images[j].time;
    IntervalSize(all, 0, |images|);
    SubsetSize(orphans, all);
  }

  /** A reference of one image and no events at all passes. */
  lemma {:induction false} OrphansAlonePass()
    ensures var images := Images([ReferenceRow(7, Bid, 0, 100.0, 1.0)]);
            && images.Some? && Report([], images.value, 25).Verdict() == Pass
            && ComparedNothing(Report([], images.value, 25))
  {
    var rows := [ReferenceRow(7, Bid, 0, 100.0, 1.0)];
    OneImage(rows);
    PassesComparingNothing([], Images(rows).value, 25);
  }

  lemma {:induction false} OneImage(rows: seq<ReferenceRow>)
    requires |rows| == 1 && rows[0].level == 0 && rows[0].side.Bid?
    ensures Images(rows) == Some([Image(rows[0].timestamp, [Level(rows[0].price, rows[0].quantity)], [], 1)])
  {
    var none: seq<Image>, level := [], Level(rows[0].price, rows[0].quantity);
    assert Images(rows[..0]) == Some(none);
    assert Blank(rows[0].timestamp).bids + [level] == [level];
    assert none + [Extended(Blank(rows[0].timestamp), rows[0])] == [Extended(Blank(rows[0].timestamp), rows[0])];
  }

  const LATE_EVENT := BookUpdate(5, true, Bid, Num(100.0), Num(2.0))
  const LATE_IMAGES := [Image(10, [Level(100.0, 1.0)], [], 1), Image(5, [Level(100.0, 1.0)], [], 1)]

  lemma {:induction false} TwoImages(rows: seq<ReferenceRow>)
    requires rows == [ReferenceRow(10, Bid, 0, 100.0, 1.0), ReferenceRow(5, Bid, 0, 100.0, 1.0)]
    ensures Images(rows) == Some(LATE_IMAGES)
  {
    hide Images;
    OneImage(rows[..1]);
    LastRow(rows);
    assert Blank(5).bids + [Level(100.0, 1.0)] == [Level(100.0, 1.0)];
    assert LATE_IMAGES == [LATE_IMAGES[0]] + [Extended(Blank(5), rows[1])];
  }

  lemma {:induction false} LastRow(rows: seq<ReferenceRow>)
    requires rows != []
    ensures Images(rows) == match Images(rows[..|rows| - 1])
                            case None => None
                            case Some(images) => Appended(images, rows[|rows| - 1])
  {
    hide Appended;
  }

  lemma {:induction false} LateBook()
    ensures Replay(FRESH, [LATE_EVENT]).error.None?
    ensures Replay(FRESH, [LATE_EVENT]).state.book == Book([Level(100.0, 2.0)], [])
  {
    hide Replay, ApplyLevel;
    FirstLevel(EMPTY, Bid, 100.0, 2.0);
    NoRows(FRESH, [LATE_EVENT]);
    OneMoreRow(FRESH, [LATE_EVENT], 0, FRESH);
    assert [LATE_EVENT][..1] == [LATE_EVENT];
  }

  /** So does one whose image at an event's own millisecond comes after a later image, though the
      book there is not the image's. */
  lemma {:induction false} LateImagesPass()
    ensures var events := [LATE_EVENT];
            var images := Images([ReferenceRow(10, Bid, 0, 100.0, 1.0), ReferenceRow(5, Bid, 0, 100.0, 1.0)]);
            && images == Some(LATE_IMAGES) && Report(events, images.value, 25).Verdict() == Pass
            && ComparedNothing(Report(events, images.value, 25))
            && EventsAt(events, images.value[1].time) == {0} && !Matches(events, images.value, 25, 1)
  {
    hide Replay, Images, TallyOf;
    var events := [LATE_EVENT];
    TwoImages([ReferenceRow(10, Bid, 0, 100.0, 1.0), ReferenceRow(5, Bid, 0, 100.0, 1.0)]);
    LateBook();
    assert EventsAt(events, 10) == {};
    PassesComparingNothing(events, LATE_IMAGES, 25);
    assert Cursor(events, LATE_IMAGES, 1) == 1 && Cursor(events, LATE_IMAGES, 2) == 1;
    assert events[..1] == events;
    assert Top(BookAt(events, LATE_IMAGES, 1).bids, 25)[0] != Top(LATE_IMAGES[1].bids, 25)[0];
  }

  lemma SubsetSize(a: set<int>, b: set<int>)
    requires a <= b
    ensures |a| < |b| <==> a != b
  {
    assert b == a + (b - a);
  }

  // ---------------------------------------------------------------- the streaming run

  ghost predicate Read(rows: seq<ReferenceRow>, at: nat, images: seq<Image>) {
    at <= |rows| && Images(rows[..at]) == Some(images)
    && (images != [] && at < |rows| ==> images[|images| - 1].time != rows[at].timestamp)
  }

  /** The rows sharing the next row's millisecond, as one image. */
  method NextImage(rows: seq<ReferenceRow>, at: nat, ghost done: seq<Image>) returns (image: Image, next: nat, ok: bool)
    requires at < |rows| && Read(rows, at, done)
    ensures at < next <= |rows| || !ok
    ensures ok ==> Read(rows, next, done + [image])
    ensures !ok ==> Images(rows).None?
  {
    hide Images;
    image, next := Blank(rows[at].timestamp), at;
    while next < |rows| && rows[next].timestamp == image.time
      invariant at <= next <= |rows| && image.time == rows[at].timestamp
      invariant next == at ==> image == Blank(rows[at].timestamp)
      invariant Images(rows[..next]) == Some(if next == at then done else done + [image])
    {
      RowStep(rows, next, done, image, next == at);
      if !InPlace(image, rows[next]) {
        MisplacedLevelIsFatal(rows, next + 1);
        return image, next, false;
      }
      image := Extended(image, rows[next]);
      next := next + 1;
    }
    return image, next, true;
  }

  lemma RowStep(rows: seq<ReferenceRow>, next: nat, done: seq<Image>, image: Image, first: bool)
    requires next < |rows| && rows[next].timestamp == image.time
    requires Images(rows[..next]) == Some(if first then done else done + [image])
    requires first ==> image == Blank(image.time) && (done != [] ==> done[|done| - 1].time != image.time)
    ensures Images(rows[..next + 1])
         == if InPlace(image, rows[next]) then Some(done + [Extended(image, rows[next])]) else None
  {
    assert rows[..next + 1][..next] == rows[..next];
    assert (done + [image])[..|done|] == done;
  }

  method Validate(events: seq<BookUpdate>, reference: seq<ReferenceRow>, depth: nat)
    returns (r: Result<Summary, ValidationError>)
    ensures r.Ok? <==> Replay(FRESH, events).error.None? && Images(reference).Some?
    ensures r.Ok? ==> r.value == Report(events, Images(reference).value, depth)
    ensures r == Err(MisplacedLevel) ==> Images(reference).None?
    ensures forall error :: r == Err(EventRefused(error)) ==> Replay(FRESH, events).error == Some(error)
  {
    hide Replay, Images, TallyOf, Diffs, Counted, Cursor, Consistent, Agrees, Before, Through, Read, ApplyRow;
    var replayer := new LiveReplayer();
    var tally, cursor, at := NOTHING, 0, 0;
    ghost var images: seq<Image> := [];
    Opening(events, reference, depth);
    while at < |reference|
      invariant at <= |reference| && Read(reference, at, images) && cursor == Cursor(events, images, |images|)
      invariant Replayed(replayer.View(), cursor, None) == Replay(FRESH, events[..cursor]) && Consistent(replayer.View())
      invariant tally == TallyOf(events, images, depth, |images|)
      invariant fresh(replayer) && fresh(replayer.book)
    {
      var image, next, ok := NextImage(reference, at, images);
      if !ok {
        return Err(MisplacedLevel);
      }
      var error;
      ghost var c := cursor;
      cursor, error := Advance(replayer, events, cursor, image.time, true);
      if error.Some? {
        return Err(EventRefused(error.value));
      }
      var first := cursor;
      cursor, error := Advance(replayer, events, cursor, image.time, false);
      if error.Some? {
        return Err(EventRefused(error.value));
      }
      var diffs := CompareTopN(replayer.book.View(), image.bids, image.asks, depth);
      tally := Counted(tally, image.rows, cursor - first, diffs);
      OneMoreTally(events, images, image, depth, first, cursor);
      at, images := next, images + [image];
    }
    AllRead(reference, at, images);
    while cursor < |events|
      invariant cursor <= |events| && fresh(replayer) && fresh(replayer.book)
      invariant Replayed(replayer.View(), cursor, None) == Replay(FRESH, events[..cursor]) && Consistent(replayer.View())
    {
      OneMoreRow(FRESH, events, cursor, replayer.View());
      var error := replayer.Apply(events[cursor]);
      if error.Some? {
        return Err(EventRefused(error.value));
      }
      cursor := cursor + 1;
    }
    assert events[..cursor] == events;
    return Ok(Summary(tally, replayer.stats));
  }

  lemma Opening(events: seq<BookUpdate>, reference: seq<ReferenceRow>, depth: nat)
    ensures Read(reference, 0, []) && Cursor(events, [], 0) == 0 && TallyOf(events, [], depth, 0) == NOTHING
    ensures Replay(FRESH, events[..0]) == Replayed(FRESH, 0, None) && Consistent(FRESH)
  {
  }

  lemma AllRead(rows: seq<ReferenceRow>, at: nat, images: seq<Image>)
    requires Read(rows, at, images) && at >= |rows|
    ensures Images(rows) == Some(images)
  {
    assert rows[..at] == rows;
  }

  /** Applies the events before `time`, or those at it. */
  method Advance(replayer: LiveReplayer, events: seq<BookUpdate>, at: nat, time: int, early: bool)
    returns (cursor: nat, error: Option<ReplayError>)
    requires at <= |events| && Consistent(replayer.View())
    requires Replayed(replayer.View(), at, None) == Replay(FRESH, events[..at])
    modifies replayer, replayer.book
    ensures error.None? ==> cursor == if early then Before(events, at, time) else Through(events, at, time)
    ensures error.None? ==> Replayed(replayer.View(), cursor, None) == Replay(FRESH, events[..cursor])
    ensures error.Some? ==> Replay(FRESH, events).error == error
    ensures Consistent(replayer.View())
  {
    hide Replay, ApplyRow, Consistent;
    cursor, error := at, None;
    while cursor < |events| && (if early then events[cursor].timestamp < time else events[cursor].timestamp == time)
      invariant at <= cursor <= |events| && Consistent(replayer.View()) && error.None?
      invariant Replayed(replayer.View(), cursor, None) == Replay(FRESH, events[..cursor])
      invariant forall i | at <= i < cursor :: if early then events[i].timestamp < time else events[i].timestamp == time
    {
      OneMoreRow(FRESH, events, cursor, replayer.View());
      error := replayer.Apply(events[cursor]);
      if error.Some? {
        return;
      }
      cursor := cursor + 1;
    }
  }

  lemma CursorStep(events: seq<BookUpdate>, images: seq<Image>, n: nat)
    requires n <= |images|
    ensures n == 0 ==> Cursor(events, images, n) == 0
    ensures n > 0 ==> var time := images[n - 1].time;
              Cursor(events, images, n) == Through(events, Before(events, Cursor(events, images, n - 1), time), time)
  {
    hide Before, Through;
  }

  /** Images already done do not see the next one. */
  lemma {:induction false} CursorIgnoresLater(events: seq<BookUpdate>, images: seq<Image>, more: seq<Image>, n: nat)
    requires n <= |images|
    ensures Cursor(events, images, n) == Cursor(events, images + more, n)
  {
    hide Cursor;
    CursorStep(events, images, n);
    CursorStep(events, images + more, n);
    if n > 0 {
      CursorIgnoresLater(events, images, more, n - 1);
    }
  }

  lemma ImageIgnoresLater(events: seq<BookUpdate>, images: seq<Image>, more: seq<Image>, depth: nat, j: nat)
    requires j < |images|
    ensures GroupSize(events, images, j) == GroupSize(events, images + more, j)
    ensures ImageDiffs(events, images, depth, j) == ImageDiffs(events, images + more, depth, j)
  {
    hide Cursor, Diffs, Replay;
    CursorIgnoresLater(events, images, more, j);
    CursorIgnoresLater(events, images, more, j + 1);
  }

  lemma {:induction false} TallyIgnoresLater(events: seq<BookUpdate>, images: seq<Image>, more: seq<Image>, depth: nat,
                                             n: nat)
    requires n <= |images|
    ensures TallyOf(events, images, depth, n) == TallyOf(events, images + more, depth, n)
  {
    hide GroupSize, ImageDiffs, Counted;
    if n > 0 {
      TallyIgnoresLater(events, images, more, depth, n - 1);
      ImageIgnoresLater(events, images, more, depth, n - 1);
    }
  }

  lemma NextCursor(events: seq<BookUpdate>, images: seq<Image>, image: Image, first: nat, cursor: nat)
    requires first == Before(events, Cursor(events, images, |images|), image.time)
    requires cursor == Through(events, first, image.time)
    ensures Cursor(events, images + [image], |images| + 1) == cursor
    ensures GroupSize(events, images + [image], |images|) == cursor - first
  {
    hide Before, Through, Cursor;
    CursorIgnoresLater(events, images, [image], |images|);
    CursorStep(events, images + [image], |images| + 1);
    assert (images + [image])[|images|] == image;
  }

  lemma OneMoreTally(events: seq<BookUpdate>, images: seq<Image>, image: Image, depth: nat, first: nat, cursor: nat)
    requires first == Before(events, Cursor(events, images, |images|), image.time)
    requires cursor == Through(events, first, image.time)
    ensures var all, n := images + [image], |images|;
            && Cursor(events, all, n + 1) == cursor
            && TallyOf(events, all, depth, n + 1)
               == Counted(TallyOf(events, images, depth, n), image.rows, cursor - first,
                          Diffs(Replay(FRESH, events[..cursor]).state.book, image.bids, image.asks, depth))
  {
    hide Diffs, Replay, Counted, Cursor, GroupSize, Before, Through;
    NextCursor(events, images, image, first, cursor);
    TallyIgnoresLater(events, images, [image], depth, |images|);
    assert (images + [image])[|images|] == image;
  }
}
