/**
 * `ShemeType1`: the floor plan of one coworking. The layout is a fixed table from
 * the 28 entries of the `bookObjects` list to seats of four kinds in a left and a
 * right block. Each block has four rows of two singles and a double (the
 * `for (i in 0..3)` loops), then a quad and a triple.
 */
module FloorPlan {
  import opened Outcomes
  import opened Text
  import opened Models

  /** The composable a seat is drawn with; a triple also records its `ltr` flag. */
  datatype SeatKind = Single | Double | Triple(ltr: bool) | Quad

  datatype Block = LeftBlock | RightBlock

  /** One seat of the plan: which entry of `bookObjects` it shows, its kind and its block. */
  datatype Slot = Slot(index: nat, kind: SeatKind, block: Block)

  /** The number of entries the plan reads (indices 0 to 27). */
  const SeatCount: nat := 28

  /** One pass of the loop body: singles at `first` and `first + 1`, a double at `first + 2`. */
  function Row(first: nat, block: Block): (r: seq<Slot>)
    ensures |r| == 3 && r[0].index == first && r[1].index == first + 1 && r[2].index == first + 2
    ensures r[0].kind == r[1].kind == Single && r[2].kind == Double
    ensures r[0].block == r[1].block == r[2].block == block
  {
    [Slot(first, Single, block), Slot(first + 1, Single, block), Slot(first + 2, Double, block)]
  }

  /** `for (i in 0 until rows)` drawing `Row(base + 3 * i)`: rows in order, three seats each. */
  function Rows(base: nat, block: Block, rows: nat): (r: seq<Slot>)
    ensures |r| == 3 * rows
    ensures forall k :: 0 <= k < |r| ==>
      r[k] == Slot(base + k, if k % 3 == 2 then Double else Single, block)
  {
    if rows == 0 then []
    else
      var before := Rows(base, block, rows - 1);
      var r := before + Row(base + 3 * (rows - 1), block);
      forall k | 3 * (rows - 1) <= k < 3 * rows
        ensures r[k] == Slot(base + k, if k % 3 == 2 then Double else Single, block)
      {
        assert k % 3 == k - 3 * (rows - 1);
      }
      r
  }

  /** The seats in the order the composable draws them. */
  function Layout(): (r: seq<Slot>)
    ensures |r| == SeatCount
  {
    Rows(0, LeftBlock, 4)
      + [Slot(24, Quad, LeftBlock), Slot(25, Triple(true), LeftBlock)]
      + Rows(12, RightBlock, 4)
      + [Slot(26, Quad, RightBlock), Slot(27, Triple(false), RightBlock)]
  }

  /** Where in the drawing order the seat for entry `k` is drawn. */
  function DrawPosition(k: nat): (j: nat)
    requires k < SeatCount
    ensures j < SeatCount
  {
    if k < 12 then k
    else if k < 24 then k + 2
    else if k == 24 then 12
    else if k == 25 then 13
    else k
  }

  /** The seat drawn at each position of the layout. */
  lemma {:induction false} LayoutAt(j: nat)
    requires j < SeatCount
    ensures |Layout()| == SeatCount
    ensures j < 12 ==> Layout()[j] == Slot(j, if j % 3 == 2 then Double else Single, LeftBlock)
    ensures j == 12 ==> Layout()[j] == Slot(24, Quad, LeftBlock)
    ensures j == 13 ==> Layout()[j] == Slot(25, Triple(true), LeftBlock)
    ensures 14 <= j < 26 ==> Layout()[j] == Slot(j - 2, if (j - 14) % 3 == 2 then Double else Single, RightBlock)
    ensures j == 26 ==> Layout()[j] == Slot(26, Quad, RightBlock)
    ensures j == 27 ==> Layout()[j] == Slot(27, Triple(false), RightBlock)
  {
    var left := Rows(0, LeftBlock, 4);
    var right := Rows(12, RightBlock, 4);
    var l := Layout();
    assert l == left + [Slot(24, Quad, LeftBlock), Slot(25, Triple(true), LeftBlock)] + right
                + [Slot(26, Quad, RightBlock), Slot(27, Triple(false), RightBlock)];
    if 14 <= j < 26 {
      assert l[j] == right[j - 14];
    }
  }

  /** Left block, row i: entries 3i and 3i+1 are singles and 3i+2 is a double. */
  lemma {:induction false} LeftRows(i: nat)
    requires i <= 3
    ensures Layout()[3 * i] == Slot(3 * i, Single, LeftBlock)
    ensures Layout()[3 * i + 1] == Slot(3 * i + 1, Single, LeftBlock)
    ensures Layout()[3 * i + 2] == Slot(3 * i + 2, Double, LeftBlock)
  {
    assert (3 * i) % 3 == 0 && (3 * i + 1) % 3 == 1 && (3 * i + 2) % 3 == 2;
    LayoutAt(3 * i);
    LayoutAt(3 * i + 1);
    LayoutAt(3 * i + 2);
  }

  /** Right block, row i: entries 3i+12 and 3i+13 are singles and 3i+14 is a double. */
  lemma {:induction false} RightRows(i: nat)
    requires i <= 3
    ensures Layout()[DrawPosition(3 * i + 12)] == Slot(3 * i + 12, Single, RightBlock)
    ensures Layout()[DrawPosition(3 * i + 13)] == Slot(3 * i + 13, Single, RightBlock)
    ensures Layout()[DrawPosition(3 * i + 14)] == Slot(3 * i + 14, Double, RightBlock)
  {
    assert DrawPosition(3 * i + 12) == 3 * i + 14 && (3 * i) % 3 == 0;
    assert DrawPosition(3 * i + 13) == 3 * i + 15 && (3 * i + 1) % 3 == 1;
    assert DrawPosition(3 * i + 14) == 3 * i + 16 && (3 * i + 2) % 3 == 2;
    LayoutAt(3 * i + 14);
    LayoutAt(3 * i + 15);
    LayoutAt(3 * i + 16);
  }

  /** Every entry 0..27 is drawn exactly once: each has a seat, and no two seats share an entry. */
  lemma {:induction false} EveryEntryPlacedOnce()
    ensures |Layout()| == SeatCount
    ensures forall j :: 0 <= j < SeatCount ==> Layout()[j].index < SeatCount
    ensures forall k :: 0 <= k < SeatCount ==> Layout()[DrawPosition(k)].index == k
    ensures forall j, j' :: 0 <= j < j' < SeatCount ==> Layout()[j].index != Layout()[j'].index
  {
    LayoutAt(0);
    forall j | 0 <= j < SeatCount
      ensures Layout()[j].index < SeatCount
      ensures DrawPosition(Layout()[j].index) == j
    {
      LayoutAt(j);
    }
    forall k | 0 <= k < SeatCount
      ensures Layout()[DrawPosition(k)].index == k
    {
      LayoutAt(DrawPosition(k));
    }
  }

  /** The number of seats satisfying `p`. */
  function CountWhere(s: seq<Slot>, p: Slot -> bool): nat
  {
    if s == [] then 0 else (if p(s[0]) then 1 else 0) + CountWhere(s[1..], p)
  }

  lemma {:induction false} CountWhereAppend(a: seq<Slot>, b: seq<Slot>, p: Slot -> bool)
    ensures CountWhere(a + b, p) == CountWhere(a, p) + CountWhere(b, p)
  {
    if a == [] {
      assert a + b == b;
    } else {
      assert (a + b)[1..] == a[1..] + b;
      CountWhereAppend(a[1..], b, p);
    }
  }

  /** Counting over a two-seat list. */
  lemma CountPair(x: Slot, y: Slot, p: Slot -> bool)
    ensures CountWhere([x, y], p) == (if p(x) then 1 else 0) + (if p(y) then 1 else 0)
  {
    assert [x, y][1..] == [y];
    assert [y][1..] == [];
    assert CountWhere([y], p) == (if p(y) then 1 else 0) + CountWhere([], p);
  }

  /** Counting over one row of three seats. */
  lemma CountRow(first: nat, block: Block, p: Slot -> bool)
    ensures CountWhere(Row(first, block), p)
         == (if p(Slot(first, Single, block)) then 1 else 0) + CountWhere([Slot(first + 1, Single, block), Slot(first + 2, Double, block)], p)
  {
    assert Row(first, block)[1..] == [Slot(first + 1, Single, block), Slot(first + 2, Double, block)];
  }

  predicate IsSingle(s: Slot) { s.kind.Single? }
  predicate IsDouble(s: Slot) { s.kind.Double? }
  predicate IsTriple(s: Slot) { s.kind.Triple? }
  predicate IsQuad(s: Slot) { s.kind.Quad? }

  /** Each row holds two singles and one double and nothing else. */
  lemma {:induction false} RowsCounts(base: nat, block: Block, rows: nat)
    ensures CountWhere(Rows(base, block, rows), IsSingle) == 2 * rows
    ensures CountWhere(Rows(base, block, rows), IsDouble) == rows
    ensures CountWhere(Rows(base, block, rows), IsTriple) == 0
    ensures CountWhere(Rows(base, block, rows), IsQuad) == 0
  {
    if rows > 0 {
      var row := Row(base + 3 * (rows - 1), block);
      var first := base + 3 * (rows - 1);
      CountRow(first, block, IsSingle);
      CountRow(first, block, IsDouble);
      CountRow(first, block, IsTriple);
      CountRow(first, block, IsQuad);
      CountPair(Slot(first + 1, Single, block), Slot(first + 2, Double, block), IsSingle);
      CountPair(Slot(first + 1, Single, block), Slot(first + 2, Double, block), IsDouble);
      CountPair(Slot(first + 1, Single, block), Slot(first + 2, Double, block), IsTriple);
      CountPair(Slot(first + 1, Single, block), Slot(first + 2, Double, block), IsQuad);
      assert Rows(base, block, rows) == Rows(base, block, rows - 1) + row;
      RowsCounts(base, block, rows - 1);
      CountWhereAppend(Rows(base, block, rows - 1), row, IsSingle);
      CountWhereAppend(Rows(base, block, rows - 1), row, IsDouble);
      CountWhereAppend(Rows(base, block, rows - 1), row, IsTriple);
      CountWhereAppend(Rows(base, block, rows - 1), row, IsQuad);
    }
  }

  /** The count over the layout is the sum over its four parts. */
  lemma {:induction false} LayoutCountSplit(p: Slot -> bool)
    ensures CountWhere(Layout(), p)
         == CountWhere(Rows(0, LeftBlock, 4), p)
          + CountWhere([Slot(24, Quad, LeftBlock), Slot(25, Triple(true), LeftBlock)], p)
          + CountWhere(Rows(12, RightBlock, 4), p)
          + CountWhere([Slot(26, Quad, RightBlock), Slot(27, Triple(false), RightBlock)], p)
  {
    var left := Rows(0, LeftBlock, 4);
    var leftEnd := [Slot(24, Quad, LeftBlock), Slot(25, Triple(true), LeftBlock)];
    var right := Rows(12, RightBlock, 4);
    var rightEnd := [Slot(26, Quad, RightBlock), Slot(27, Triple(false), RightBlock)];
    CountWhereAppend(left, leftEnd, p);
    CountWhereAppend(left + leftEnd, right, p);
    CountWhereAppend(left + leftEnd + right, rightEnd, p);
  }

  /**
   * The count of one kind over the plan: `rowCount` per loop row on each side,
   * plus its seats among the quad and triple at the end of each block.
   */
  lemma {:induction false} KindCount(p: Slot -> bool, rowCount: nat)
    requires CountWhere(Rows(0, LeftBlock, 4), p) == 4 * rowCount
    requires CountWhere(Rows(12, RightBlock, 4), p) == 4 * rowCount
    ensures CountWhere(Layout(), p)
         == 8 * rowCount
          + (if p(Slot(24, Quad, LeftBlock)) then 1 else 0) + (if p(Slot(25, Triple(true), LeftBlock)) then 1 else 0)
          + (if p(Slot(26, Quad, RightBlock)) then 1 else 0) + (if p(Slot(27, Triple(false), RightBlock)) then 1 else 0)
  {
    CountPair(Slot(24, Quad, LeftBlock), Slot(25, Triple(true), LeftBlock), p);
    CountPair(Slot(26, Quad, RightBlock), Slot(27, Triple(false), RightBlock), p);
    LayoutCountSplit(p);
  }

  /** The plan has 16 singles, 8 doubles, 2 triples and 2 quads. */
  lemma {:induction false} SeatKindCounts()
    ensures CountWhere(Layout(), IsSingle) == 16
    ensures CountWhere(Layout(), IsDouble) == 8
    ensures CountWhere(Layout(), IsTriple) == 2
    ensures CountWhere(Layout(), IsQuad) == 2
  {
    RowsCounts(0, LeftBlock, 4);
    RowsCounts(12, RightBlock, 4);
    KindCount(IsSingle, 2);
    KindCount(IsDouble, 1);
    KindCount(IsTriple, 0);
    KindCount(IsQuad, 0);
  }

  /** A drawn seat: the object its composable shows and the object its click handler passes on. */
  datatype SeatView<B> = SeatView(slot: Slot, shown: B, clicked: B)

  /**
   * The composable body. It indexes `bookObjects` up to 27, so a shorter list
   * throws; callers pass at least 28 objects.
   */
  function Render<B>(bookObjects: seq<B>): (views: seq<SeatView<B>>)
    requires |bookObjects| >= SeatCount
    ensures |views| == SeatCount
    ensures forall j :: 0 <= j < SeatCount ==>
      views[j].slot == Layout()[j] && views[j].shown == views[j].clicked
  {
    EveryEntryPlacedOnce();
    seq(SeatCount, j requires 0 <= j < SeatCount =>
      var s := Layout()[j];
      SeatView(s, bookObjects[s.index], bookObjects[s.index]))
  }

  /** Clicking the seat drawn for entry k passes exactly `bookObjects[k]` to the callback. */
  lemma {:induction false} ClickPassesEntry<B>(bookObjects: seq<B>, k: nat)
    requires |bookObjects| >= SeatCount && k < SeatCount
    ensures Render(bookObjects)[DrawPosition(k)].slot.index == k
    ensures Render(bookObjects)[DrawPosition(k)].clicked == bookObjects[k]
  {
    EveryEntryPlacedOnce();
  }

  /** The default `bookObjects`: 28 entries, entry i with id "i", position i + 1, not bookable. */
  function DefaultBookObjects(): (objects: seq<BookObject>)
    ensures |objects| == SeatCount
  {
    seq(SeatCount, i requires 0 <= i < SeatCount => BookObject(NatToString(i), i + 1, false))
  }

  /** The default entries have distinct ids that read back as their index, and 1-based positions. */
  lemma {:induction false} DefaultBookObjectsShape()
    ensures forall i :: 0 <= i < SeatCount ==>
      && ParseInt(DefaultBookObjects()[i].id) == Some(i)
      && DefaultBookObjects()[i].position == i + 1
      && !DefaultBookObjects()[i].availableToBook
    ensures forall i, j :: 0 <= i < j < SeatCount ==> DefaultBookObjects()[i].id != DefaultBookObjects()[j].id
  {
    forall i | 0 <= i < SeatCount
      ensures ParseInt(DefaultBookObjects()[i].id) == Some(i)
    {
      ParseNatToString(i);
    }
  }
}
