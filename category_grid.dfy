/** The category grid (src/App/Components/Shop/CategoryGrid.tsx): the items
    are cut into pages of eight, each page into columns of two, and each page
    is drawn as four columns of two slots, padded with placeholders. */
module CategoryGrid {

  /** A grid tile; the image address is display-only. */
  datatype GridItem = GridItem(id: string, title: string)

  const ItemsPerPage: nat := 8
  const ItemsPerColumn: nat := 2
  const ColumnsPerPage: nat := 4

  /** The chunks laid end to end. */
  function Flatten<T>(chunks: seq<seq<T>>): seq<T>
    decreases |chunks|
  {
    if chunks == [] then [] else Flatten(chunks[..|chunks| - 1]) + chunks[|chunks| - 1]
  }

  lemma FlattenAppend<T>(chunks: seq<seq<T>>, c: seq<T>)
    ensures Flatten(chunks + [c]) == Flatten(chunks) + c
  {
    assert (chunks + [c])[..|chunks|] == chunks;
  }

  function Min(a: int, b: int): int {
    if a <= b then a else b
  }

  /** The `for (i = 0; i < items.length; i += size) push(items.slice(i, i + size))`
      loop: consecutive slices of `size`, the last one possibly shorter. Laid
      end to end they give back the items; none is empty; there are
      ceil(n / size) of them (the fewest chunks of `size` that hold `n` items),
      so no items give no chunks. */
  method Chunk<T>(items: seq<T>, size: nat) returns (chunks: seq<seq<T>>)
    requires size > 0
    ensures Flatten(chunks) == items
    ensures forall k :: 0 <= k < |chunks| ==> 0 < |chunks[k]| <= size
    ensures forall k :: 0 <= k < |chunks| - 1 ==> |chunks[k]| == size
    ensures |items| <= |chunks| * size
    ensures |chunks| > 0 ==> (|chunks| - 1) * size < |items|
  {
    chunks := [];
    var i := 0;
    while i < |items|
      invariant i == |chunks| * size
      invariant Flatten(chunks) == items[..Min(i, |items|)]
      invariant forall k :: 0 <= k < |chunks| ==> 0 < |chunks[k]| <= size
      invariant forall k :: 0 <= k < |chunks| - 1 ==> |chunks[k]| == size
      invariant i <= |items| ==> forall k :: 0 <= k < |chunks| ==> |chunks[k]| == size
      invariant |chunks| > 0 ==> (|chunks| - 1) * size < |items|
    {
      var slice := items[i..Min(i + size, |items|)];
      FlattenAppend(chunks, slice);
      assert items[..Min(i + size, |items|)] == items[..i] + slice;
      chunks := chunks + [slice];
      i := i + size;
    }
    assert items[..Min(i, |items|)] == items;
  }

  /** `groupedItems`: the pages. */
  method GroupedItems(items: seq<GridItem>) returns (pages: seq<seq<GridItem>>)
    ensures Flatten(pages) == items
    ensures forall k :: 0 <= k < |pages| ==> 0 < |pages[k]| <= ItemsPerPage
    ensures forall k :: 0 <= k < |pages| - 1 ==> |pages[k]| == ItemsPerPage
    ensures |pages| == (|items| + 7) / 8
    ensures items == [] <==> pages == []
  {
    pages := Chunk(items, ItemsPerPage);
  }

  /** One drawn slot of a column: a tile, or the empty placeholder under a lone tile. */
  datatype Slot = Tile(item: GridItem) | Placeholder

  /** A column's tiles, plus one placeholder when it holds a single item. */
  function ColumnSlots(column: seq<GridItem>): (slots: seq<Slot>)
    ensures |slots| == |column| + (if |column| == 1 then 1 else 0)
    ensures |column| == 1 ==> slots == [Tile(column[0]), Placeholder]
    ensures forall i :: 0 <= i < |column| ==> slots[i] == Tile(column[i])
  {
    seq(|column|, i requires 0 <= i < |column| => Tile(column[i])) + (if |column| == 1 then [Placeholder] else [])
  }

  /** The items shown in a run of slots, placeholders skipped. */
  function Tiles(slots: seq<Slot>): seq<GridItem>
    decreases |slots|
  {
    if slots == [] then []
    else Tiles(slots[..|slots| - 1]) + (if slots[|slots| - 1].Tile? then [slots[|slots| - 1].item] else [])
  }

  /** Reading a drawn column back gives the column. */
  lemma {:induction false} TilesOfColumn(column: seq<GridItem>)
    ensures Tiles(ColumnSlots(column)) == column
  {
    var slots := ColumnSlots(column);
    if |column| == 1 {
      assert slots[..1] == [Tile(column[0])] && slots[..1][..0] == [];
      assert Tiles(slots) == Tiles(slots[..1]);
      assert Tiles(slots[..1]) == Tiles(slots[..1][..0]) + [column[0]];
    } else {
      assert slots == seq(|column|, i requires 0 <= i < |column| => Tile(column[i]));
      TilesOfTileRun(column);
    }
  }

  lemma {:induction false} TilesOfTileRun(column: seq<GridItem>)
    ensures Tiles(seq(|column|, i requires 0 <= i < |column| => Tile(column[i]))) == column
    decreases |column|
  {
    if column != [] {
      var front := column[..|column| - 1];
      TilesOfTileRun(front);
      var run := seq(|column|, i requires 0 <= i < |column| => Tile(column[i]));
      assert run[..|run| - 1] == seq(|front|, i requires 0 <= i < |front| => Tile(front[i]));
    }
  }

  /** Every column drawn, in order. */
  function DrawColumns(columns: seq<seq<GridItem>>): (drawn: seq<seq<Slot>>)
    ensures |drawn| == |columns|
    ensures forall k :: 0 <= k < |columns| ==> drawn[k] == ColumnSlots(columns[k])
    decreases |columns|
  {
    if columns == [] then [] else DrawColumns(columns[..|columns| - 1]) + [ColumnSlots(columns[|columns| - 1])]
  }

  /** The items shown on a page, column after column. */
  function PageTiles(page: seq<seq<Slot>>): seq<GridItem>
    decreases |page|
  {
    if page == [] then [] else PageTiles(page[..|page| - 1]) + Tiles(page[|page| - 1])
  }

  lemma {:induction false} PageTilesColumns(columns: seq<seq<GridItem>>)
    ensures PageTiles(DrawColumns(columns)) == Flatten(columns)
    decreases |columns|
  {
    if columns != [] {
      var drawn := DrawColumns(columns);
      assert drawn[..|drawn| - 1] == DrawColumns(columns[..|columns| - 1]);
      PageTilesColumns(columns[..|columns| - 1]);
      TilesOfColumn(columns[|columns| - 1]);
    }
  }

  lemma {:induction false} PageTilesEmptyColumns(page: seq<seq<Slot>>, n: nat)
    ensures PageTiles(page + seq(n, _ => [])) == PageTiles(page)
  {
    if n > 0 {
      var filled := page + seq(n, _ => []);
      assert filled[..|filled| - 1] == page + seq(n - 1, _ => []);
      PageTilesEmptyColumns(page, n - 1);
    } else {
      assert page + seq(n, _ => []) == page;
    }
  }

  /** `renderPage`: columns of two, each drawn with a placeholder under a lone
      tile, then empty columns up to four. A page of at most eight items is
      always four columns wide, its first ceil(n / 2) columns hold two slots
      and the rest are empty, and reading the tiles back gives the page. */
  method RenderPage(page: seq<GridItem>) returns (drawn: seq<seq<Slot>>)
    ensures PageTiles(drawn) == page
    ensures |drawn| == if (|page| + 1) / 2 < ColumnsPerPage then ColumnsPerPage else (|page| + 1) / 2
    ensures |page| <= ItemsPerPage ==> |drawn| == ColumnsPerPage
    ensures forall k :: 0 <= k < |drawn| ==> (|drawn[k]| == 2 <==> k < (|page| + 1) / 2)
    ensures forall k :: 0 <= k < |drawn| ==> (drawn[k] == [] <==> k >= (|page| + 1) / 2)
    ensures |page| % 2 == 1 ==> drawn[|page| / 2] == [Tile(page[|page| - 1]), Placeholder]
  {
    var columns := Chunk(page, ItemsPerColumn);
    ColumnCount(|page|, |columns|);
    var filled := DrawColumns(columns);
    var fillers := if |columns| < ColumnsPerPage then ColumnsPerPage - |columns| else 0;
    drawn := filled + seq(fillers, _ => []);
    PageTilesColumns(columns);
    PageTilesEmptyColumns(filled, fillers);
    DrawnShape(columns, fillers);
    if |page| % 2 == 1 {
      LastColumnOfOddPage(page, columns);
    }
  }

  lemma ColumnCount(n: nat, c: nat)
    requires n <= c * 2
    requires c > 0 ==> (c - 1) * 2 < n
    ensures c == (n + 1) / 2
  {
  }

  /** Drawn real columns have two slots; filler columns have none. */
  lemma DrawnShape(columns: seq<seq<GridItem>>, fillers: nat)
    requires forall k :: 0 <= k < |columns| ==> 0 < |columns[k]| <= 2
    ensures var drawn := DrawColumns(columns) + seq(fillers, _ => []);
      forall k :: 0 <= k < |drawn| ==>
        && (|drawn[k]| == 2 <==> k < |columns|)
        && (drawn[k] == [] <==> k >= |columns|)
  {
    var drawn := DrawColumns(columns) + seq(fillers, _ => []);
    forall k | 0 <= k < |drawn|
      ensures (|drawn[k]| == 2 <==> k < |columns|) && (drawn[k] == [] <==> k >= |columns|)
    {
      if k < |columns| {
        assert drawn[k] == ColumnSlots(columns[k]);
      } else {
        assert drawn[k] == [];
      }
    }
  }

  lemma LastColumnOfOddPage(page: seq<GridItem>, columns: seq<seq<GridItem>>)
    requires |page| % 2 == 1
    requires Flatten(columns) == page
    requires forall k :: 0 <= k < |columns| ==> 0 < |columns[k]| <= 2
    requires forall k :: 0 <= k < |columns| - 1 ==> |columns[k]| == 2
    requires |columns| == (|page| + 1) / 2
    ensures |columns| - 1 == |page| / 2
    ensures columns[|columns| - 1] == [page[|page| - 1]]
  {
    var front := columns[..|columns| - 1];
    FlattenLength(front, 2);
    assert columns == front + [columns[|columns| - 1]];
    FlattenAppend(front, columns[|columns| - 1]);
  }

  lemma FlattenLength<T>(chunks: seq<seq<T>>, size: nat)
    requires forall k :: 0 <= k < |chunks| ==> |chunks[k]| == size
    ensures |Flatten(chunks)| == |chunks| * size
    decreases |chunks|
  {
    if chunks != [] {
      FlattenLength(chunks[..|chunks| - 1], size);
      MultiplyPred(|chunks|, size);
    }
  }

  lemma MultiplyPred(n: int, size: int)
    ensures n * size == (n - 1) * size + size
  {
  }
}
