/**
 The bar group of a grouped bar chart: an object that owns one bar per data
 cell, rebuilds the bars when the data changes, lays them out when the
 canvas is resized, hands out palette slots and forwards paint requests to
 its bars.  Every state-changing method is tied to the pure layout of
 module BarLayout.
 */
module BarGroups {
  import opened BarLayout

  /** The series the group is bound to: a read-only table as far as the
      group is concerned.  The host may change it and then notify the group. */
  class DataSeries {
    var rows: int
    var columns: int
    var totalItems: int
    var maxValue: real
    var minValue: real
    var valueAt: (int, int) -> real

    constructor (rows: int, columns: int, totalItems: int, maxValue: real, minValue: real,
                 valueAt: (int, int) -> real)
      ensures this.rows == rows && this.columns == columns && this.totalItems == totalItems
      ensures this.maxValue == maxValue && this.minValue == minValue && this.valueAt == valueAt
    {
      this.rows, this.columns, this.totalItems := rows, columns, totalItems;
      this.maxValue, this.minValue, this.valueAt := maxValue, minValue, valueAt;
    }
  }

  /** One bar: the three operations the group calls on it. */
  class Bar {
    var width: real
    var height: real
    var color: Option<Color>
    var x: real
    var y: real

    function State(): BarState
      reads this
    {
      BarState(width, height, color, x, y)
    }

    constructor ()
      ensures State() == Unplaced
    {
      width, height, color, x, y := 0.0, 0.0, None, 0.0, 0.0;
    }

    method Resize(w: real, h: real)
      modifies this
      ensures State() == old(State()).(width := w, height := h)
    {
      width, height := w, h;
    }

    method SetColor(c: Color)
      modifies this
      ensures State() == old(State()).(color := Some(c))
    {
      color := Some(c);
    }

    method SetPos(px: real, py: real)
      modifies this
      ensures State() == old(State()).(x := px, y := py)
    {
      x, y := px, py;
    }
  }

  /** The states of a sequence of bars, in order. */
  ghost function StatesOf(bs: seq<Bar>): (r: seq<BarState>)
    reads bs
    ensures |r| == |bs|
    ensures forall k :: 0 <= k < |bs| ==> r[k] == bs[k].State()
  {
    seq(|bs|, k requires 0 <= k < |bs| reads bs => bs[k].State())
  }

  /** How many bars creating `totalItems` items in a counting loop yields. */
  function Created(totalItems: int): nat {
    if totalItems < 0 then 0 else totalItems
  }

  /** A rectangle given by its top-left corner and its size. */
  datatype Rect = Rect(x: real, y: real, width: real, height: real) {
    function Right(): real { x + width }
    function Bottom(): real { y + height }
  }

  class BarGroup {
    const series: DataSeries
    var width: int
    var height: int
    var barWidth: int
    var colors: seq<Color>
    var bars: seq<Bar>
    var maxValue: real
    var minValue: real
    var layoutSet: bool
    var layoutDirty: bool

    /** The group owns distinct bars, and the dirty flag, once raised by
        the constructor, is never lowered. */
    ghost predicate Valid()
      reads this
    {
      layoutDirty &&
      forall i, j :: 0 <= i < j < |bars| ==> bars[i] != bars[j]
    }

    ghost function States(): seq<BarState>
      reads this, bars
    {
      StatesOf(bars)
    }

    /** The inputs of a layout pass, as the group currently sees them. */
    function Geom(): Geometry
      reads this, series
    {
      Geometry(width, height, barWidth, series.rows, series.columns, maxValue)
    }

    /** The cached maximum is not zero, and there are enough bars and
        palette entries for every cell, whenever the pass has cells to place. */
    predicate CanLayout()
      reads this, series
    {
      LayoutDefined(Geom(), |bars|, |colors|)
    }

    /** Binds the series and builds the initial bars; no size is known yet,
        so width and height are left unconstrained. */
    constructor (series: DataSeries)
      ensures Valid() && this.series == series
      ensures !layoutSet && barWidth == 10 && colors == []
      ensures maxValue == series.maxValue && minValue == series.minValue
      ensures |bars| == Created(series.totalItems)
      ensures forall k :: 0 <= k < |bars| ==> fresh(bars[k]) && bars[k].State() == Unplaced
    {
      this.series := series;
      layoutSet := false;
      layoutDirty := true;
      barWidth := 10;
      colors := [];
      bars := [];
      new;
      DataChanged();
    }

    /** Stores the new extent, lays the bars out for it and marks the layout as set. */
    method Resize(w: int, h: int)
      requires Valid() && CanLayout()
      modifies this`width, this`height, this`layoutSet, this`layoutDirty, bars
      ensures Valid() && width == w && height == h && layoutSet
      ensures States() == Layout(old(States()), Geom(), series.valueAt, colors)
      ensures BoundingRect() == Rect(0.0, 0.0, w as real, h as real)
    {
      width := w;
      height := h;
      LayoutChanged();
      ghost var placed := States();
      ghost var g := Geom();
      layoutSet := true;
      assert States() == placed && Geom() == g;
    }

    /** Only stores the default width for later layout passes. */
    method SetBarWidth(w: int)
      requires Valid()
      modifies this`barWidth
      ensures Valid()
      ensures barWidth == w
      ensures States() == old(States())
    {
      barWidth := w;
    }

    /** Appends a palette entry and returns its index. */
    method AddColor(c: Color) returns (index: int)
      requires Valid()
      modifies this`colors
      ensures Valid()
      ensures index == |old(colors)|
      ensures colors == old(colors) + [c] && colors[index] == c
    {
      index := |colors|;
      colors := colors + [c];
    }

    /** Empties the palette. */
    method ResetColors()
      requires Valid()
      modifies this`colors
      ensures Valid()
      ensures colors == []
    {
      colors := [];
    }

    /** The bars a paint request is forwarded to, in the order they are
        asked to paint: none before the first resize, all of them after. */
    method Paint() returns (forwarded: seq<Bar>)
      ensures forwarded == if layoutSet && layoutDirty then bars else []
      ensures Valid() && layoutSet ==> forwarded == bars
    {
      forwarded := [];
      if !layoutSet {
        return;
      }
      if layoutDirty {
        for i := 0 to |bars|
          invariant forwarded == bars[..i]
        {
          forwarded := forwarded + [bars[i]];
        }
      }
    }

    /** The canvas as a rectangle anchored at the origin. */
    function BoundingRect(): (r: Rect)
      reads this
      ensures r.x == 0.0 && r.y == 0.0
      ensures r.Right() == width as real && r.Bottom() == height as real
    {
      Rect(0.0, 0.0, width as real, height as real)
    }

    /** Re-reads the series: caches its maximum and minimum, drops every bar
        and creates one fresh bar per item of the series. */
    method DataChanged()
      requires Valid()
      modifies this`maxValue, this`minValue, this`bars, this`layoutDirty
      ensures Valid() && layoutDirty
      ensures maxValue == series.maxValue && minValue == series.minValue
      ensures |bars| == Created(series.totalItems)
      ensures forall k :: 0 <= k < |bars| ==> fresh(bars[k]) && bars[k] !in old(bars)
      ensures forall k :: 0 <= k < |bars| ==> bars[k].State() == Unplaced
    {
      maxValue := series.maxValue;
      minValue := series.minValue;
      bars := [];
      var totalItems := series.totalItems;
      var i := 0;
      while i < totalItems
        invariant i == |bars| <= Created(totalItems)
        invariant maxValue == series.maxValue && minValue == series.minValue && layoutDirty
        invariant forall k :: 0 <= k < |bars| ==> fresh(bars[k]) && bars[k].State() == Unplaced
        invariant forall k, l :: 0 <= k < l < |bars| ==> bars[k] != bars[l]
      {
        var bar := new Bar();
        bars := bars + [bar];
        i := i + 1;
      }
      layoutDirty := true;
    }

    /** The body of the row loop: sizes, colours and positions the bar at
        `itemIndex` from cell (row, column), which makes it the bar that the
        column layout `after` holds there, and leaves every other bar as it was. */
    method PlaceCell(itemIndex: int, column: int, row: int, scale: real, xPos: real,
                     ghost g: Geometry, ghost after: seq<BarState>)
      requires Valid() && CanLayout() && g == Geom() && Active(g)
      requires 0 <= column < g.columns && 0 <= row < g.rows && 0 <= itemIndex < |bars|
      requires scale == Scale(g) && xPos == BarX(g, column, row)
      requires itemIndex == SlotIndex(g.rows, column, 0) + row && ColumnLaidOut(after, g, series.valueAt, colors, column)
      modifies bars
      ensures States() == old(States())[itemIndex := after[itemIndex]]
    {
      var barHeight := series.valueAt(row, column) * scale;
      var bar := bars[itemIndex];
      bar.Resize(barWidth as real, barHeight);
      bar.SetColor(colors[row]);
      bar.SetPos(xPos, height as real);
      assert bar.State() == Placement(g, series.valueAt(row, column), colors[row], column, row) == after[itemIndex];
      assert forall k :: 0 <= k < |bars| && k != itemIndex ==> bars[k] != bar;
    }

    /** The body of the column loop: places the bars of every row of
        `column`, in the slots from `itemIndex` on, and returns the next slot.
        Slots before `itemIndex` keep what they had; later ones stay as in `before`. */
    method LayoutColumn(column: int, itemIndex: int, scale: real, xStepPerSeries: real,
                        ghost g: Geometry, ghost before: seq<BarState>, ghost after: seq<BarState>) returns (next: int)
      requires Valid() && CanLayout() && g == Geom() && Active(g)
      requires 0 <= column < g.columns && 0 <= itemIndex && itemIndex + g.rows <= |bars|
      requires |before| == |bars| && |after| == |bars|
      requires scale == Scale(g) && xStepPerSeries == XStep(g)
      requires itemIndex == SlotIndex(g.rows, column, 0) && ColumnLaidOut(after, g, series.valueAt, colors, column)
      requires forall k :: 0 <= k < itemIndex ==> States()[k] == after[k]
      requires forall k :: itemIndex <= k < |bars| ==> States()[k] == before[k]
      modifies bars
      ensures next == itemIndex + g.rows
      ensures forall k :: 0 <= k < next ==> States()[k] == after[k]
      ensures forall k :: next <= k < |bars| ==> States()[k] == before[k]
    {
      var columnCount := series.columns;
      var rowCount := series.rows;
      var tW := width as real;
      var xPos := xStepPerSeries * column as real + (tW + (barWidth * rowCount) as real) / (columnCount * 2) as real;
      assert xPos == BarX(g, column, 0);
      next := itemIndex;
      var row := 0;
      while row < rowCount
        invariant 0 <= row <= rowCount && Valid()
        invariant next == itemIndex + row
        invariant xPos == BarX(g, column, row)
        invariant forall k :: 0 <= k < next ==> States()[k] == after[k]
        invariant forall k :: next <= k < |bars| ==> States()[k] == before[k]
      {
        PlaceCell(next, column, row, scale, xPos, g, after);
        RowStep(g, column, row);
        next := next + 1;
        xPos := xPos + barWidth as real;
        row := row + 1;
      }
    }

    /** The column loop: places every column in turn, from slot 0 on, and
        returns the first slot it did not touch. */
    method LayoutColumns(scale: real, xStepPerSeries: real,
                         ghost g: Geometry, ghost before: seq<BarState>, ghost after: seq<BarState>) returns (itemIndex: int)
      requires Valid() && CanLayout() && g == Geom() && Active(g)
      requires before == States() && |after| == |before|
      requires forall column :: 0 <= column < g.columns ==> ColumnLaidOut(after, g, series.valueAt, colors, column)
      requires scale == Scale(g) && xStepPerSeries == XStep(g)
      modifies bars
      ensures itemIndex == SlotCount(g)
      ensures forall k :: 0 <= k < itemIndex && k < |bars| ==> States()[k] == after[k]
      ensures forall k :: itemIndex <= k < |bars| ==> States()[k] == before[k]
    {
      var columnCount := series.columns;
      var rowCount := series.rows;
      itemIndex := 0;
      var column := 0;
      while column < columnCount
        invariant 0 <= column <= columnCount && Valid()
        invariant itemIndex == SlotIndex(rowCount, column, 0)
        invariant forall k :: 0 <= k < itemIndex && k < |bars| ==> States()[k] == after[k]
        invariant forall k :: itemIndex <= k < |bars| ==> States()[k] == before[k]
      {
        assert ColumnLaidOut(after, g, series.valueAt, colors, column);
        assert itemIndex + g.rows <= |bars|;
        itemIndex := LayoutColumn(column, itemIndex, scale, xStepPerSeries, g, before, after);
        NextColumn(rowCount, column);
        column := column + 1;
      }
      assert itemIndex == SlotCount(g) by {
        assert SlotIndex(rowCount, columnCount, 0) == columnCount * rowCount == rowCount * columnCount;
      }
    }

    /** One layout pass: column by column, row by row, the next bar is
        sized, coloured and positioned from its cell. */
    method LayoutChanged()
      requires Valid() && CanLayout()
      modifies this`layoutDirty, bars
      ensures Valid() && layoutDirty
      ensures States() == Layout(old(States()), Geom(), series.valueAt, colors)
      ensures series.rows <= 0 ==> States() == old(States())
    {
      ghost var g := Geom();
      ghost var before := States();
      if series.rows <= 0 {
        LayoutWithoutCells(before, g, series.valueAt, colors);
        return;
      }
      var columnCount := series.columns;
      if columnCount > 0 {
        var tW := width as real;
        var tH := height as real;
        var tM := maxValue;
        var scale := tH / tM;
        var tC := (columnCount + 1) as real;
        var xStepPerSeries := tW / tC;
        assert scale == Scale(g) && xStepPerSeries == XStep(g);
        ghost var after := Layout(before, g, series.valueAt, colors);
        forall column | 0 <= column < g.columns
          ensures ColumnLaidOut(after, g, series.valueAt, colors, column)
        {
          LayoutColumnSlots(before, g, series.valueAt, colors, column);
        }
        var itemIndex := LayoutColumns(scale, xStepPerSeries, g, before, after);
        LayoutFromPlacedPrefix(before, g, series.valueAt, colors, States());
      } else {
        LayoutWithoutCells(before, g, series.valueAt, colors);
      }
      layoutDirty := true;
    }
  }

  /** After the palette is emptied, entries are handed out from index 0 on. */
  method ResetThenAdd(group: BarGroup, first: Color, second: Color) returns (i1: int, i2: int)
    requires group.Valid()
    modifies group
    ensures group.Valid()
    ensures i1 == 0 && i2 == 1
    ensures group.colors == [first, second]
  {
    group.ResetColors();
    i1 := group.AddColor(first);
    i2 := group.AddColor(second);
  }

  /** The cells of a two-row, three-column table. */
  function SampleValue(row: int, column: int): real {
    match (row, column)
    case (0, 0) => 5.0
    case (1, 0) => 10.0
    case (0, 1) => 2.0
    case (1, 1) => 8.0
    case (0, 2) => 0.0
    case (1, 2) => 10.0
    case _ => 0.0
  }

  /** A 120 by 60 canvas with bar width 10 over the sample table, whose maximum is 10. */
  const SampleGeometry := Geometry(120, 60, 10, 2, 3, 10.0)

  /** On the sample canvas heights are six times the values, columns start
      30 apart from 70/3 on, and the second row sits 10 to the right. */
  lemma SampleSlot(before: seq<BarState>, colors: seq<Color>, column: int, row: nat)
    requires |before| == 6 && |colors| == 2 && 0 <= column < 3 && row < 2
    ensures var b := Layout(before, SampleGeometry, SampleValue, colors)[column * 2 + row];
      b.height == SampleValue(row, column) * 6.0 && b.x == 70.0 / 3.0 + 30.0 * column as real + 10.0 * row as real
  {
    var g := SampleGeometry;
    assert Scale(g) == 6.0 && XStep(g) == 30.0;
    assert ColumnStart(g, column) == 30.0 * column as real + 70.0 / 3.0;
    BarXFormula(g, column, row);
    LayoutAtSlot(before, g, SampleValue, colors, column, row);
  }

  /** The layout of the sample table on the sample canvas, bar by bar. */
  lemma SampleLayout(before: seq<BarState>, colors: seq<Color>)
    requires |before| == 6 && |colors| == 2
    ensures var after := Layout(before, SampleGeometry, SampleValue, colors);
      && [after[0].height, after[1].height, after[2].height, after[3].height, after[4].height, after[5].height]
         == [30.0, 60.0, 12.0, 48.0, 0.0, 60.0]
      && [after[0].x, after[1].x, after[2].x, after[3].x, after[4].x, after[5].x]
         == [70.0 / 3.0, 100.0 / 3.0, 160.0 / 3.0, 190.0 / 3.0, 250.0 / 3.0, 280.0 / 3.0]
  {
    SampleSlot(before, colors, 0, 0);
    SampleSlot(before, colors, 0, 1);
    SampleSlot(before, colors, 1, 0);
    SampleSlot(before, colors, 1, 1);
    SampleSlot(before, colors, 2, 0);
    SampleSlot(before, colors, 2, 1);
  }

  /** The six bars a fresh group over the sample table starts with. */
  const SampleStart: seq<BarState> := [Unplaced, Unplaced, Unplaced, Unplaced, Unplaced, Unplaced]

  /** Builds a group over the two-by-three sample table with maximum 10
      and gives it a red and a blue palette entry. */
  method NewSampleGroup() returns (group: BarGroup)
    ensures fresh(group) && fresh(group.series) && group.Valid() && !group.layoutSet
    ensures group.barWidth == 10 && group.maxValue == 10.0
    ensures group.series.rows == 2 && group.series.columns == 3 && group.series.valueAt == SampleValue
    ensures group.colors == [Color(0xFFFF0000), Color(0xFF0000FF)]
    ensures |group.bars| == 6 && forall k :: 0 <= k < 6 ==> fresh(group.bars[k])
    ensures group.States() == SampleStart
  {
    var series := new DataSeries(2, 3, 6, 10.0, 0.0, SampleValue);
    group := new BarGroup(series);
    var red := group.AddColor(Color(0xFFFF0000));
    var blue := group.AddColor(Color(0xFF0000FF));
  }

  /** The sample group, asked to paint and then resized to 120 by 60: the
      early paint request reaches no bar, and the resize lays the six
      initial bars out. */
  method SampleGroup() returns (group: BarGroup, early: seq<Bar>)
    ensures group.Valid() && group.layoutSet && early == []
    ensures group.Geom() == SampleGeometry && group.series.valueAt == SampleValue
    ensures group.colors == [Color(0xFFFF0000), Color(0xFF0000FF)]
    ensures group.States() == Layout(SampleStart, group.Geom(), SampleValue, group.colors)
  {
    group := NewSampleGroup();
    early := group.Paint();
    group.Resize(120, 60);
  }

  /** A group over a two-by-three table with maximum 10, red and blue as
      palette, resized to 120 by 60: nothing is painted before the resize,
      six bars after it, in slot order, with these heights and x-positions. */
  method TwoByThreeScenario() returns (early: seq<Bar>, painted: seq<Bar>, heights: seq<real>, xs: seq<real>)
    ensures early == [] && |painted| == 6
    ensures heights == [30.0, 60.0, 12.0, 48.0, 0.0, 60.0]
    ensures xs == [70.0 / 3.0, 100.0 / 3.0, 160.0 / 3.0, 190.0 / 3.0, 250.0 / 3.0, 280.0 / 3.0]
    ensures heights == [painted[0].height, painted[1].height, painted[2].height,
                        painted[3].height, painted[4].height, painted[5].height]
    ensures xs == [painted[0].x, painted[1].x, painted[2].x, painted[3].x, painted[4].x, painted[5].x]
  {
    var group;
    group, early := SampleGroup();
    painted := group.Paint();
    SampleLayout(SampleStart, group.colors);
    var b := painted;
    assert forall k :: 0 <= k < 6 ==> b[k].State() == group.States()[k];
    heights := [b[0].height, b[1].height, b[2].height, b[3].height, b[4].height, b[5].height];
    xs := [b[0].x, b[1].x, b[2].x, b[3].x, b[4].x, b[5].x];
  }
}
