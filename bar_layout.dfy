/**
 The geometry of a grouped bar chart: where the bar of each data cell goes,
 how tall it is and which palette colour it takes, stated as pure functions
 over the inputs one layout pass reads.  The class in module BarGroups runs
 the same computation step by step and is proved to agree with `Layout`.
 */
module BarLayout {

  datatype Option<T> = None | Some(value: T)

  /** An uninterpreted palette entry: the group only stores colours and
      hands them to its bars, so their channels are never read. */
  datatype Color = Color(rgba: nat)

  /** What one layout pass reads: the canvas extent and the default bar
      width (integers, as the host hands them over), the row and column
      counts of the series, and the cached maximum of the series. */
  datatype Geometry = Geometry(
    width: int, height: int, barWidth: int,
    rows: int, columns: int, maxValue: real)

  /** The observable state of one bar: its size, colour and position. */
  datatype BarState = BarState(
    width: real, height: real, color: Option<Color>, x: real, y: real)

  /** The state of a bar that has just been created. */
  const Unplaced := BarState(0.0, 0.0, None, 0.0, 0.0)

  /** A layout pass touches bars only when there are rows and columns. */
  predicate Active(g: Geometry) {
    g.rows > 0 && g.columns > 0
  }

  /** The number of bars a layout pass assigns. */
  function SlotCount(g: Geometry): int {
    if Active(g) then g.rows * g.columns else 0
  }

  /** The position of the bar for cell (row, column) in the bar collection:
      column-major, all rows of one column before the next column. */
  function SlotIndex(rows: int, column: int, row: int): int {
    column * rows + row
  }

  /** What the layout pass needs in order not to divide by a zero maximum,
      not to run past the bar collection and not to run past the palette. */
  predicate LayoutDefined(g: Geometry, barCount: int, colorCount: int) {
    Active(g) ==> g.maxValue != 0.0 && g.rows * g.columns <= barCount && g.rows <= colorCount
  }

  /** The horizontal pitch between columns: one column's worth of margin. */
  function XStep(g: Geometry): (step: real)
    requires g.columns > 0
    ensures (g.columns + 1) as real * step == g.width as real
  {
    g.width as real / (g.columns + 1) as real
  }

  /** The x-position of the first bar of a column, with the offset term
      that pushes every column right by the same amount. */
  function ColumnStart(g: Geometry, column: int): (start: real)
    requires g.columns > 0
    ensures 2.0 * g.columns as real * (start - XStep(g) * column as real)
            == g.width as real + (g.barWidth * g.rows) as real
  {
    XStep(g) * column as real + (g.width as real + (g.barWidth * g.rows) as real) / (g.columns * 2) as real
  }

  /** The x-position of the bar for cell (row, column): the column's start
      for row 0, and one bar width further right for each next row. */
  function BarX(g: Geometry, column: int, row: nat): (x: real)
    requires g.columns > 0
    ensures g.barWidth >= 0 ==> x >= ColumnStart(g, column)
    ensures g.barWidth > 0 && row > 0 ==> x > ColumnStart(g, column)
  {
    if row == 0 then ColumnStart(g, column) else BarX(g, column, row - 1) + g.barWidth as real
  }

  /** The linear factor from a data value to a height in pixels. */
  function Scale(g: Geometry): (s: real)
    requires g.maxValue != 0.0
    ensures g.maxValue * s == g.height as real
  {
    g.height as real / g.maxValue
  }

  /** The state the layout gives the bar of cell (row, column), whose value
      is `value` and whose palette colour is `color`: default width, scaled
      height, the row's colour, its x-position, anchored at the canvas' bottom. */
  function Placement(g: Geometry, value: real, color: Color, column: int, row: nat): (b: BarState)
    requires g.columns > 0 && g.maxValue != 0.0
    ensures b.width == g.barWidth as real && b.color == Some(color) && b.y == g.height as real
    ensures b.height * g.maxValue == value * g.height as real
  {
    BarState(g.barWidth as real, value * Scale(g), Some(color), BarX(g, column, row), g.height as real)
  }

  /** A cell of the series' table. */
  datatype Cell = Cell(column: int, row: int)

  /** The cell whose bar sits in slot k of the column-major order: the
      first `rows` slots belong to column 0, the next `rows` to column 1, ... */
  function CellOf(rows: int, k: int): (cell: Cell)
    requires rows > 0 && k >= 0
    ensures 0 <= cell.column && 0 <= cell.row < rows
    decreases k
  {
    if k < rows then Cell(0, k)
    else
      var c := CellOf(rows, k - rows);
      Cell(c.column + 1, c.row)
  }

  /** The state of the bar in slot k, placed from the cell CellOf(rows, k). */
  function PlacedAt(g: Geometry, valueAt: (int, int) -> real, colors: seq<Color>, k: int): BarState
    requires Active(g) && g.maxValue != 0.0 && g.rows <= |colors| && 0 <= k
  {
    var c := CellOf(g.rows, k);
    Placement(g, valueAt(c.row, c.column), colors[c.row], c.column, c.row)
  }

  /** The bar states after one layout pass over `before`: every slot below
      SlotCount(g) is placed from its cell, and every other bar keeps its state. */
  function Layout(before: seq<BarState>, g: Geometry, valueAt: (int, int) -> real, colors: seq<Color>): (after: seq<BarState>)
    requires LayoutDefined(g, |before|, |colors|)
    ensures |after| == |before|
  {
    seq(|before|, k requires 0 <= k < |before| =>
      if k < SlotCount(g) then PlacedAt(g, valueAt, colors, k) else before[k])
  }

  // ---------------------------------------------------------------------
  // Integer division facts behind the column-major index.

  /** Euclidean division is determined by its quotient and remainder. */
  lemma {:induction false} DivisionUnique(s: int, d: int, q: int, r: int)
    requires d > 0 && 0 <= r < d && s == q * d + r
    ensures s / d == q && s % d == r
  {
    var q', r' := s / d, s % d;
    assert s == q' * d + r';
    assert (q' - q) * d == r - r';
    if q' > q {
      MulAtLeast(q' - q, d);
      assert false;
    } else if q' < q {
      MulAtLeast(q - q', d);
      assert false;
    }
  }

  lemma MulAtLeast(a: int, d: int)
    requires a >= 1 && d > 0
    ensures a * d >= d
  {
    assert a * d == (a - 1) * d + d;
    assert (a - 1) * d >= 0;
  }

  /** The slot after the last row of a column is the first of the next column. */
  lemma NextColumn(rows: int, column: int)
    ensures SlotIndex(rows, column, rows) == SlotIndex(rows, column + 1, 0)
  {
    assert (column + 1) * rows == column * rows + rows;
  }

  lemma MulNonNegative(a: int, b: int)
    requires a >= 0 && b >= 0
    ensures a * b >= 0
  {
  }

  /** The last slot of the table's last column is the last slot of the table. */
  lemma {:induction false} SlotBelowEnd(rows: int, columns: int, column: int, row: int)
    requires 0 <= column < columns && 0 <= row < rows
    ensures column * rows + row < rows * columns
  {
    assert column * rows + rows == (column + 1) * rows;
    MulNonNegative(columns - column - 1, rows);
    assert columns * rows - (column + 1) * rows == (columns - column - 1) * rows;
  }

  /** The bar for cell (row, column) sits inside the first rows*columns
      slots, and its slot index gives back its column and row. */
  lemma {:induction false} ColumnMajorSlot(rows: int, columns: int, column: int, row: int)
    requires 0 <= column < columns && 0 <= row < rows
    ensures 0 <= SlotIndex(rows, column, row) < rows * columns
    ensures SlotIndex(rows, column, row) / rows == column
    ensures SlotIndex(rows, column, row) % rows == row
  {
    MulNonNegative(column, rows);
    SlotBelowEnd(rows, columns, column, row);
    DivisionUnique(SlotIndex(rows, column, row), rows, column, row);
  }

  /** Every one of the first rows*columns slots belongs to exactly the cell
      (k % rows, k / rows), which lies inside the table. */
  lemma {:induction false} SlotCell(rows: int, columns: int, k: int)
    requires rows > 0 && 0 <= k < rows * columns
    ensures 0 <= k / rows < columns && 0 <= k % rows < rows
    ensures SlotIndex(rows, k / rows, k % rows) == k
  {
    var q := k / rows;
    assert k == q * rows + k % rows;
  }

  /** Distinct cells never share a bar. */
  lemma {:induction false} SlotsDistinct(rows: int, columns: int, c1: int, r1: int, c2: int, r2: int)
    requires 0 <= c1 < columns && 0 <= r1 < rows
    requires 0 <= c2 < columns && 0 <= r2 < rows
    requires (c1, r1) != (c2, r2)
    ensures SlotIndex(rows, c1, r1) != SlotIndex(rows, c2, r2)
  {
    ColumnMajorSlot(rows, columns, c1, r1);
    ColumnMajorSlot(rows, columns, c2, r2);
  }

  /** The slot of cell (row, column) leads back to that cell. */
  lemma {:induction false} CellOfSlot(rows: int, column: int, row: int)
    requires rows > 0 && 0 <= column && 0 <= row < rows
    ensures CellOf(rows, SlotIndex(rows, column, row)) == Cell(column, row)
    decreases column
  {
    if column > 0 {
      assert SlotIndex(rows, column, row) - rows == SlotIndex(rows, column - 1, row) by {
        assert column * rows - rows == (column - 1) * rows;
      }
      MulNonNegative(column - 1, rows);
      CellOfSlot(rows, column - 1, row);
    }
  }

  /** The cell of slot k is its quotient and remainder by the row count. */
  lemma {:induction false} CellOfDivMod(rows: int, k: int)
    requires rows > 0 && k >= 0
    ensures CellOf(rows, k) == Cell(k / rows, k % rows)
  {
    assert k == (k / rows) * rows + k % rows;
    assert k / rows >= 0;
    CellOfSlot(rows, k / rows, k % rows);
  }

  // ---------------------------------------------------------------------
  // What one layout pass does, in the terms of the chart.

  /** The slot of cell (row, column) holds that cell's placement. */
  lemma {:induction false} LayoutAtSlot(before: seq<BarState>, g: Geometry, valueAt: (int, int) -> real,
                                       colors: seq<Color>, column: int, row: int)
    requires LayoutDefined(g, |before|, |colors|)
    requires 0 <= column < g.columns && 0 <= row < g.rows
    ensures 0 <= SlotIndex(g.rows, column, row) < |before| && row < |colors|
    ensures Layout(before, g, valueAt, colors)[SlotIndex(g.rows, column, row)]
         == Placement(g, valueAt(row, column), colors[row], column, row)
  {
    var k := SlotIndex(g.rows, column, row);
    MulNonNegative(column, g.rows);
    SlotBelowEnd(g.rows, g.columns, column, row);
    CellOfSlot(g.rows, column, row);
    assert Layout(before, g, valueAt, colors)[k] == PlacedAt(g, valueAt, colors, k);
  }

  /** The bar at index column*rows + row gets exactly the placement of cell
      (row, column): default width, value times height/max, the row's colour,
      the column's x-position and the canvas height as y. */
  lemma {:induction false} LayoutPlacesCell(before: seq<BarState>, g: Geometry, valueAt: (int, int) -> real,
                                           colors: seq<Color>, column: int, row: int)
    requires LayoutDefined(g, |before|, |colors|)
    requires 0 <= column < g.columns && 0 <= row < g.rows
    ensures 0 <= SlotIndex(g.rows, column, row) < |before| && row < |colors|
    ensures Layout(before, g, valueAt, colors)[SlotIndex(g.rows, column, row)]
         == BarState(g.barWidth as real, valueAt(row, column) * (g.height as real / g.maxValue),
                     Some(colors[row]), BarX(g, column, row), g.height as real)
  {
    LayoutAtSlot(before, g, valueAt, colors, column, row);
    var v := valueAt(row, column);
    assert Scale(g) == g.height as real / g.maxValue;
    assert Placement(g, v, colors[row], column, row).height == v * (g.height as real / g.maxValue);
  }

  /** Bars beyond the first rows*columns slots keep their state. */
  lemma LayoutKeepsRest(before: seq<BarState>, g: Geometry, valueAt: (int, int) -> real, colors: seq<Color>, k: int)
    requires LayoutDefined(g, |before|, |colors|)
    requires SlotCount(g) <= k < |before|
    ensures Layout(before, g, valueAt, colors)[k] == before[k]
  {
  }

  /** Without rows (or without columns) a layout pass changes no bar at all. */
  lemma LayoutWithoutCells(before: seq<BarState>, g: Geometry, valueAt: (int, int) -> real, colors: seq<Color>)
    requires !Active(g)
    ensures Layout(before, g, valueAt, colors) == before
  {
    var after := Layout(before, g, valueAt, colors);
    forall k | 0 <= k < |before| ensures after[k] == before[k] {
      LayoutKeepsRest(before, g, valueAt, colors, k);
    }
  }

  /** Column `column` occupies the rows-many slots of `bars` from
      SlotIndex(rows, column, 0) on, one per row in increasing row order,
      each placed from its cell. */
  predicate ColumnLaidOut(bars: seq<BarState>, g: Geometry, valueAt: (int, int) -> real, colors: seq<Color>,
                          column: int)
    requires Active(g) && g.maxValue != 0.0 && g.rows <= |colors|
  {
    0 <= SlotIndex(g.rows, column, 0) && SlotIndex(g.rows, column, 0) + g.rows <= |bars| &&
    forall row :: 0 <= row < g.rows ==>
      bars[SlotIndex(g.rows, column, 0) + row] == Placement(g, valueAt(row, column), colors[row], column, row)
  }

  /** Every column of the table is laid out as ColumnLaidOut describes. */
  lemma {:induction false} LayoutColumnSlots(before: seq<BarState>, g: Geometry, valueAt: (int, int) -> real,
                                            colors: seq<Color>, column: int)
    requires LayoutDefined(g, |before|, |colors|)
    requires Active(g) && 0 <= column < g.columns
    ensures ColumnLaidOut(Layout(before, g, valueAt, colors), g, valueAt, colors, column)
  {
    MulNonNegative(column, g.rows);
    SlotBelowEnd(g.rows, g.columns, column, g.rows - 1);
    forall row | 0 <= row < g.rows
      ensures Layout(before, g, valueAt, colors)[SlotIndex(g.rows, column, 0) + row]
           == Placement(g, valueAt(row, column), colors[row], column, row)
    {
      LayoutAtSlot(before, g, valueAt, colors, column, row);
    }
  }

  /** Bar states that agree with the layout on its first SlotCount(g) slots
      and with `before` on the others are the layout. */
  lemma LayoutFromPlacedPrefix(before: seq<BarState>, g: Geometry, valueAt: (int, int) -> real, colors: seq<Color>,
                               s: seq<BarState>)
    requires LayoutDefined(g, |before|, |colors|) && |s| == |before|
    requires forall k :: 0 <= k < SlotCount(g) && k < |s| ==> s[k] == Layout(before, g, valueAt, colors)[k]
    requires forall k :: SlotCount(g) <= k < |s| ==> s[k] == before[k]
    ensures s == Layout(before, g, valueAt, colors)
  {
    var after := Layout(before, g, valueAt, colors);
    forall k | 0 <= k < |s| ensures s[k] == after[k] {
      if k >= SlotCount(g) {
        LayoutKeepsRest(before, g, valueAt, colors, k);
      }
    }
  }

  /** A layout pass replaces exactly the first SlotCount(g) bars. */
  lemma LayoutSplit(before: seq<BarState>, g: Geometry, valueAt: (int, int) -> real, colors: seq<Color>)
    requires LayoutDefined(g, |before|, |colors|)
    ensures 0 <= SlotCount(g) <= |before|
    ensures Layout(before, g, valueAt, colors)
         == Layout(before, g, valueAt, colors)[..SlotCount(g)] + before[SlotCount(g)..]
  {
    var after := Layout(before, g, valueAt, colors);
    var n := SlotCount(g);
    assert Active(g) ==> g.rows * g.columns > 0;
    forall k | 0 <= k < |before| ensures after[k] == (after[..n] + before[n..])[k] {
      if k >= n {
        LayoutKeepsRest(before, g, valueAt, colors, k);
      }
    }
  }

  /** The colour and the y-position of every placed bar: the palette entry of
      its row, and the bottom edge of the canvas. */
  lemma {:induction false} LayoutColorsAndBaseline(before: seq<BarState>, g: Geometry, valueAt: (int, int) -> real,
                                                  colors: seq<Color>, k: int)
    requires LayoutDefined(g, |before|, |colors|)
    requires 0 <= k < SlotCount(g) && k < |before|
    ensures 0 <= k % g.rows < |colors|
    ensures Layout(before, g, valueAt, colors)[k].color == Some(colors[k % g.rows])
    ensures Layout(before, g, valueAt, colors)[k].y == g.height as real
    ensures Layout(before, g, valueAt, colors)[k].width == g.barWidth as real
  {
    CellOfDivMod(g.rows, k);
    assert Layout(before, g, valueAt, colors)[k] == PlacedAt(g, valueAt, colors, k);
  }

  /** A placed bar does not depend on what the bar held before. */
  lemma LayoutForgetsPast(b1: seq<BarState>, b2: seq<BarState>, g: Geometry, valueAt: (int, int) -> real,
                          colors: seq<Color>, k: int)
    requires |b1| == |b2| && LayoutDefined(g, |b1|, |colors|)
    requires 0 <= k < SlotCount(g) && k < |b1|
    ensures Layout(b1, g, valueAt, colors)[k] == Layout(b2, g, valueAt, colors)[k]
  {
  }

  /** Running the layout twice with nothing changed in between gives the
      same bars as running it once. */
  lemma {:induction false} LayoutIdempotent(before: seq<BarState>, g: Geometry, valueAt: (int, int) -> real,
                                           colors: seq<Color>)
    requires LayoutDefined(g, |before|, |colors|)
    ensures Layout(Layout(before, g, valueAt, colors), g, valueAt, colors) == Layout(before, g, valueAt, colors)
  {
    var once := Layout(before, g, valueAt, colors);
    var twice := Layout(once, g, valueAt, colors);
    assert |twice| == |once|;
    forall k | 0 <= k < |once| ensures twice[k] == once[k] {
    }
  }

  // ---------------------------------------------------------------------
  // Horizontal arrangement.

  /** Within a column each next row sits exactly one bar width further right. */
  lemma RowStep(g: Geometry, column: int, row: nat)
    requires g.columns > 0
    ensures BarX(g, column, row + 1) == BarX(g, column, row) + g.barWidth as real
  {
  }

  /** The first bar of column c sits at (W/(C+1))*c + (W + barWidth*R)/(2*C),
      and bar `row` of it `row` bar widths further right. */
  lemma {:induction false} BarXFormula(g: Geometry, column: int, row: nat)
    requires g.columns > 0
    ensures BarX(g, column, 0) == (g.width as real / (g.columns + 1) as real) * column as real
                                  + (g.width as real + (g.barWidth * g.rows) as real) / (2 * g.columns) as real
    ensures BarX(g, column, row) == BarX(g, column, 0) + row as real * g.barWidth as real
  {
    if row > 0 {
      BarXFormula(g, column, row - 1);
      assert (row - 1) as real * g.barWidth as real + g.barWidth as real == row as real * g.barWidth as real;
    }
  }

  /** On a canvas of positive width the columns start strictly left to right. */
  lemma {:induction false} ColumnStartIncreasing(g: Geometry, c1: int, c2: int)
    requires g.columns > 0 && g.width > 0 && c1 < c2
    ensures ColumnStart(g, c1) < ColumnStart(g, c2)
  {
    var step := XStep(g);
    assert step > 0.0;
    assert step * c2 as real - step * c1 as real == step * (c2 - c1) as real;
    assert step * (c2 - c1) as real > 0.0;
  }

  /** For a fixed row, the bars of later columns sit strictly further right. */
  lemma {:induction false} SameRowIncreasesAcrossColumns(g: Geometry, c1: int, c2: int, row: nat)
    requires g.columns > 0 && g.width > 0 && c1 < c2
    ensures BarX(g, c1, row) < BarX(g, c2, row)
  {
    ColumnStartIncreasing(g, c1, c2);
    BarXFormula(g, c1, row);
    BarXFormula(g, c2, row);
  }

  // ---------------------------------------------------------------------
  // Vertical scaling.

  /** With a positive maximum that bounds the value from above and zero from
      below, the bar fits the canvas; the maximum itself reaches the full height. */
  lemma {:induction false} HeightWithinCanvas(g: Geometry, value: real)
    requires g.maxValue > 0.0 && g.height >= 0 && 0.0 <= value <= g.maxValue
    ensures 0.0 <= value * Scale(g) <= g.height as real
    ensures value == g.maxValue ==> value * Scale(g) == g.height as real
  {
    var s := Scale(g);
    assert s >= 0.0;
    assert g.maxValue * s == g.height as real;
    assert value * s <= g.maxValue * s by {
      assert g.maxValue * s - value * s == (g.maxValue - value) * s;
      assert (g.maxValue - value) * s >= 0.0;
    }
  }

  /** With a positive scale, a larger value never gives a shorter bar. */
  lemma {:induction false} HeightPreservesOrder(g: Geometry, v1: real, v2: real)
    requires g.maxValue > 0.0 && g.height >= 0 && v1 <= v2
    ensures v1 * Scale(g) <= v2 * Scale(g)
  {
    var s := Scale(g);
    assert s >= 0.0;
    assert v2 * s - v1 * s == (v2 - v1) * s;
    assert (v2 - v1) * s >= 0.0;
  }
}
