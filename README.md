# BarGroup: a verified model of a grouped bar chart's layout engine

`BarGroup` is the graphics item that draws one grouped bar chart. It is bound
to a data series. The series is a table of values with `countRows()` rows and
`countColumns()` columns, plus a cached maximum and minimum. The group owns
one bar per item of the series, and it does five things:

- It rebuilds the bars whenever the data changes.
- It lays the bars out whenever the canvas is resized. Column by column, and
  row by row inside a column, the next bar gets the default bar width, a height
  scaled from its value by canvas height / maximum, the palette colour of its
  row, and a position. That position is the column's start plus one bar width
  per earlier row, on the bottom edge of the canvas.
- It hands out palette slots (`addColor`, `resetColors`).
- It reports its bounding rectangle.
- It forwards paint requests to its bars once a layout exists.

The project has two modules:

- `BarLayout` (`bar_layout.dfy`) holds one layout pass as pure functions:
  - `Layout(before, g, valueAt, colors)` maps the bar states before the pass
    and its inputs (canvas size, bar width, row and column counts, maximum) to
    the bar states after it. `g` is a `Geometry` that bundles those inputs.
  - `Placement`, `BarX` and `ColumnStart` give the state and position of each
    bar.
  - The lemmas state the layout's properties: column-major slots, what each
    slot gets, untouched tail, colours and baseline, x-positions, height
    bounds, idempotence.
- `BarGroups` (`bar_group.dfy`) holds the object model:
  - `DataSeries` is the read-only series.
  - `Bar` has the three setters the group calls.
  - `BarGroup` has the fields of the C++ class. Its methods update them in
    place, and their `ensures` tie the new state to `Layout` applied to the old
    state.
  - `LayoutChanged` keeps the nested column/row loop with its `itemIndex` and
    `xPos` accumulators. Its body is split into `LayoutColumns` (the column
    loop), `LayoutColumn` (the row loop) and `PlaceCell` (one iteration).
  - The file ends with worked examples: a palette reset followed by two
    `AddColor` calls, and a two-by-three table laid out on a 120 by 60 canvas.

Modelling decisions:

- Width, height and bar width are `int`, as the canvas size and `setBarWidth` pass them.
- The series' maximum and minimum, and every computed position and size, are `real`.
- The unchecked accesses of the layout loop become the precondition `CanLayout()`, which is only needed when the series has rows and columns:
  - the division by the cached maximum needs a non-zero maximum;
  - `childItems().at(itemIndex)` needs at least rows*columns bars;
  - `mColors.at(row)` needs at least as many palette entries as rows.
- `Valid()` says the group's bars are distinct objects and `layoutDirty` holds.
  - The constructor sets `layoutDirty`, and nothing ever clears it.
  - Every mutator requires and ensures `Valid()`. `SetBarWidth`, `AddColor` and `ResetColors` keep it because their `modifies` clauses name a single field.
- The layout pass computes the scale and the column step only when there are columns.
  - The C++ code computes both as soon as there are rows. With no columns they are never used.
  - Computing them earlier would require a non-zero maximum even where the loop never runs.
- The slot-to-cell map `CellOf` walks the column-major order one column at a time. `CellOfDivMod` proves it equal to quotient and remainder by the row count.

## Model

| member | source | states |
|---|---|---|
| BarGroups.BarGroup.constructor | src/barchart/bargroup.cpp:7-15 | layoutSet is false, layoutDirty true, bar width 10, palette empty; max and min come from the series, and there is one fresh, unplaced bar per item of the series |
| BarGroups.BarGroup.Resize | src/barchart/bargroup.cpp:22-29 | stores the new width and height, leaves the bars in the state `Layout` gives for the new extent, sets layoutSet, and the bounding rectangle becomes (0,0,w,h) |
| BarGroups.BarGroup.SetBarWidth | src/barchart/bargroup.cpp:43-46 | only the default bar width changes; every bar keeps its state and the group stays valid |
| BarGroups.BarGroup.AddColor | src/barchart/bargroup.cpp:48-53 | returns the palette length before the call; the palette becomes the old one with the colour appended at that index; the group stays valid |
| BarGroups.BarGroup.ResetColors | src/barchart/bargroup.cpp:55-58 | the palette becomes empty; nothing else can change and the group stays valid |
| BarGroups.ResetThenAdd | src/barchart/bargroup.cpp:48-58 | for any valid group, after a reset, the next two added colours get indices 0 and 1, and the palette is exactly those two |
| BarGroups.BarGroup.Paint | src/barchart/bargroup.cpp:60-72 | forwards to no bar while layoutSet is false; otherwise, when layoutDirty holds, forwards to every bar in collection order; in a valid group with a layout, that is always all bars |
| BarGroups.BarGroup.BoundingRect | src/barchart/bargroup.cpp:74-77 | the rectangle has its corner at the origin and its right and bottom edges at the stored width and height |
| BarGroups.BarGroup.DataChanged | src/barchart/bargroup.cpp:80-102 | caches the series' max and min, replaces the bars by exactly countTotalItems fresh, unplaced bars, none of them an old bar, and sets layoutDirty |
| BarGroups.BarGroup.LayoutChanged | src/barchart/bargroup.cpp:104-146 | the bars end in the states `Layout` gives for the old states; with no rows nothing changes; layoutDirty holds afterwards |
| BarGroups.BarGroup.LayoutColumns | src/barchart/bargroup.cpp:129-143 | the column loop leaves bars 0 .. rows*columns-1 as the layout puts them and every later bar as it was |
| BarGroups.BarGroup.LayoutColumn | src/barchart/bargroup.cpp:131-142 | starting from the column's start x, the row loop places bars itemIndex .. itemIndex+rows-1 and returns itemIndex+rows; earlier bars keep what they had and later ones stay as before |
| BarGroups.BarGroup.PlaceCell | src/barchart/bargroup.cpp:133-139 | one iteration sets exactly the bar at itemIndex to its placement and leaves every other bar unchanged |
| BarGroups.Bar.Resize | src/barchart/bargroup.cpp:137 | the bar's width and height become the given ones; colour and position stay |
| BarGroups.Bar.SetColor | src/barchart/bargroup.cpp:138 | the bar's colour becomes the given one; size and position stay |
| BarGroups.Bar.SetPos | src/barchart/bargroup.cpp:139 | the bar's position becomes the given one; size and colour stay |
| BarLayout.Scale | src/barchart/bargroup.cpp:121 | the scale times the maximum is the canvas height, so a value equal to the maximum gets the full height |
| BarLayout.XStep | src/barchart/bargroup.cpp:123-124 | columns+1 steps add up to the canvas width |
| BarLayout.ColumnStart | src/barchart/bargroup.cpp:131 | the first bar of column c sits c column steps right of a common offset o, where 2*columns*o is the canvas width plus barWidth*rows |
| BarLayout.BarX | src/barchart/bargroup.cpp:131-141 | a bar never sits left of its column's first bar when the bar width is non-negative, and every later row sits strictly right of it when the bar width is positive |
| BarLayout.Placement | src/barchart/bargroup.cpp:133-139 | a placed bar has the default width, the given palette colour and y = canvas height, and its height times the maximum is its value times the canvas height |
| BarLayout.CellOf | src/barchart/bargroup.cpp:129-140 | the cell that the counting walk reaches at slot k has a non-negative column and a row in 0 .. rows-1 |
| BarLayout.Layout | src/barchart/bargroup.cpp:129-143 | the pass keeps the number of bars; it is the reference definition of one pass, placing slot k below rows*columns from cell CellOf(rows, k) and keeping every other bar |
| BarGroups.Bar.constructor | src/barchart/bargroup.cpp:97 | a new bar is unplaced: zero size, no colour, position (0,0) |
| BarGroups.DataSeries.constructor | src/barchart/bargroup.cpp:85-133 | the series holds the row count, column count, item count, maximum, minimum and cell values that the group reads through countRows, countColumns, countTotalItems, max, min and valueAt |
| BarLayout.CellOfSlot | src/barchart/bargroup.cpp:129-140 | the slot column*rows+row that the loops reach for cell (row, column) maps back to exactly that cell |
| BarLayout.CellOfDivMod | src/barchart/bargroup.cpp:129-140 | the cell of slot k is (k / rows, k % rows) |
| BarLayout.ColumnMajorSlot | src/barchart/bargroup.cpp:129-140 | the slot of every cell lies in 0 .. rows*columns-1, and division and remainder by the row count give back its column and row |
| BarLayout.SlotCell | src/barchart/bargroup.cpp:129-140 | every slot below rows*columns belongs to a cell inside the table, and that cell's slot is the slot itself |
| BarLayout.SlotsDistinct | src/barchart/bargroup.cpp:129-140 | two different cells never share a bar |
| BarLayout.LayoutAtSlot | src/barchart/bargroup.cpp:129-142 | the bar in the slot of cell (row, column) gets that cell's placement |
| BarLayout.LayoutPlacesCell | src/barchart/bargroup.cpp:121-140 | the bar at index column*rows+row gets width barWidth, height valueAt(row, column) * (height / max), colour colors[row], the cell's x-position and y = canvas height |
| BarLayout.LayoutColumnSlots | src/barchart/bargroup.cpp:130-142 | column c occupies the rows-many slots from c*rows on, one per row in increasing row order, each with its cell's placement |
| BarLayout.LayoutKeepsRest | src/barchart/bargroup.cpp:129-143 | bars at index rows*columns and beyond are untouched by the pass |
| BarLayout.LayoutWithoutCells | src/barchart/bargroup.cpp:108-111 | without rows, or without columns, the pass changes no bar |
| BarLayout.LayoutFromPlacedPrefix | src/barchart/bargroup.cpp:129-143 | states that agree with the layout on the first rows*columns slots and with the old states elsewhere are the layout |
| BarLayout.LayoutSplit | src/barchart/bargroup.cpp:129-143 | the result is a placed prefix of length rows*columns followed by the unchanged old tail |
| BarLayout.LayoutColorsAndBaseline | src/barchart/bargroup.cpp:137-139 | every placed bar has the palette colour of its row (k % rows), the default width and the canvas height as y; the row index is within the palette |
| BarLayout.LayoutForgetsPast | src/barchart/bargroup.cpp:133-139 | a placed bar does not depend on what that bar held before the pass |
| BarLayout.LayoutIdempotent | src/barchart/bargroup.cpp:104-146 | running the pass twice with unchanged inputs gives the same bars as running it once |
| BarLayout.RowStep | src/barchart/bargroup.cpp:141 | the next row of a column sits exactly one bar width further right |
| BarLayout.BarXFormula | src/barchart/bargroup.cpp:123-141 | the first bar of column c sits at (W/(C+1))*c + (W + barWidth*R)/(2*C), and the bar of row r sits r bar widths further right |
| BarLayout.ColumnStartIncreasing | src/barchart/bargroup.cpp:123-131 | on a canvas of positive width, the first bars of the columns are strictly increasing in the column |
| BarLayout.SameRowIncreasesAcrossColumns | src/barchart/bargroup.cpp:131-141 | on a canvas of positive width, the bars of one row are strictly increasing across columns |
| BarLayout.HeightWithinCanvas | src/barchart/bargroup.cpp:121-133 | on a canvas of non-negative height, with a positive maximum and a value in 0 .. max, the bar height lies in 0 .. canvas height, and the maximum gives the full height |
| BarLayout.HeightPreservesOrder | src/barchart/bargroup.cpp:121-133 | on a canvas of non-negative height, with a positive maximum, a larger value never gives a shorter bar |
| BarGroups.SampleSlot | src/barchart/bargroup.cpp:121-141 | on a 120 by 60 canvas with bar width 10 over a 2 by 3 table with maximum 10, heights are six times the values and x is 70/3 + 30*column + 10*row |
| BarGroups.SampleLayout | src/barchart/bargroup.cpp:104-146 | the six bars of that example get heights 30, 60, 12, 48, 0, 60 and x-positions 70/3, 100/3, 160/3, 190/3, 250/3, 280/3 |
| BarGroups.NewSampleGroup | src/barchart/bargroup.cpp:7-53 | a fresh group over the example table with two palette entries is valid, has six unplaced bars and no layout yet |
| BarGroups.SampleGroup | src/barchart/bargroup.cpp:22-72 | painting that group before the resize reaches no bar; after resizing to 120 by 60, its bars are the layout of the six unplaced bars |
| BarGroups.TwoByThreeScenario | src/barchart/bargroup.cpp:7-146 | end to end: nothing is painted before the resize, six bars after it, and the painted bars, in paint order, have the heights and x-positions listed above |

## Left out

- The Qt scene graph: the parent/child item tree, `childItems()` and the `delete`-based teardown of old bars. The bars are a `seq<Bar>` field that `DataChanged` replaces with fresh objects.
- The append at src/barchart/bargroup.cpp:98 targets a temporary copy of the child list, so it has no effect. Creating a bar with the group as parent is what registers it.
- Drawing itself: `Bar::paint`, `QPainter`, the style option and the widget. `Paint` returns the bars the request is forwarded to, in order.
- `qDebug` logging, at src/barchart/bargroup.cpp:24, 33, 63, 82 and 126.
- The `setPos` pass-through to the framework (src/barchart/bargroup.cpp:17-20).
- The unfinished `setPlotDomain` and `setTheme` (src/barchart/bargroup.cpp:31-41).
- Floating point: `qreal` arithmetic is modelled as exact `real` arithmetic, with no rounding, NaN or infinity. A zero maximum is a precondition of a layout pass over a non-empty table, not an infinite scale.
- Integer overflow: `mBarDefaultWidth*rowCount` and `columnCount*2` are computed in C++ `int`. The model uses unbounded integers.
- Initial size: `mWidth` and `mHeight` are not initialised before the first `resize`. The constructor leaves `width` and `height` unconstrained.
- bar.cpp is not part of this model.
  - A new bar is taken to start with zero size, no colour and position (0,0).
  - `Bar.Resize`, `Bar.SetColor` and `Bar.SetPos` only store their arguments.
  - `Bar.Resize` is taken to store `real` width and height. If `Bar::resize` takes `int` parameters, the height `barHeight` passed at src/barchart/bargroup.cpp:137 is truncated there, which the model does not capture.
- The series class is not part of this model. `DataSeries` is an abstract table of rows, columns, item count, maximum, minimum and a total function `valueAt`.
- `QColor` is not part of this model. `Color` is an uninterpreted palette entry: the group only stores colours and passes them on.
- The cached minimum is stored, as in the C++ code, but no operation reads it.
