/** The cell table and layout arithmetic shared by both spreadsheet
    components (`client/src/components/Spreadsheet.js` and the older
    `src/components/Spreadsheet.js`): the fixed 20 x 26 grid, its initial
    tables, the spread updater that sets one cell, the rendered value, the
    column header labels and the resize clamps. */
module Grid {
  import opened Wrappers
  import opened CellIds

  const Rows: nat := 20
  const Cols: nat := 26
  const DefaultColumnWidth: int := 100
  const MinColumnWidth: int := 50
  const MinHeaderHeight: int := 25
  const DefaultHeaderHeight: int := 25

  /** A column width as JavaScript holds it: a pixel count, or `NaN` once an
      undefined start width has taken part in the arithmetic. */
  datatype Width = Px(px: int) | NaN

  /** A key of the initial grid: the `CellId` of a row below `Rows` and a
      column below `Cols`. */
  predicate IsGridKey(k: string)
  {
    match ParseCellId(k)
    case None => false
    case Some(p) => p.row < Rows && p.col < Cols && k == CellId(p.row, p.col)
  }

  lemma CellIdIsGridKey(row: nat, col: nat)
    ensures IsGridKey(CellId(row, col)) <==> row < Rows && col < Cols
  {
    CellIdRoundTrip(row, col);
  }

  /** The row-major index of a grid position: the number of grid cells the
      nested loops visit before it. */
  function Index(row: nat, col: nat): nat
  {
    row * Cols + col
  }

  /** Every grid position of index below `n` has its key in the table. */
  ghost predicate Covers(cells: map<string, string>, n: nat)
  {
    forall r: nat, c: nat :: c < Cols && Index(r, c) < n ==> CellId(r, c) in cells
  }

  /** Every key in the table is the key of a grid position of index below
      `n`, mapped to `''`. */
  ghost predicate OnlyBefore(cells: map<string, string>, n: nat)
  {
    forall k :: k in cells ==>
      && ParseCellId(k).Some?
      && ParseCellId(k).value.col < Cols
      && k == CellId(ParseCellId(k).value.row, ParseCellId(k).value.col)
      && Index(ParseCellId(k).value.row, ParseCellId(k).value.col) < n
      && cells[k] == ""
  }

  /** The cell table once the nested loops have visited `n` cells: exactly
      the keys of the first `n` grid positions, each mapped to `''`. */
  ghost predicate Filled(cells: map<string, string>, n: nat)
  {
    Covers(cells, n) && OnlyBefore(cells, n) && |cells| == n
  }

  lemma FillCellOnlyBefore(cells: map<string, string>, row: nat, col: nat)
    requires col < Cols
    requires OnlyBefore(cells, Index(row, col))
    ensures CellId(row, col) !in cells
    ensures OnlyBefore(cells[CellId(row, col) := ""], Index(row, col) + 1)
  {
    CellIdRoundTrip(row, col);
  }

  lemma FillCellCovers(cells: map<string, string>, row: nat, col: nat)
    requires col < Cols
    requires Covers(cells, Index(row, col))
    ensures Covers(cells[CellId(row, col) := ""], Index(row, col) + 1)
  {
    forall r: nat, c: nat | c < Cols && Index(r, c) < Index(row, col) + 1
      ensures CellId(r, c) in cells[CellId(row, col) := ""]
    {
      if Index(r, c) == Index(row, col) {
        assert r == row && c == col;
      }
    }
  }

  /** One step of the inner loop: the table filled up to a cell becomes the
      table filled up to the next one. */
  lemma FillCell(cells: map<string, string>, row: nat, col: nat)
    requires col < Cols
    requires Filled(cells, Index(row, col))
    ensures Filled(cells[CellId(row, col) := ""], Index(row, col) + 1)
  {
    FillCellOnlyBefore(cells, row, col);
    FillCellCovers(cells, row, col);
  }

  /** A table filled through the last row holds exactly the grid. */
  lemma FilledComplete(cells: map<string, string>)
    requires Filled(cells, Rows * Cols)
    ensures forall row: nat, col: nat :: row < Rows && col < Cols ==> CellId(row, col) in cells
    ensures forall k :: k in cells ==> IsGridKey(k) && cells[k] == ""
    ensures |cells| == Rows * Cols
  {
  }

  /** The column widths once the first `n` columns are set to the default. */
  ghost function WidthsBefore(n: nat): map<nat, Width>
  {
    if n == 0 then map[] else WidthsBefore(n - 1)[n - 1 := Px(DefaultColumnWidth)]
  }

  lemma {:induction false} WidthsBeforeDefault(n: nat)
    ensures forall c: nat :: c in WidthsBefore(n) <==> c < n
    ensures forall c :: c in WidthsBefore(n) ==> WidthsBefore(n)[c] == Px(DefaultColumnWidth)
  {
    if n > 0 {
      WidthsBeforeDefault(n - 1);
    }
  }

  /** The cell table the nested loops have built on reaching `(row, col)`. */
  ghost function CellsBefore(row: nat, col: nat): map<string, string>
    requires col <= Cols
    decreases row, col
  {
    if col > 0 then CellsBefore(row, col - 1)[CellId(row, col - 1) := ""]
    else if row > 0 then CellsBefore(row - 1, Cols)
    else map[]
  }

  lemma {:induction false} CellsBeforeFilled(row: nat, col: nat)
    requires col <= Cols
    ensures Filled(CellsBefore(row, col), Index(row, col))
    decreases row, col
  {
    if col > 0 {
      CellsBeforeFilled(row, col - 1);
      FillCell(CellsBefore(row, col - 1), row, col - 1);
    } else if row > 0 {
      CellsBeforeFilled(row - 1, Cols);
      assert Index(row - 1, Cols) == Index(row, 0);
    }
  }

  /** The initial cell table: exactly the `Rows * Cols` keys of the grid,
      each mapped to `''`. */
  ghost predicate InitialCells(cells: map<string, string>)
  {
    && (forall row: nat, col: nat :: row < Rows && col < Cols ==> CellId(row, col) in cells)
    && (forall k :: k in cells ==> IsGridKey(k) && cells[k] == "")
    && |cells| == Rows * Cols
  }

  /** The initial column widths: columns `0 .. Cols - 1`, each the default. */
  ghost predicate InitialWidths(widths: map<nat, Width>)
  {
    && (forall col: nat :: col in widths <==> col < Cols)
    && (forall col :: col in widths ==> widths[col] == Px(DefaultColumnWidth))
  }

  /** Where the loops end: every row filled. */
  lemma CellsComplete()
    ensures InitialCells(CellsBefore(Rows, 0))
  {
    CellsBeforeFilled(Rows, 0);
    FilledComplete(CellsBefore(Rows, 0));
  }

  /** Where the loops end: every column width set. */
  lemma WidthsComplete()
    ensures InitialWidths(WidthsBefore(Cols))
  {
    WidthsBeforeDefault(Cols);
  }

  /** The mount effect's nested loops: every grid cell set to `''`, and on the
      first row every column width set to the default. */
  method InitialTables() returns (cells: map<string, string>, widths: map<nat, Width>)
    ensures InitialCells(cells)
    ensures InitialWidths(widths)
  {
    cells, widths := map[], map[];
    var row: nat := 0;
    while row < Rows
      invariant row <= Rows
      invariant cells == CellsBefore(row, 0)
      invariant widths == WidthsBefore(if row == 0 then 0 else Cols)
    {
      var col: nat := 0;
      while col < Cols
        invariant col <= Cols
        invariant cells == CellsBefore(row, col)
        invariant widths == WidthsBefore(if row == 0 then col else Cols)
      {
        cells := cells[CellId(row, col) := ""];
        if row == 0 {
          widths := widths[col := Px(DefaultColumnWidth)];
        }
        col := col + 1;
      }
      row := row + 1;
    }
    CellsComplete();
    WidthsComplete();
  }

  /** The spread updater `{ ...prevCells, [cellId]: value }`: sets exactly
      one key and leaves every other key as it was. */
  function WithCell(cells: map<string, string>, cellId: string, value: string): (r: map<string, string>)
    ensures r.Keys == cells.Keys + {cellId}
    ensures r[cellId] == value
    ensures forall k :: k in cells && k != cellId ==> r[k] == cells[k]
  {
    cells[cellId := value]
  }

  /** Of two writes to the same cell, the later one is what remains. */
  lemma LaterWriteWins(cells: map<string, string>, cellId: string, first: string, second: string)
    ensures WithCell(WithCell(cells, cellId, first), cellId, second) == WithCell(cells, cellId, second)
  {
  }

  /** Writes to different cells do not interfere. */
  lemma DistinctWritesCommute(cells: map<string, string>, k1: string, v1: string, k2: string, v2: string)
    requires k1 != k2
    ensures WithCell(WithCell(cells, k1, v1), k2, v2) == WithCell(WithCell(cells, k2, v2), k1, v1)
  {
  }

  /** One received or local write: cell key and new value. */
  datatype Write = Write(cellId: string, value: string)

  /** The table after applying `writes` in order. */
  function ApplyAll(cells: map<string, string>, writes: seq<Write>): map<string, string>
  {
    if writes == [] then cells
    else
      var last := writes[|writes| - 1];
      WithCell(ApplyAll(cells, writes[..|writes| - 1]), last.cellId, last.value)
  }

  /** The value of the last write to `k` in `writes`, if there is one. */
  function LastWrite(writes: seq<Write>, k: string): Option<string>
  {
    if writes == [] then None
    else if writes[|writes| - 1].cellId == k then Some(writes[|writes| - 1].value)
    else LastWrite(writes[..|writes| - 1], k)
  }

  /** Last-write-wins over a whole stream: after any sequence of writes, a
      cell holds the value of the last write to it, or its initial value when
      nothing wrote to it. */
  lemma {:induction false} LastWriteWins(cells: map<string, string>, writes: seq<Write>, k: string)
    ensures k in ApplyAll(cells, writes) <==> k in cells || LastWrite(writes, k).Some?
    ensures LastWrite(writes, k).Some? ==> ApplyAll(cells, writes)[k] == LastWrite(writes, k).value
    ensures LastWrite(writes, k).None? && k in cells ==> ApplyAll(cells, writes)[k] == cells[k]
  {
    if writes != [] {
      LastWriteWins(cells, writes[..|writes| - 1], k);
    }
  }

  /** `cells[cellId] || ''`: the table value, or `''` for an absent key. */
  function RenderedValue(cells: map<string, string>, row: nat, col: nat): (v: string)
    ensures CellId(row, col) in cells ==> v == cells[CellId(row, col)]
    ensures CellId(row, col) !in cells ==> v == ""
  {
    var key := CellId(row, col);
    if key in cells then cells[key] else ""
  }

  /** A cell shows what was last written to it. */
  lemma RenderedAfterWrite(cells: map<string, string>, row: nat, col: nat, value: string, r2: nat, c2: nat)
    ensures RenderedValue(WithCell(cells, CellId(row, col), value), row, col) == value
    ensures (r2, c2) != (row, col) ==>
      RenderedValue(WithCell(cells, CellId(row, col), value), r2, c2) == RenderedValue(cells, r2, c2)
  {
    CellIdInjective(row, col, r2, c2);
  }

  /** `String.fromCharCode(65 + col)`, for codes below the surrogate range. */
  function HeaderLabel(col: nat): (s: string)
    requires 65 + col < 0xD800
    ensures |s| == 1 && s[0] as int - 'A' as int == col
    ensures col < Cols ==> 'A' <= s[0] <= 'Z'
  {
    [(65 + col) as char]
  }

  /** The grid's columns are labelled 'A' to 'Z', each label used once. */
  lemma HeaderLabelsDistinct(c1: nat, c2: nat)
    requires c1 < Cols && c2 < Cols
    ensures HeaderLabel(c1) == HeaderLabel(c2) <==> c1 == c2
  {
    assert HeaderLabel(c1)[0] as int - 'A' as int == c1;
  }

  function Max(a: int, b: int): (m: int)
    ensures m >= a && m >= b && (m == a || m == b)
  {
    if a >= b then a else b
  }

  /** The column being dragged: `Math.max(startWidth + clientX - startX, 50)`;
      `NaN` stays `NaN`. */
  function DraggedWidth(startWidth: Width, startX: int, clientX: int): (w: Width)
    ensures startWidth.NaN? <==> w.NaN?
    ensures startWidth.Px? ==> w.px >= MinColumnWidth && w.px >= startWidth.px + clientX - startX
    ensures startWidth.Px? ==> w.px == startWidth.px + clientX - startX || w.px == MinColumnWidth
  {
    match startWidth
    case Px(p) => Px(Max(p + clientX - startX, MinColumnWidth))
    case NaN => NaN
  }

  /** The header being dragged: `Math.max(startHeight + clientY - startY, 25)`. */
  function DraggedHeight(startHeight: int, startY: int, clientY: int): (h: int)
    ensures h >= MinHeaderHeight && h >= startHeight + clientY - startY
    ensures h == startHeight + clientY - startY || h == MinHeaderHeight
  {
    Max(startHeight + clientY - startY, MinHeaderHeight)
  }

  /** Dragging further right never gives a narrower column. */
  lemma DraggedWidthMonotone(startWidth: int, startX: int, x1: int, x2: int)
    requires x1 <= x2
    ensures DraggedWidth(Px(startWidth), startX, x1).px <= DraggedWidth(Px(startWidth), startX, x2).px
  {
  }

  /** `resizingRef.current`: what `startResizing` recorded. */
  datatype Drag = Drag(col: Option<nat>, startX: int, startY: int, startWidth: Width, startHeight: int, isHeader: bool)

  /** A drag as `startResizing` is called: a header drag, or a column drag
      that names its column. */
  predicate WellFormedDrag(drag: Option<Drag>)
  {
    drag.Some? && !drag.value.isHeader ==> drag.value.col.Some?
  }

  /** `columnWidths[col]`, where an absent key is `undefined` and turns into
      `NaN` in the resize arithmetic. */
  function WidthOf(widths: map<nat, Width>, col: Option<nat>): (w: Width)
    ensures col.Some? && col.value in widths ==> w == widths[col.value]
    ensures col.None? || col.value !in widths ==> w == NaN
  {
    if col.Some? && col.value in widths then widths[col.value] else NaN
  }

  /** The layout state the resize handlers change. */
  datatype Layout = Layout(columnWidths: map<nat, Width>, headerHeight: int)

  /** `handleMouseMove`: with no drag nothing changes; a header drag sets the
      clamped height and nothing else; a column drag sets the clamped width of
      that one column and nothing else. */
  function MouseMove(drag: Option<Drag>, layout: Layout, clientX: int, clientY: int): (r: Layout)
    requires WellFormedDrag(drag)
    ensures drag.None? ==> r == layout
    ensures drag.Some? && drag.value.isHeader ==>
      && r.columnWidths == layout.columnWidths
      && r.headerHeight >= MinHeaderHeight
      && r.headerHeight == DraggedHeight(drag.value.startHeight, drag.value.startY, clientY)
    ensures drag.Some? && !drag.value.isHeader ==>
      && r.headerHeight == layout.headerHeight
      && r.columnWidths.Keys == layout.columnWidths.Keys + {drag.value.col.value}
      && r.columnWidths[drag.value.col.value] == DraggedWidth(drag.value.startWidth, drag.value.startX, clientX)
      && (forall c :: c in layout.columnWidths && c != drag.value.col.value ==>
            r.columnWidths[c] == layout.columnWidths[c])
  {
    match drag
    case None => layout
    case Some(d) =>
      if d.isHeader then
        layout.(headerHeight := DraggedHeight(d.startHeight, d.startY, clientY))
      else
        layout.(columnWidths := layout.columnWidths[d.col.value := DraggedWidth(d.startWidth, d.startX, clientX)])
  }

  /** A column dragged from a defined width is never narrower than 50, and a
      dragged header never lower than 25. */
  lemma MouseMoveKeepsMinimums(drag: Drag, layout: Layout, clientX: int, clientY: int)
    requires WellFormedDrag(Some(drag))
    ensures drag.isHeader ==> MouseMove(Some(drag), layout, clientX, clientY).headerHeight >= MinHeaderHeight
    ensures !drag.isHeader && drag.startWidth.Px? ==>
      MouseMove(Some(drag), layout, clientX, clientY).columnWidths[drag.col.value].px >= MinColumnWidth
  {
  }
}
