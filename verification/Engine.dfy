/** What the VT engine shows of itself: the screen, the damage it reports for
    each change, and how its rows are packed through a style table. */
module Engine {
  import opened Wire
  import opened StyleTables

  // ------------------------------------------------------------ dirty rows

  /** The numbers below `n`. */
  function Below(n: nat): (s: set<nat>)
    ensures forall i :: i in s <==> 0 <= i < n
  {
    if n == 0 then {} else Below(n - 1) + {n - 1}
  }

  /** The members of `bits` below `n`, ascending. */
  function Ascending(bits: set<nat>, n: nat): (out: seq<nat>)
    ensures forall i :: i in out <==> i in bits && i < n
    ensures forall j, k :: 0 <= j < k < |out| ==> out[j] < out[k]
  {
    if n == 0 then []
    else
      var front := Ascending(bits, n - 1);
      assert forall k :: 0 <= k < |front| ==> front[k] in front;
      front + (if n - 1 in bits then [n - 1] else [])
  }

  /** A set of visible row indices; `bits` are all below `rows`. */
  datatype DirtySet = DirtySet(rows: nat, bits: set<nat>) {
    ghost predicate Valid() { bits <= Below(rows) }

    function SetAll(): DirtySet { DirtySet(rows, Below(rows)) }

    function Clear(): DirtySet { DirtySet(rows, {}) }

    function Resize(n: nat): DirtySet { DirtySet(n, {}) }

    function UnionWith(other: DirtySet): DirtySet {
      DirtySet(if other.rows > rows then other.rows else rows, bits + other.bits)
    }

    predicate IsEmpty() { bits == {} }

    predicate IsFull() { bits == Below(rows) }

    function Iter(): seq<nat> { Ascending(bits, rows) }
  }

  function NewDirtySet(rows: nat): DirtySet { DirtySet(rows, {}) }

  datatype Damage = Full | Rows(dirty: DirtySet) {
    predicate IsEmpty() { Rows? && dirty.IsEmpty() }
  }

  // ------------------------------------------------------------ the screen

  /** One cell of the engine's grid: a base character with its zero-width
      followers, a style, and what the terminal knows of its width and wrap. */
  datatype VtCell = VtCell(
    base: char, zeroWidth: string, style: Style,
    wide: bool, wideSpacer: bool, leadingSpacer: bool, wrapLine: bool)

  datatype Line = Line(cells: seq<VtCell>) {
    /** The line flows into the next one. */
    predicate Wraps() { cells != [] && cells[|cells| - 1].wrapLine }
  }

  /** `scrollback` holds the retained history lines, oldest first. */
  datatype Screen = Screen(
    cols: nat, rows: nat, lines: seq<Line>, scrollback: seq<Line>, cursor: Cursor, modes: Modes, title: string,
    historyBase: nat, historyLen: nat)
  {
    /** The id of visible row 0. */
    function FirstVisible(): nat { historyBase + historyLen }

    ghost function Styles(): set<Style> {
      StylesOf(lines)
    }

    /** A full grid below its history. */
    ghost predicate IsGrid() {
      && cols >= 1 && rows >= 1
      && |lines| == rows && |scrollback| == historyLen
      && (forall i :: 0 <= i < rows ==> |lines[i].cells| == cols)
    }

    /** A full grid whose styles, with the default, fit one style table. */
    ghost predicate Valid() {
      IsGrid() && |Styles()| <= STYLE_TABLE_CAP
    }
  }

  /** At most `count` lines from id `from` on: history, then the grid. A start
      below the retained history is moved up to it. */
  function HistoryLines(screen: Screen, from: nat, count: nat): seq<Line> {
    var addressable := screen.scrollback + screen.lines;
    var start := (if from >= screen.historyBase then from else screen.historyBase) - screen.historyBase;
    if start >= |addressable| then []
    else addressable[start..if start + count <= |addressable| then start + count else |addressable|]
  }

  ghost function StylesOf(lines: seq<Line>): (styles: set<Style>)
    ensures DEFAULT_STYLE in styles
    ensures forall i, j :: 0 <= i < |lines| && 0 <= j < |lines[i].cells| ==> lines[i].cells[j].style in styles
  {
    (set i, j | 0 <= i < |lines| && 0 <= j < |lines[i].cells| :: lines[i].cells[j].style) + {DEFAULT_STYLE}
  }

  /** What the engine promises of one burst of output: undamaged rows are
      unchanged, and a move of the first visible line damages every row. */
  ghost predicate Advances(screen: Screen, screen': Screen, damage: Damage) {
    && screen.Valid() && screen'.Valid()
    && screen'.cols == screen.cols && screen'.rows == screen.rows
    && (damage.Rows? ==>
      && damage.dirty.Valid() && damage.dirty.rows == screen.rows
      && screen'.FirstVisible() == screen.FirstVisible()
      && forall i :: 0 <= i < screen.rows && i !in damage.dirty.bits ==> screen'.lines[i] == screen.lines[i])
  }

  // ------------------------------------------------------------ packing

  /** A packed cell and the row's clusters read as the engine's cell, style
      aside; the right half of a wide character reads as nothing. */
  ghost predicate CellReads(extras: seq<string>, cell: PackedCell, v: VtCell) {
    && cell.flags.wide == v.wide && cell.flags.wideSpacer == v.wideSpacer && cell.flags.wideLeadingSpacer == v.leadingSpacer
    && if v.wideSpacer then !cell.flags.graphemeExt
       else if v.zeroWidth == "" then !cell.flags.graphemeExt && cell.codepoint == v.base as nat
       else cell.flags.graphemeExt && cell.codepoint < |extras| && extras[cell.codepoint] == [v.base] + v.zeroWidth
  }

  /** ... and, through a style table, shows it. */
  ghost predicate CellShows(table: seq<Style>, extras: seq<string>, cell: PackedCell, v: VtCell) {
    cell.styleIdx < |table| && table[cell.styleIdx] == v.style && CellReads(extras, cell, v)
  }

  /** A row reads as an engine line in the columns below `cols`. */
  ghost predicate RowReads(row: Row, line: Line, cols: nat) {
    && row.wrapped == line.Wraps()
    && forall col :: 0 <= col < cols && col < |line.cells| ==> CellReads(row.extras, CellAt(row, col), line.cells[col])
  }

  /** A row resolved through a style table shows an engine line, cell by cell;
      every index it uses is in the table. */
  ghost predicate RowShows(table: seq<Style>, row: Row, line: Line) {
    && |row.cells| <= |line.cells| && row.wrapped == line.Wraps()
    && forall col :: 0 <= col < |line.cells| ==> CellShows(table, row.extras, CellAt(row, col), line.cells[col])
  }

  /** One cell packed behind the clusters already collected for its row. */
  function PackCell(v: VtCell, styleIdx: nat, extras: seq<string>): (PackedCell, seq<string>) {
    var clustered := !v.wideSpacer && v.zeroWidth != "";
    var codepoint := if v.wideSpacer then 0 else if clustered then |extras| else v.base as nat;
    (PackedCell(codepoint, styleIdx, CellFlags(v.wide, v.wideSpacer, clustered, v.leadingSpacer)),
     if clustered then extras + [[v.base] + v.zeroWidth] else extras)
  }

  datatype Packing = Packing(cells: seq<PackedCell>, extras: seq<string>, styles: TableState)

  function PackCells(cells: seq<VtCell>, t: TableState): Packing {
    if cells == [] then Packing([], [], t)
    else
      var last := cells[|cells| - 1];
      var front := PackCells(cells[..|cells| - 1], t);
      var (idx, t') := Interned(front.styles, last.style);
      var (cell, extras) := PackCell(last, idx, front.extras);
      Packing(front.cells + [cell], extras, t')
  }

  function PackedRow(line: Line, t: TableState): (Row, TableState) {
    var packing := PackCells(line.cells, t);
    (Row(TrimBlanks(packing.cells), packing.extras, line.Wraps()), packing.styles)
  }

  function PackRows(lines: seq<Line>, t: TableState): (seq<Row>, TableState) {
    if lines == [] then ([], t)
    else
      var (front, t1) := PackRows(lines[..|lines| - 1], t);
      var (row, t2) := PackedRow(lines[|lines| - 1], t1);
      (front + [row], t2)
  }

  lemma PackCellShows(v: VtCell, t: TableState, extras: seq<string>)
    requires ValidTable(t.table)
    ensures var (idx, t') := Interned(t, v.style);
            var (cell, extras') := PackCell(v, idx, extras);
            CellShows(t'.table, extras', cell, v) && extras <= extras'
  {
    InternGrows(t, v.style);
  }

  /** What a cell shows survives more styles and more clusters. */
  lemma CellShowsMonotone(table: seq<Style>, table': seq<Style>, extras: seq<string>, extras': seq<string>, cell: PackedCell, v: VtCell)
    requires table <= table' && extras <= extras' && CellShows(table, extras, cell, v)
    ensures CellShows(table', extras', cell, v)
  {
  }

  lemma {:induction false} PackCellsShow(cells: seq<VtCell>, t: TableState)
    requires ValidTable(t.table)
    ensures var packing := PackCells(cells, t);
            && |packing.cells| == |cells| && Grows(t, packing.styles)
            && (packing.styles.generation == t.generation ==>
              forall k :: 0 <= k < |cells| ==> CellShows(packing.styles.table, packing.extras, packing.cells[k], cells[k]))
  {
    if cells == [] {
    } else {
      hide CellShows, Interned, PackCell;
      var before, last := cells[..|cells| - 1], cells[|cells| - 1];
      PackCellsShow(before, t);
      var front, packing := PackCells(before, t), PackCells(cells, t);
      InternGrows(front.styles, last.style);
      PackCellShows(last, front.styles, front.extras);
      if packing.styles.generation == t.generation {
        forall k | 0 <= k < |before|
          ensures CellShows(packing.styles.table, packing.extras, packing.cells[k], cells[k])
        {
          CellShowsMonotone(front.styles.table, packing.styles.table, front.extras, packing.extras, front.cells[k], before[k]);
        }
      }
    }
  }

  lemma PackedRowShows(line: Line, t: TableState)
    requires ValidTable(t.table)
    ensures var (row, t') := PackedRow(line, t);
            Grows(t, t') && (t'.generation == t.generation ==> RowShows(t'.table, row, line))
  {
    hide CellShows;
    PackCellsShow(line.cells, t);
    var packing := PackCells(line.cells, t);
    var row := PackedRow(line, t).0;
    TrimBlanksKeeps(packing.cells);
    assert forall col :: 0 <= col < |line.cells| ==> CellAt(row, col) == packing.cells[col];
  }

  /** Packing without a reset shows every line through the resulting table. */
  lemma {:induction false} PackRowsShow(lines: seq<Line>, t: TableState)
    requires ValidTable(t.table)
    ensures var (rows, t') := PackRows(lines, t);
            && |rows| == |lines| && Grows(t, t')
            && (t'.generation == t.generation ==>
              forall k :: 0 <= k < |lines| ==> RowShows(t'.table, rows[k], lines[k]))
  {
    if lines == [] {
    } else {
      var front := lines[..|lines| - 1];
      PackRowsShow(front, t);
      var (rows1, t1) := PackRows(front, t);
      PackedRowShows(lines[|lines| - 1], t1);
      var t2 := PackedRow(lines[|lines| - 1], t1).1;
      if t2.generation == t.generation {
        forall k | 0 <= k < |front|
          ensures RowShows(t2.table, rows1[k], lines[k])
        {
          ShowsMonotone(t1.table, t2.table, rows1[k], front[k]);
        }
      }
    }
  }

  /** Appending styles to a table never changes what a row shows. */
  lemma ShowsMonotone(table: seq<Style>, table': seq<Style>, row: Row, line: Line)
    requires table <= table' && RowShows(table, row, line)
    ensures RowShows(table', row, line)
  {
    hide CellShows;
    forall col | 0 <= col < |line.cells|
      ensures CellShows(table', row.extras, CellAt(row, col), line.cells[col])
    {
      CellShowsMonotone(table, table', row.extras, row.extras, CellAt(row, col), line.cells[col]);
    }
  }

  /** A table inside the set is not reset and stays inside; a reset happens at
      most once and leaves the table inside. */
  ghost predicate StaysWithin(t: TableState, t': TableState, styles: set<Style>) {
    if Within(t.table, styles)
    then t'.generation == t.generation && Within(t'.table, styles)
    else t'.generation == t.generation || (t'.generation == t.generation + 1 && Within(t'.table, styles))
  }

  lemma {:induction false} PackCellsWithin(cells: seq<VtCell>, t: TableState, styles: set<Style>)
    requires ValidTable(t.table)
    requires DEFAULT_STYLE in styles && |styles| <= STYLE_TABLE_CAP
    requires forall k :: 0 <= k < |cells| ==> cells[k].style in styles
    ensures StaysWithin(t, PackCells(cells, t).styles, styles)
  {
    if cells == [] {
    } else {
      var front := cells[..|cells| - 1];
      PackCellsWithin(front, t, styles);
      PackCellsShow(front, t);
      InternWithin(PackCells(front, t).styles, cells[|cells| - 1].style, styles);
    }
  }

  lemma {:induction false} PackRowsWithin(lines: seq<Line>, t: TableState, styles: set<Style>)
    requires ValidTable(t.table)
    requires DEFAULT_STYLE in styles && |styles| <= STYLE_TABLE_CAP
    requires forall i, j :: 0 <= i < |lines| && 0 <= j < |lines[i].cells| ==> lines[i].cells[j].style in styles
    ensures StaysWithin(t, PackRows(lines, t).1, styles)
  {
    if lines == [] {
    } else {
      var front := lines[..|lines| - 1];
      PackRowsWithin(front, t, styles);
      PackRowsShow(front, t);
      PackCellsWithin(lines[|lines| - 1].cells, PackRows(front, t).1, styles);
    }
  }

  // ------------------------------------------------------------ lines by id

  /** The engine's line with a given id: history first, then the grid. */
  function LineWithId(screen: Screen, id: nat): Line
    requires screen.IsGrid() && screen.historyBase <= id < screen.FirstVisible() + screen.rows
  {
    if id < screen.FirstVisible() then screen.scrollback[id - screen.historyBase] else screen.lines[id - screen.FirstVisible()]
  }

  lemma CellReadsMonotone(extras: seq<string>, extras': seq<string>, cell: PackedCell, v: VtCell)
    requires extras <= extras' && CellReads(extras, cell, v)
    ensures CellReads(extras', cell, v)
  {
  }

  /** Whatever happens to the styles, packed cells read as the engine's. */
  lemma {:induction false} PackCellsRead(cells: seq<VtCell>, t: TableState)
    ensures var packing := PackCells(cells, t);
            && |packing.cells| == |cells|
            && forall k :: 0 <= k < |cells| ==> CellReads(packing.extras, packing.cells[k], cells[k])
  {
    if cells == [] {
    } else {
      hide CellReads, Interned, PackCell;
      var before, last := cells[..|cells| - 1], cells[|cells| - 1];
      var front, packing := PackCells(before, t), PackCells(cells, t);
      PackCellsRead(before, t);
      PackCellReads(last, Interned(front.styles, last.style).0, front.extras);
      forall k | 0 <= k < |before|
        ensures CellReads(packing.extras, packing.cells[k], cells[k])
      {
        CellReadsMonotone(front.extras, packing.extras, front.cells[k], before[k]);
      }
    }
  }

  lemma PackCellReads(v: VtCell, styleIdx: nat, extras: seq<string>)
    ensures var (cell, extras') := PackCell(v, styleIdx, extras); CellReads(extras', cell, v) && extras <= extras'
  {
  }

  lemma PackedRowReads(line: Line, t: TableState)
    ensures RowReads(PackedRow(line, t).0, line, |line.cells|)
  {
    hide CellReads, PackCells, TrimBlanks;
    PackCellsRead(line.cells, t);
    var packing, row := PackCells(line.cells, t), PackedRow(line, t).0;
    TrimBlanksKeeps(packing.cells);
    forall col | 0 <= col < |line.cells|
      ensures CellReads(row.extras, CellAt(row, col), line.cells[col])
    {
      assert CellAt(row, col) == packing.cells[col];
    }
  }

  lemma {:induction false} PackRowsRead(lines: seq<Line>, t: TableState)
    ensures var rows := PackRows(lines, t).0;
            |rows| == |lines| && forall k :: 0 <= k < |rows| ==> RowReads(rows[k], lines[k], |lines[k].cells|)
  {
    hide RowReads, PackedRow;
    if lines == [] {
    } else {
      PackRowsRead(lines[..|lines| - 1], t);
      PackedRowReads(lines[|lines| - 1], PackRows(lines[..|lines| - 1], t).1);
    }
  }

  /** A history request, by line id: it starts at the id asked for or at the
      oldest retained line, and runs on to the count or the end of the grid. */
  lemma HistoryLinesAre(screen: Screen, from: nat, count: nat)
    requires screen.IsGrid()
    ensures var lines := HistoryLines(screen, from, count);
            var start := if from >= screen.historyBase then from else screen.historyBase;
            var end := screen.FirstVisible() + screen.rows;
            && |lines| == (if start >= end then 0 else if count < end - start then count else end - start)
            && forall k :: 0 <= k < |lines| ==> lines[k] == LineWithId(screen, start + k)
  {
  }

  // ------------------------------------------------------------ the packers

  /** Packs one line: styles interned, clusters collected, trailing blanks dropped. */
  method PackRow(line: Line, styles: SurfaceStyleTable) returns (row: Row)
    modifies styles
    ensures (row, styles.State()) == PackedRow(line, old(styles.State()))
  {
    hide Interned;
    var cells: seq<PackedCell>, extras: seq<string> := [], [];
    for column := 0 to |line.cells|
      invariant Packing(cells, extras, styles.State()) == PackCells(line.cells[..column], old(styles.State()))
    {
      assert line.cells[..column + 1][..column] == line.cells[..column];
      var v := line.cells[column];
      var idx := styles.Intern(v.style);
      var codepoint := 0;
      var clustered := false;
      if v.wideSpacer {
      } else if v.zeroWidth == "" {
        codepoint := v.base as nat;
      } else {
        extras := extras + [[v.base] + v.zeroWidth];
        clustered := true;
        codepoint := |extras| - 1;
      }
      cells := cells + [PackedCell(codepoint, idx, CellFlags(v.wide, v.wideSpacer, clustered, v.leadingSpacer))];
    }
    assert line.cells[..|line.cells|] == line.cells;
    var trimmed := TrimTrailing(cells);
    row := Row(trimmed, extras, line.cells != [] && line.cells[|line.cells| - 1].wrapLine);
  }

  method TrimTrailing(cells: seq<PackedCell>) returns (trimmed: seq<PackedCell>)
    ensures trimmed == TrimBlanks(cells)
  {
    trimmed := cells;
    while trimmed != [] && trimmed[|trimmed| - 1] == BLANK
      invariant TrimBlanks(trimmed) == TrimBlanks(cells)
    {
      trimmed := trimmed[..|trimmed| - 1];
    }
  }
}
