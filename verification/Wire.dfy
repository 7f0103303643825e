/** The data-plane messages and the cell encoding they carry.

    Integer widths are not modelled: sequence numbers, line ids and style
    indices are naturals, so the saturation at `u64::MAX` never happens here. */
module Wire {
  datatype Option<+T> = None | Some(value: T)

  datatype Color = DefaultColor | Indexed(index: nat) | Rgb(r: nat, g: nat, b: nat)

  datatype Style = Style(fg: Color, bg: Color, underlineColor: Color, attrs: nat)

  const DEFAULT_STYLE := Style(DefaultColor, DefaultColor, DefaultColor, 0)

  datatype CellFlags = CellFlags(wide: bool, wideSpacer: bool, graphemeExt: bool, wideLeadingSpacer: bool)

  const NO_FLAGS := CellFlags(false, false, false, false)

  /** One packed cell; `codepoint` indexes the row's `extras` when `graphemeExt` is set. */
  datatype PackedCell = PackedCell(codepoint: nat, styleIdx: nat, flags: CellFlags)

  const BLANK := PackedCell(0x20, 0, NO_FLAGS)

  datatype Row = Row(cells: seq<PackedCell>, extras: seq<string>, wrapped: bool)

  const EMPTY_ROW := Row([], [], false)

  /** The cell at `col`, padded with blanks past the trimmed tail. */
  function CellAt(row: Row, col: nat): PackedCell {
    if col < |row.cells| then row.cells[col] else BLANK
  }

  /** Drops the trailing run of blank cells. */
  function TrimBlanks(cells: seq<PackedCell>): seq<PackedCell> {
    if cells != [] && cells[|cells| - 1] == BLANK then TrimBlanks(cells[..|cells| - 1]) else cells
  }

  /** Drops the cells past `cols`, then trailing blanks. */
  function TruncateRow(row: Row, cols: nat): Row {
    row.(cells := TrimBlanks(if |row.cells| > cols then row.cells[..cols] else row.cells))
  }

  lemma {:induction false} TrimBlanksKeeps(cells: seq<PackedCell>)
    ensures TrimBlanks(cells) <= cells
    ensures forall k :: |TrimBlanks(cells)| <= k < |cells| ==> cells[k] == BLANK
    ensures TrimBlanks(cells) != [] ==> TrimBlanks(cells)[|TrimBlanks(cells)| - 1] != BLANK
  {
    if cells != [] && cells[|cells| - 1] == BLANK {
      TrimBlanksKeeps(cells[..|cells| - 1]);
    }
  }

  /** Inside the grid width, truncation changes no cell, and it keeps no blank at the end. */
  lemma TruncateRowKeeps(row: Row, cols: nat)
    ensures var out := TruncateRow(row, cols);
            && |out.cells| <= cols && |out.cells| <= |row.cells|
            && out.extras == row.extras && out.wrapped == row.wrapped
            && (out.cells != [] ==> out.cells[|out.cells| - 1] != BLANK)
            && forall col :: 0 <= col < cols ==> CellAt(out, col) == CellAt(row, col)
  {
    TrimBlanksKeeps(if |row.cells| > cols then row.cells[..cols] else row.cells);
  }

  datatype Cursor = Cursor(row: nat, col: nat, shape: nat, visible: bool, blink: bool)

  type Modes = nat

  datatype ExitStatus = ExitStatus(code: Option<int>, signal: Option<int>)

  /** Active subscriptions are sent rows; Passive ones only metadata. */
  datatype AttachMode = Active | Passive

  datatype Size = Size(cols: nat, rows: nat)

  datatype DirtyRow = DirtyRow(index: nat, row: Row)

  datatype NewStyle = NewStyle(index: nat, style: Style)

  datatype Snapshot = Snapshot(
    seqNo: nat, cols: nat, rows: nat, styles: seq<Style>, grid: seq<Row>,
    cursor: Cursor, modes: Modes, title: string,
    historyBase: nat, historyLen: nat, exited: Option<ExitStatus>)

  datatype Delta = Delta(
    seqNo: nat, sinceSeq: nat, historyBase: nat, historyLen: nat,
    resized: Option<Size>, newStyles: seq<NewStyle>, rows: seq<DirtyRow>,
    cursor: Cursor, modes: Modes, title: Option<string>)

  /** A page of scrollback: rows from line id `fromLine` on. */
  datatype History = History(fromLine: nat, historyBase: nat, rows: seq<Row>)

  datatype Frame =
    | SnapshotMsg(snapshot: Snapshot)
    | DeltaMsg(delta: Delta)
    | HistoryMsg(page: History)
    | ExitedMsg(seqNo: nat, status: ExitStatus)
    | BellMsg
    | DetachedMsg

  /** What a Client sends back on its own: acks, and the re-Attach after a Gap. */
  datatype UpMsg = AckMsg(seqNo: nat) | AttachMsg(mode: AttachMode)
}
