/** What each kind of frame does to the client it reaches. */
module FrameLemmas {
  import opened Wire
  import opened StyleTables
  import opened Engine
  import opened Publishing
  import opened Surfaces
  import opened Replicas
  import opened Systems
  import opened Invariants

  // ------------------------------------------------------------ building

  /** A table later in the same surface's life, between frames. */
  ghost predicate Later(t: TableState, t': TableState) {
    && ValidTable(t'.table) && !t'.overflowed
    && t.generation <= t'.generation
    && (t.generation == t'.generation ==> t.table <= t'.table)
  }

  /** Frame building moves only the style table and what the last frame said. */
  ghost predicate Ahead(s: SurfaceState, s': SurfaceState) {
    && s'.screen == s.screen && s'.status == s.status && s'.seqNo == s.seqNo
    && Later(s.styles, s'.styles)
    && (s'.lastCursor == s.lastCursor || s'.lastCursor == s.screen.cursor)
    && (s'.lastModes == s.lastModes || s'.lastModes == s.screen.modes)
    && (s'.lastTitle == s.lastTitle || s'.lastTitle == s.screen.title)
    && ((s'.lastBase == s.lastBase && s'.lastLen == s.lastLen) ||
        (s'.lastBase == s.screen.historyBase && s'.lastLen == s.screen.historyLen))
  }

  /** Snapshot self-containment: for a screen whose styles fit one table, the
      screen is rendered at most twice, the table is reset at most once, and
      every row shows the engine's line through the styles it travels with. */
  lemma SnapshotSelfContained(s: SurfaceState)
    requires s.screen.Valid() && ValidTable(s.styles.table)
    ensures var (snap, s') := BuiltSnapshot(s);
            && snap.styles == s'.styles.table && |snap.grid| == snap.rows == s.screen.rows
            && (forall i :: 0 <= i < snap.rows ==> RowShows(snap.styles, snap.grid[i], s.screen.lines[i]))
            && Ahead(s, s') && s'.styles.generation <= s.styles.generation + 1
            && s'.publisher == s.publisher
  {
    var first := s.styles.(overflowed := false);
    PackRowsShow(s.screen.lines, first);
    var again := PackRows(s.screen.lines, first).1.(overflowed := false);
    PackRowsWithin(s.screen.lines, first, s.screen.Styles());
    if again.generation != first.generation {
      PackRowsShow(s.screen.lines, again);
      PackRowsWithin(s.screen.lines, again, s.screen.Styles());
    }
  }

  /** ... and exactly for such a screen: any other shows some cell in a wrong
      style, or none, through whatever table the Snapshot carries. */
  lemma SnapshotSelfContainedIff(s: SurfaceState)
    requires s.screen.IsGrid() && ValidTable(s.styles.table)
    ensures var snap := BuiltSnapshot(s).0;
            && |snap.grid| == snap.rows == s.screen.rows
            && ((forall i :: 0 <= i < snap.rows ==> RowShows(snap.styles, snap.grid[i], s.screen.lines[i]))
                <==> |s.screen.Styles()| <= STYLE_TABLE_CAP)
  {
    if |s.screen.Styles()| <= STYLE_TABLE_CAP {
      SnapshotSelfContained(s);
    } else {
      var first := s.styles.(overflowed := false);
      PackRowsShow(s.screen.lines, first);
      PackRowsShow(s.screen.lines, PackRows(s.screen.lines, first).1.(overflowed := false));
      TooManyStyles(BuiltSnapshot(s).0.styles, BuiltSnapshot(s).0.grid, s.screen);
    }
  }

  lemma StyleUsed(screen: Screen, style: Style) returns (i: nat, j: nat)
    requires style in screen.Styles() && style != DEFAULT_STYLE
    ensures i < |screen.lines| && j < |screen.lines[i].cells| && screen.lines[i].cells[j].style == style
  {
    i, j :| 0 <= i < |screen.lines| && 0 <= j < |screen.lines[i].cells| && screen.lines[i].cells[j].style == style;
  }

  lemma StyleShown(table: seq<Style>, row: Row, line: Line, j: nat)
    requires RowShows(table, row, line) && j < |line.cells|
    ensures line.cells[j].style in table
  {
    assert CellShows(table, row.extras, CellAt(row, j), line.cells[j]);
  }

  /** No valid table shows a screen of more styles than the cap. */
  lemma TooManyStyles(table: seq<Style>, grid: seq<Row>, screen: Screen)
    requires ValidTable(table) && |grid| == |screen.lines| && |screen.Styles()| > STYLE_TABLE_CAP
    ensures exists i :: 0 <= i < |grid| && !RowShows(table, grid[i], screen.lines[i])
  {
    hide RowShows, StylesOf;
    if forall i :: 0 <= i < |grid| ==> RowShows(table, grid[i], screen.lines[i]) {
      forall style | style in screen.Styles()
        ensures style in table
      {
        if style != DEFAULT_STYLE {
          var i, j := StyleUsed(screen, style);
          StyleShown(table, grid[i], screen.lines[i], j);
        }
      }
      TableSize(table, screen.Styles());
    }
  }

  lemma {:induction false} TableSize(table: seq<Style>, styles: set<Style>)
    requires forall style :: style in styles ==> style in table
    ensures |styles| <= |table|
  {
    if table == [] {
      assert styles == {};
    } else {
      var rest := table[..|table| - 1];
      TableSize(rest, styles - {table[|table| - 1]});
    }
  }

  /** Dirty rows in ascending order, one for each member of `bits` and no
      other, each showing the engine's line. */
  ghost predicate Paints(rows: seq<DirtyRow>, bits: set<nat>, table: seq<Style>, lines: seq<Line>) {
    && (forall j, k :: 0 <= j < k < |rows| ==> rows[j].index < rows[k].index)
    && (forall k :: 0 <= k < |rows| ==> rows[k].index in bits)
    && (forall i :: i in bits ==> exists k :: 0 <= k < |rows| && rows[k].index == i)
    && (forall k :: 0 <= k < |rows| ==> rows[k].index < |lines| && RowShows(table, rows[k].row, lines[rows[k].index]))
  }

  /** Rows packed for ascending indices paint exactly those indices. */
  lemma DirtyRowsPaint(indices: seq<nat>, rows: seq<Row>, bits: set<nat>, table: seq<Style>, lines: seq<Line>)
    requires |rows| == |indices| && forall i :: i in indices <==> i in bits
    requires forall j, k :: 0 <= j < k < |indices| ==> indices[j] < indices[k]
    requires forall k :: 0 <= k < |indices| ==> indices[k] < |lines| && RowShows(table, rows[k], lines[indices[k]])
    ensures Paints(DirtyRows(indices, rows), bits, table, lines)
  {
    hide RowShows;
    var out := DirtyRows(indices, rows);
    forall i | i in bits
      ensures exists k :: 0 <= k < |out| && out[k].index == i
    {
      var k :| 0 <= k < |indices| && indices[k] == i;
      assert out[k].index == i;
    }
    forall k | 0 <= k < |out|
      ensures out[k].index in bits
    {
      assert indices[k] in indices;
    }
  }

  /** Packing the lines of some rows paints exactly those rows. */
  lemma PackedPaints(screen: Screen, dirty: DirtySet, t: TableState)
    requires screen.Valid() && ValidTable(t.table) && dirty.Valid() && dirty.rows <= screen.rows
    ensures var indices := dirty.Iter();
            var (rows, t') := PackRows(LinesOf(screen, indices), t);
            && |rows| == |indices|
            && (!t'.overflowed ==> Paints(DirtyRows(indices, rows), dirty.bits, t'.table, screen.lines))
  {
    hide PackRows, RowShows, Paints;
    var indices := dirty.Iter();
    var lines := LinesOf(screen, indices);
    var (rows, t') := PackRows(lines, t);
    PackRowsShow(lines, t);
    assert forall i :: i in indices <==> i in dirty.bits;
    if !t'.overflowed {
      forall k | 0 <= k < |rows|
        ensures indices[k] < |screen.lines| && RowShows(t'.table, rows[k], screen.lines[indices[k]])
      {
        assert indices[k] in indices;
        assert lines[k] == LineOf(screen, indices[k]);
      }
      DirtyRowsPaint(indices, rows, dirty.bits, t'.table, screen.lines);
    }
  }

  lemma PaintsNames(d: Delta, bits: set<nat>, table: seq<Style>, lines: seq<Line>)
    requires Paints(d.rows, bits, table, lines)
    ensures NamedRows(d) == bits
  {
    hide RowShows;
  }

  /** A Delta's header says what the engine says; the title only when it may differ. */
  ghost predicate Announces(s: SurfaceState, since: nat, kind: EmissionKind, d: Delta)
    requires kind.DeltaKind?
  {
    && d.seqNo == s.seqNo && d.sinceSeq == since && d.resized == kind.resized
    && d.historyBase == s.screen.historyBase && d.historyLen == s.screen.historyLen
    && d.cursor == s.screen.cursor && d.modes == s.screen.modes
    && d.title == if kind.title || s.screen.title != s.lastTitle then Some(s.screen.title) else None
  }

  lemma DeltaAnnounces(s: SurfaceState, since: nat, kind: EmissionKind)
    requires kind.DeltaKind? && 1 <= s.screen.rows == |s.screen.lines|
    ensures var (d, s') := BuiltDelta(s, since, kind);
            d.Some? ==>
              && s'.lastCursor == s.screen.cursor && s'.lastModes == s.screen.modes && s'.lastTitle == s.screen.title
              && s'.lastBase == s.screen.historyBase && s'.lastLen == s.screen.historyLen
              && Announces(s, since, kind, d.value)
  {
  }

  /** A Delta that is built paints exactly the dirty rows, through a table that
      extends the sender's. */
  lemma DeltaBuilt(s: SurfaceState, since: nat, kind: EmissionKind)
    requires s.screen.Valid() && ValidTable(s.styles.table) && !s.styles.overflowed
    requires kind.DeltaKind? && kind.dirty.Valid() && kind.dirty.rows <= s.screen.rows
    ensures var (d, s') := BuiltDelta(s, since, kind);
            && Ahead(s, s') && s'.publisher == s.publisher
            && (d.Some? ==>
              && s.styles.generation == s'.styles.generation == kind.stylesGeneration
              && d.value.newStyles == StylesFrom(s'.styles.table, kind.stylesFrom)
              && Paints(d.value.rows, kind.dirty.bits, s'.styles.table, s.screen.lines))
  {
    hide PackRows, Paints, DirtySet.Iter, DirtySet.Valid;
    if s.styles.generation == kind.stylesGeneration {
      PackedPaints(s.screen, kind.dirty, s.styles);
      PackRowsShow(LinesOf(s.screen, kind.dirty.Iter()), s.styles);
    }
  }

  // ------------------------------------------------------------ arriving

  lemma TruncateShows(table: seq<Style>, row: Row, line: Line, cols: nat)
    requires RowShows(table, row, line) && |line.cells| == cols
    ensures RowShows(table, TruncateRow(row, cols), line)
  {
    TruncateRowKeeps(row, cols);
  }

  /** Building other clients' frames does not disturb what a client agrees on. */
  lemma SyncedStable(s: SurfaceState, s': SurfaceState, sub: Subscription, r: ReplicaState)
    requires Ahead(s, s') && Synced(s, sub, r) && sub.stylesGeneration <= s.styles.generation
    ensures Synced(s', sub, r)
  {
  }

  /** A client given a Snapshot agrees with the engine on everything. */
  lemma SnapshotArrives(s: SurfaceState, sub: Subscription, r: ReplicaState)
    requires s.screen.Valid() && ValidTable(s.styles.table)
    requires sub.lastSent == s.seqNo && !sub.pending.HasState()
    ensures var (snap, s') := BuiltSnapshot(s);
            var frame := Stripped(SnapshotMsg(snap), sub.mode);
            && frame.SnapshotMsg? && frame.snapshot.seqNo == s.seqNo
            && Fits(r, Sent(frame, sub.mode))
            && Synced(s', StylesRecorded(sub, s'.styles.generation, |s'.styles.table|), AfterSnapshot(r, frame.snapshot))
  {
    hide RowShows, Rendered, FitRows;
    SnapshotSelfContained(s);
    var snap := BuiltSnapshot(s).0;
    if sub.mode == Active {
      FitShows(snap.styles, snap.grid, s.screen);
    }
    FitLength(if sub.mode == Active then snap.grid else [], snap.cols, snap.rows);
  }

  lemma FitLength(grid: seq<Row>, cols: nat, rows: nat)
    ensures |FitRows(grid, cols, rows)| == rows
  {
  }

  /** Fitting a screen's rows to its own size changes nothing they show. */
  lemma FitShows(table: seq<Style>, grid: seq<Row>, screen: Screen)
    requires screen.Valid() && |grid| == screen.rows
    requires forall i :: 0 <= i < |grid| ==> RowShows(table, grid[i], screen.lines[i])
    ensures var fit := FitRows(grid, screen.cols, screen.rows);
            |fit| == screen.rows && forall i :: 0 <= i < |fit| ==> RowShows(table, fit[i], screen.lines[i])
  {
    hide RowShows, TruncateRow;
    forall i | 0 <= i < |grid|
      ensures RowShows(table, FitRows(grid, screen.cols, screen.rows)[i], screen.lines[i])
    {
      TruncateShows(table, grid[i], screen.lines[i], screen.cols);
    }
  }

  /** A client whose table is a prefix of the sender's completes it. */
  lemma StylesComplete(styles: seq<Style>, table: seq<Style>, sent: nat)
    requires sent <= |table| <= STYLE_TABLE_CAP && styles == table[..sent]
    ensures SetStyles(styles, StylesFrom(table, sent)) == table
  {
    var news := StylesFrom(table, sent);
    SetStylesCompletes(table, sent, |news|);
    assert news[..|news|] == news;
    assert table[..|table|] == table;
  }

  /** The scalars of a client that takes a chaining Delta. */
  lemma DeltaScalars(s: SurfaceState, sub: Subscription, r: ReplicaState, d: Delta)
    requires Synced(s, sub, r) && d.sinceSeq == sub.lastSent
    requires d.resized == sub.pending.resized && d.cursor == s.screen.cursor && d.modes == s.screen.modes
    requires d.historyBase == s.screen.historyBase && d.historyLen == s.screen.historyLen
    requires if d.title.Some? then d.title.value == s.screen.title else !sub.pending.title && s.screen.title == s.lastTitle
    ensures var r' := AfterDelta(r, d);
            && r'.seqNo == d.seqNo && r'.cols == s.screen.cols && r'.rows == s.screen.rows && |r'.visible| == r'.rows
            && r'.cursor == s.screen.cursor && r'.modes == s.screen.modes && r'.title == s.screen.title
            && r'.historyBase == s.screen.historyBase && r'.historyLen == s.screen.historyLen
            && r'.exited == s.status
            && r'.styles == SetStyles(r.styles, d.newStyles)
            && r'.visible == WriteRows(BeforeRows(r, d).visible, s.screen.cols, d.rows)
  {
    BeforeRowsShape(r, d);
  }

  lemma DeltaCovers(s: SurfaceState, p: Coalesced, r: ReplicaState, d: Delta, table: seq<Style>)
    requires ScalarsSynced(s, p, r) && RowsSynced(s.screen, p, r)
    requires p.dirty.rows == s.screen.rows && p.dirty.Valid()
    requires d.resized == p.resized && d.historyBase + d.historyLen == s.screen.FirstVisible()
    requires Paints(d.rows, p.dirty.bits, table, s.screen.lines)
    ensures Covers(r, d)
  {
    hide RowShows;
    PaintsNames(d, p.dirty.bits, table, s.screen.lines);
  }

  /** The rows of an Active client that takes a Delta painting its dirty rows. */
  lemma DeltaRows(s: SurfaceState, sub: Subscription, r: ReplicaState, d: Delta, table: seq<Style>)
    requires s.screen.Valid() && Synced(s, sub, r) && sub.mode == Active
    requires sub.pending.dirty.rows == s.screen.rows && sub.pending.dirty.Valid()
    requires d.resized == sub.pending.resized && d.historyBase + d.historyLen == s.screen.FirstVisible()
    requires Paints(d.rows, sub.pending.dirty.bits, table, s.screen.lines)
    requires r.styles <= table
    ensures Covers(r, d)
    ensures var visible := WriteRows(BeforeRows(r, d).visible, s.screen.cols, d.rows);
            |visible| == s.screen.rows && forall i :: 0 <= i < s.screen.rows ==> RowShows(table, visible[i], s.screen.lines[i])
  {
    hide RowShows, BeforeRows, WriteRows, Covers, Paints;
    BeforeRowsShape(r, d);
    DeltaCovers(s, sub.pending, r, d, table);
    var before := BeforeRows(r, d).visible;
    PaintedRows(before, d.rows, sub.pending.dirty.bits, table, s.screen);
    if !sub.pending.dirty.IsFull() {
      assert before == r.visible;
      forall i | 0 <= i < s.screen.rows && i !in sub.pending.dirty.bits
        ensures RowShows(table, before[i], s.screen.lines[i])
      {
        ShowsMonotone(r.styles, table, r.visible[i], s.screen.lines[i]);
      }
    }
  }

  /** Painted rows show; the others are as they were. */
  lemma PaintedRows(before: seq<Row>, rows: seq<DirtyRow>, bits: set<nat>, table: seq<Style>, screen: Screen)
    requires screen.Valid() && |before| == screen.rows && Paints(rows, bits, table, screen.lines)
    ensures var visible := WriteRows(before, screen.cols, rows);
            forall i :: 0 <= i < screen.rows ==>
              if i in bits then RowShows(table, visible[i], screen.lines[i]) else visible[i] == before[i]
  {
    hide RowShows, WriteRows;
    WriteRowsAt(before, screen.cols, rows);
    forall i | 0 <= i < screen.rows && i in bits
      ensures RowShows(table, WriteRows(before, screen.cols, rows)[i], screen.lines[i])
    {
      var k :| 0 <= k < |rows| && rows[k].index == i;
      TruncateShows(table, rows[k].row, screen.lines[i], screen.cols);
    }
  }

  /** A client given its Delta agrees with the engine on everything. */
  lemma DeltaArrives(s: SurfaceState, sub: Subscription, r: ReplicaState)
    requires s.screen.Valid() && ValidTable(s.styles.table) && !s.styles.overflowed
    requires SubOk(s, sub) && Synced(s, sub, r)
    requires BuiltDelta(s, sub.lastSent, DeltaOf(sub)).0.Some?
    ensures var (d, s') := BuiltDelta(s, sub.lastSent, DeltaOf(sub));
            var frame := Stripped(DeltaMsg(d.value), sub.mode);
            && frame.DeltaMsg? && frame.delta.seqNo == s.seqNo
            && Fits(r, Sent(frame, sub.mode))
            && Synced(s', StylesRecorded(DeltaSent(sub, s.screen.rows, s.seqNo), s'.styles.generation, |s'.styles.table|),
                      AfterDelta(r, frame.delta))
  {
    hide BuiltDelta, AfterDelta, BeforeRows, WriteRows, Covers, RowShows, SetStyles, StylesFrom, Paints;
    DeltaBuilt(s, sub.lastSent, DeltaOf(sub));
    DeltaAnnounces(s, sub.lastSent, DeltaOf(sub));
    var (d, s') := BuiltDelta(s, sub.lastSent, DeltaOf(sub));
    var frame := Stripped(DeltaMsg(d.value), sub.mode);
    DeltaScalars(s, sub, r, frame.delta);
    if sub.mode == Active {
      assert r.styles == s'.styles.table[..sub.stylesSent];
      StylesComplete(r.styles, s'.styles.table, sub.stylesSent);
      DeltaRows(s, sub, r, frame.delta, s'.styles.table);
    }
  }
}
