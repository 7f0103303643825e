/** The native client's mirror of one Surface: a visible grid, a style table
    and one contiguous run of cached history lines. */
module Replicas {
  import opened Wire
  import opened StyleTables

  const MAX_HISTORY_CAP := 100_000

  datatype Counters = Counters(gaps: nat, resyncs: nat, snapshots: nat)

  datatype ReplicaState = ReplicaState(
    cols: nat, rows: nat, visible: seq<Row>,
    history: seq<Row>, cacheBase: nat, historyBase: nat, historyLen: nat,
    styles: seq<Style>, cursor: Cursor, modes: Modes, title: string,
    seqNo: nat, exited: Option<ExitStatus>, cap: nat, counters: Counters)
  {
    /** The id of visible row 0. */
    function FirstVisible(): nat { historyBase + historyLen }

    /** One past the last cached history line. */
    function CacheEnd(): nat { cacheBase + |history| }
  }

  function NewReplica(cap: nat): ReplicaState {
    ReplicaState(0, 0, [], [], 0, 0, 0, [DEFAULT_STYLE], Cursor(0, 0, 0, true, false), 0, "", 0, None, cap, Counters(0, 0, 0))
  }

  // ------------------------------------------------------------ the grid

  /** The first `rows` rows, the missing ones empty. */
  function PadRows(visible: seq<Row>, rows: nat): (out: seq<Row>)
    ensures |out| == rows
    ensures forall i :: 0 <= i < rows ==> out[i] == if i < |visible| then visible[i] else EMPTY_ROW
  {
    if |visible| >= rows then visible[..rows] else visible + seq(rows - |visible|, _ => EMPTY_ROW)
  }

  function TruncateRows(rows: seq<Row>, cols: nat): (out: seq<Row>)
    ensures |out| == |rows|
    ensures forall i :: 0 <= i < |rows| ==> out[i] == TruncateRow(rows[i], cols)
  {
    seq(|rows|, i requires 0 <= i < |rows| => TruncateRow(rows[i], cols))
  }

  /** Exactly `rows` rows, the missing ones empty, each cut to `cols`. */
  function FitRows(visible: seq<Row>, cols: nat, rows: nat): seq<Row> {
    TruncateRows(PadRows(visible, rows), cols)
  }

  lemma FitTaken(visible: seq<Row>, cols: nat, rows: nat)
    ensures FitRows(visible[..Min(|visible|, rows)], cols, rows) == FitRows(visible, cols, rows)
  {
    assert PadRows(visible[..Min(|visible|, rows)], rows) == PadRows(visible, rows);
  }

  /** Dirty rows written in order; an index past the grid is ignored. */
  function WriteRows(visible: seq<Row>, cols: nat, rows: seq<DirtyRow>): (out: seq<Row>)
    ensures |out| == |visible|
  {
    if rows == [] then visible
    else
      var front := WriteRows(visible, cols, rows[..|rows| - 1]);
      var last := rows[|rows| - 1];
      if last.index >= |front| then front else front[last.index := TruncateRow(last.row, cols)]
  }

  function Resized(r: ReplicaState, size: Size): ReplicaState {
    r.(cols := size.cols, rows := size.rows, visible := FitRows(r.visible, size.cols, size.rows))
  }

  // ------------------------------------------------------------ the history cache

  function Min(a: nat, b: nat): nat { if a <= b then a else b }

  function Max(a: nat, b: nat): nat { if a <= b then b else a }

  function Dropped(r: ReplicaState, n: nat): ReplicaState
    requires n <= |r.history|
  {
    r.(history := r.history[n..], cacheBase := r.cacheBase + n)
  }

  function TrimmedTo(r: ReplicaState, keep: nat): ReplicaState {
    Dropped(r, if |r.history| > keep then |r.history| - keep else 0)
  }

  function Trimmed(r: ReplicaState): ReplicaState {
    TrimmedTo(r, Min(r.cap, MAX_HISTORY_CAP))
  }

  /** Drops the cached rows below the server's trim point. */
  function Evicted(r: ReplicaState): ReplicaState {
    var kept := Dropped(r, if r.cacheBase < r.historyBase then Min(|r.history|, r.historyBase - r.cacheBase) else 0);
    if kept.history == [] then kept.(cacheBase := kept.FirstVisible()) else kept
  }

  /** The cached run does not abut the grid whose first line is `firstVisible`. */
  predicate IsStale(r: ReplicaState, firstVisible: nat) {
    r.history != [] && r.CacheEnd() != firstVisible
  }

  /** The top `n` rows moved into the cache, blank rows added below. */
  function ScrolledInto(r: ReplicaState, n: nat): ReplicaState
    requires n <= |r.visible|
  {
    Trimmed(r.(history := r.history + r.visible[..n], visible := PadRows(r.visible[n..], r.rows)))
  }

  /** Moves the rows between two first-visible lines into the cache, or drops
      the cache when they cannot extend it. */
  function Scrolled(r: ReplicaState, oldFirst: nat, newFirst: nat): ReplicaState {
    if newFirst < oldFirst then r.(history := [], cacheBase := newFirst)
    else if newFirst == oldFirst then r
    else if newFirst - oldFirst > |r.visible| || IsStale(r, oldFirst) then r.(history := [], cacheBase := newFirst)
    else ScrolledInto(r, newFirst - oldFirst)
  }

  /** A page's rows inside `[start, first visible line)`, cut to the grid width. */
  function ClippedRows(r: ReplicaState, page: History, start: nat): seq<Row>
    requires page.fromLine <= start
  {
    var skip := start - page.fromLine;
    var tail := if skip <= |page.rows| then page.rows[skip..] else [];
    var room := if start < r.FirstVisible() then r.FirstVisible() - start else 0;
    TruncateRows(tail[..Min(|tail|, room)], r.cols)
  }

  /** A non-empty page starting at `start` merged into the cached run. */
  function Merged(r: ReplicaState, start: nat, rows: seq<Row>): ReplicaState {
    var end := start + |rows|;
    if r.history == [] || end < r.cacheBase || start > r.CacheEnd() then
      r.(history := rows, cacheBase := start)
    else
      var front := if start < r.cacheBase then rows[..r.cacheBase - start] else [];
      var back := if end > r.CacheEnd() then rows[r.CacheEnd() - start..] else [];
      r.(history := front + r.history + back, cacheBase := Min(start, r.cacheBase))
  }

  // ------------------------------------------------------------ messages

  /** A Snapshot's table, or the default one when it is malformed. */
  function FromWire(styles: seq<Style>): seq<Style> {
    if styles != [] && styles[0] == DEFAULT_STYLE && |styles| <= STYLE_TABLE_CAP then styles else [DEFAULT_STYLE]
  }

  /** The grid of a Snapshot. */
  function Regridded(r: ReplicaState, snap: Snapshot): ReplicaState {
    r.(cols := snap.cols, rows := snap.rows, visible := FitRows(snap.grid, snap.cols, snap.rows))
  }

  /** ... its styles and line counters; the cached history is dropped. */
  function Rebased(r: ReplicaState, snap: Snapshot): ReplicaState {
    r.(styles := FromWire(snap.styles), history := [], historyBase := snap.historyBase, historyLen := snap.historyLen,
       cacheBase := snap.historyBase + snap.historyLen)
  }

  /** ... its scalars; one more Snapshot is counted. */
  function Restated(r: ReplicaState, snap: Snapshot): ReplicaState {
    r.(cursor := snap.cursor, modes := snap.modes, title := snap.title, seqNo := snap.seqNo, exited := snap.exited,
       counters := r.counters.(snapshots := r.counters.snapshots + 1))
  }

  function AfterSnapshot(r: ReplicaState, snap: Snapshot): ReplicaState {
    Restated(Rebased(Regridded(r, snap), snap), snap)
  }

  predicate IsGap(r: ReplicaState, d: Delta) { d.sinceSeq != r.seqNo }

  /** The replica after the style and resize steps of a Delta. */
  function Sized(r: ReplicaState, d: Delta): ReplicaState {
    var styled := r.(styles := SetStyles(r.styles, d.newStyles));
    if d.resized.Some? then Resized(styled, d.resized.value) else styled
  }

  /** ... then the scroll, and the new history counters. */
  function Counted(r: ReplicaState, d: Delta): ReplicaState {
    Scrolled(Sized(r, d), r.FirstVisible(), d.historyBase + d.historyLen).(historyBase := d.historyBase, historyLen := d.historyLen)
  }

  /** The replica a Delta's rows are written to. */
  function BeforeRows(r: ReplicaState, d: Delta): ReplicaState {
    Evicted(Counted(r, d))
  }

  /** A Delta's rows and scalars written into a prepared replica. */
  function Written(ready: ReplicaState, d: Delta): ReplicaState {
    ready.(visible := WriteRows(ready.visible, ready.cols, d.rows),
           cursor := d.cursor, modes := d.modes,
           title := if d.title.Some? then d.title.value else ready.title,
           seqNo := d.seqNo)
  }

  function AfterDelta(r: ReplicaState, d: Delta): ReplicaState {
    if IsGap(r, d) then r.(counters := r.counters.(gaps := r.counters.gaps + 1))
    else Written(BeforeRows(r, d), d)
  }

  function AfterExited(r: ReplicaState, seqNo: nat, status: ExitStatus): ReplicaState {
    r.(exited := Some(status), seqNo := seqNo)
  }

  /** The trim point only ever rises. */
  function Based(r: ReplicaState, page: History): ReplicaState {
    r.(historyBase := Max(r.historyBase, page.historyBase))
  }

  function AfterPage(r: ReplicaState, page: History): ReplicaState {
    var based := Based(r, page);
    var start := Max(page.fromLine, based.historyBase);
    var rows := ClippedRows(based, page, start);
    if rows == [] then Evicted(based)
    else Trimmed(Evicted(Merged(based, start, rows)))
  }

  /** The row with id `line`, from the grid or the cache. */
  function LineAt(r: ReplicaState, line: nat): Option<Row> {
    if line >= r.FirstVisible() then
      var idx := line - r.FirstVisible();
      if idx < |r.visible| then Some(r.visible[idx]) else None
    else if line < r.cacheBase then None
    else if line - r.cacheBase < |r.history| then Some(r.history[line - r.cacheBase])
    else None
  }

  /** The first line a viewport `offset` lines above the bottom shows. */
  function ViewportTop(r: ReplicaState, offset: nat): nat {
    r.FirstVisible() - Min(offset, r.historyLen)
  }

  // ------------------------------------------------------------ facts

  /** Rows written at ascending indices land there and nowhere else. */
  lemma {:induction false} WriteRowsAt(visible: seq<Row>, cols: nat, rows: seq<DirtyRow>)
    requires forall j, k :: 0 <= j < k < |rows| ==> rows[j].index < rows[k].index
    requires forall k :: 0 <= k < |rows| ==> rows[k].index < |visible|
    ensures var out := WriteRows(visible, cols, rows);
            && (forall k :: 0 <= k < |rows| ==> out[rows[k].index] == TruncateRow(rows[k].row, cols))
            && (forall i :: 0 <= i < |visible| && (forall k :: 0 <= k < |rows| ==> rows[k].index != i)
                  ==> out[i] == visible[i])
  {
    if rows == [] {
    } else {
      WriteRowsAt(visible, cols, rows[..|rows| - 1]);
    }
  }

  /** A Delta keeps the grid exactly `rows` rows tall. */
  lemma BeforeRowsShape(r: ReplicaState, d: Delta)
    requires |r.visible| == r.rows
    ensures var b := BeforeRows(r, d);
            && |b.visible| == b.rows
            && b.cols == (if d.resized.Some? then d.resized.value.cols else r.cols)
            && b.rows == (if d.resized.Some? then d.resized.value.rows else r.rows)
            && b.historyBase == d.historyBase && b.historyLen == d.historyLen
            && b.styles == SetStyles(r.styles, d.newStyles)
            && b.exited == r.exited && b.counters == r.counters && b.title == r.title && b.cap == r.cap
            && (d.resized.None? && r.FirstVisible() == d.historyBase + d.historyLen ==> b.visible == r.visible)
  {
  }

  /** A Snapshot's table is taken as it is exactly when it starts with the default
      style and is within the cap; in any case the result is such a table. */
  lemma WireTable(styles: seq<Style>)
    ensures var table := FromWire(styles);
            && 1 <= |table| <= STYLE_TABLE_CAP && table[0] == DEFAULT_STYLE
            && (table == styles <==> 1 <= |styles| <= STYLE_TABLE_CAP && styles[0] == DEFAULT_STYLE)
            && (table != styles ==> table == [DEFAULT_STYLE])
  {
  }

  /** One style entry read back: its index holds the style, holes hold the default,
      the rest is as it was; an index past the cap changes nothing. */
  lemma SetStyleAt(table: seq<Style>, index: nat, style: Style, i: nat)
    requires |table| <= STYLE_TABLE_CAP
    ensures var out := SetStyle(table, index, style);
            && |out| == (if index >= STYLE_TABLE_CAP || index < |table| then |table| else index + 1)
            && (i < |out| ==> out[i] == if i == index then style else if i < |table| then table[i] else DEFAULT_STYLE)
  {
  }

  // ------------------------------------------------------------ the object

  class Replica {
    var cols: nat
    var rows: nat
    var visible: seq<Row>
    var history: seq<Row>
    var cacheBase: nat
    var historyBase: nat
    var historyLen: nat
    var styles: seq<Style>
    var cursor: Cursor
    var modes: Modes
    var title: string
    var seqNo: nat
    var exited: Option<ExitStatus>
    var cap: nat
    var counters: Counters

    ghost function State(): ReplicaState
      reads this
    {
      ReplicaState(cols, rows, visible, history, cacheBase, historyBase, historyLen, styles,
                   cursor, modes, title, seqNo, exited, cap, counters)
    }

    constructor (cap: nat)
      ensures State() == NewReplica(cap)
    {
      cols, rows, visible, history, cacheBase := 0, 0, [], [], 0;
      historyBase, historyLen, styles := 0, 0, [DEFAULT_STYLE];
      cursor, modes, title := Cursor(0, 0, 0, true, false), 0, "";
      seqNo, exited, counters := 0, None, Counters(0, 0, 0);
      this.cap := cap;
    }

    function FirstVisibleLine(): nat
      reads this
    {
      historyBase + historyLen
    }

    method Line(line: nat) returns (row: Option<Row>)
      ensures row == LineAt(State(), line)
    {
      var first := FirstVisibleLine();
      if line >= first {
        var idx := line - first;
        row := if idx < |visible| then Some(visible[idx]) else None;
      } else if line < cacheBase {
        row := None;
      } else {
        var idx := line - cacheBase;
        row := if idx < |history| then Some(history[idx]) else None;
      }
    }

    method ApplySnapshot(snap: Snapshot)
      modifies this
      ensures State() == AfterSnapshot(old(State()), snap)
    {
      hide Regridded, Rebased, Restated;
      Regrid(snap);
      Rebase(snap);
      Restate(snap);
    }

    /** Takes a Snapshot's scalars and counts it. */
    method Restate(snap: Snapshot)
      modifies this`cursor, this`modes, this`title, this`seqNo, this`exited, this`counters
      ensures State() == Restated(old(State()), snap)
    {
      cursor, modes, title, seqNo, exited := snap.cursor, snap.modes, snap.title, snap.seqNo, snap.exited;
      counters := counters.(snapshots := counters.snapshots + 1);
    }

    /** Takes a Snapshot's grid, blank rows added or extra rows dropped. */
    method Regrid(snap: Snapshot)
      modifies this`cols, this`rows, this`visible
      ensures State() == Regridded(old(State()), snap)
    {
      hide FitRows;
      visible := snap.grid[..Min(|snap.grid|, snap.rows)];
      FitTaken(snap.grid, snap.cols, snap.rows);
      Resize(snap.cols, snap.rows);
    }

    /** Takes a Snapshot's styles and line counters and drops the cached history. */
    method Rebase(snap: Snapshot)
      modifies this`styles, this`history, this`historyBase, this`historyLen, this`cacheBase
      ensures State() == Rebased(old(State()), snap)
    {
      hide FromWire;
      styles := FromWire(snap.styles);
      history := [];
      historyBase, historyLen := snap.historyBase, snap.historyLen;
      cacheBase := snap.historyBase + snap.historyLen;
    }

    /** Applies a Delta that chains on this replica; any other only counts a Gap. */
    method ApplyDelta(d: Delta) returns (gap: bool)
      modifies this
      ensures State() == AfterDelta(old(State()), d)
      ensures gap == IsGap(old(State()), d)
    {
      hide BeforeRows, WriteRows;
      gap := d.sinceSeq != seqNo;
      if gap {
        counters := counters.(gaps := counters.gaps + 1);
        return;
      }
      Prepare(d);
      ghost var ready := State();
      ReplaceRows(d.rows);
      cursor, modes, seqNo := d.cursor, d.modes, d.seqNo;
      if d.title.Some? {
        title := d.title.value;
      }
      assert State() == Written(ready, d);
    }

    /** The steps of a Delta that come before its rows: styles, resize, scroll. */
    method Prepare(d: Delta)
      modifies this
      ensures State() == BeforeRows(old(State()), d)
    {
      hide Scrolled, Evicted, Sized;
      var oldFirst := FirstVisibleLine();
      StyleAndSize(d);
      ScrollOff(oldFirst, d.historyBase + d.historyLen);
      historyBase, historyLen := d.historyBase, d.historyLen;
      EvictBelowTrimPoint();
    }

    /** Takes a Delta's styles and its size. */
    method StyleAndSize(d: Delta)
      modifies this`styles, this`cols, this`rows, this`visible
      ensures State() == Sized(old(State()), d)
    {
      hide FitRows, SetStyles;
      AddStyles(d.newStyles);
      if d.resized.Some? {
        Resize(d.resized.value.cols, d.resized.value.rows);
      }
    }

    method AddStyles(news: seq<NewStyle>)
      modifies this`styles
      ensures styles == SetStyles(old(styles), news)
    {
      for k := 0 to |news|
        invariant styles == SetStyles(old(styles), news[..k])
      {
        assert news[..k + 1][..k] == news[..k];
        styles := SetStyle(styles, news[k].index, news[k].style);
      }
      assert news[..|news|] == news;
    }

    method ReplaceRows(rows: seq<DirtyRow>)
      modifies this`visible
      ensures visible == WriteRows(old(visible), cols, rows)
    {
      for k := 0 to |rows|
        invariant visible == WriteRows(old(visible), cols, rows[..k])
      {
        assert rows[..k + 1][..k] == rows[..k];
        var index := rows[k].index;
        if index < |visible| {
          visible := visible[index := TruncateRow(rows[k].row, cols)];
        }
      }
      assert rows[..|rows|] == rows;
    }

    method ApplyExited(seqNo: nat, status: ExitStatus)
      modifies this
      ensures State() == AfterExited(old(State()), seqNo, status)
    {
      exited := Some(status);
      this.seqNo := seqNo;
    }

    method ApplyHistoryPage(page: History)
      modifies this
      ensures State() == AfterPage(old(State()), page)
    {
      if page.historyBase > historyBase {
        historyBase := page.historyBase;
      }
      assert State() == Based(old(State()), page);
      var start := Max(page.fromLine, historyBase);
      var skip := start - page.fromLine;
      var tail := if skip <= |page.rows| then page.rows[skip..] else [];
      var room := if start < FirstVisibleLine() then FirstVisibleLine() - start else 0;
      var cut := tail[..Min(|tail|, room)];
      var rows := [];
      for i := 0 to |cut|
        invariant rows == TruncateRows(cut[..i], cols)
      {
        rows := rows + [TruncateRow(cut[i], cols)];
      }
      assert cut[..|cut|] == cut;
      assert rows == ClippedRows(State(), page, start);
      if rows == [] {
        EvictBelowTrimPoint();
        return;
      }
      Merge(start, rows);
      EvictBelowTrimPoint();
      TrimToCap();
    }

    method Merge(start: nat, rows: seq<Row>)
      modifies this`history, this`cacheBase
      ensures State() == Merged(old(State()), start, rows)
    {
      var end := start + |rows|;
      var cachedStart, cachedEnd := cacheBase, cacheBase + |history|;
      if history == [] || end < cachedStart || start > cachedEnd {
        // Two runs cannot be kept: the older one goes.
        history := rows;
        cacheBase := start;
      } else {
        if start < cachedStart {
          PushFront(rows[..cachedStart - start]);
          cacheBase := start;
        }
        if end > cachedEnd {
          PushBack(rows[cachedEnd - start..]);
        }
        assert history == Merged(old(State()), start, rows).history;
      }
    }

    method PushFront(rows: seq<Row>)
      modifies this`history
      ensures history == rows + old(history)
    {
      for i := |rows| downto 0
        invariant history == rows[i..] + old(history)
      {
        history := [rows[i]] + history;
      }
    }

    method PushBack(rows: seq<Row>)
      modifies this`history
      ensures history == old(history) + rows
    {
      for i := 0 to |rows|
        invariant history == old(history) + rows[..i]
      {
        history := history + [rows[i]];
      }
    }

    /** No reflow: rows are added or dropped at the bottom and cut to width. */
    method Resize(cols: nat, rows: nat)
      modifies this`cols, this`rows, this`visible
      ensures this.cols == cols && this.rows == rows && visible == FitRows(old(visible), cols, rows)
    {
      this.cols, this.rows := cols, rows;
      visible := PadRows(visible, rows);
      for i := 0 to rows
        modifies this`visible
        invariant |visible| == rows
        invariant forall j :: 0 <= j < i ==> visible[j] == FitRows(old(visible), cols, rows)[j]
        invariant visible[i..] == PadRows(old(visible), rows)[i..]
      {
        visible := visible[i := TruncateRow(visible[i], cols)];
      }
      assert visible == FitRows(old(visible), cols, rows);
    }

    method ShrinkHistoryTo(keep: nat)
      modifies this`history, this`cacheBase
      ensures State() == TrimmedTo(old(State()), keep)
    {
      ghost var n := 0;
      while |history| > keep
        modifies this`history, this`cacheBase
        invariant n <= |old(history)| && (n > 0 ==> |history| >= keep)
        invariant history == old(history)[n..] && cacheBase == old(cacheBase) + n
      {
        history := history[1..];
        cacheBase := cacheBase + 1;
        n := n + 1;
      }
    }

    method ScrollOff(oldFirst: nat, newFirst: nat)
      modifies this`history, this`cacheBase, this`visible
      ensures State() == Scrolled(old(State()), oldFirst, newFirst)
    {
      hide ScrolledInto;
      if newFirst < oldFirst {
        history := [];
        cacheBase := newFirst;
        return;
      }
      var appended := newFirst - oldFirst;
      if appended == 0 {
        return;
      }
      if appended > |visible| || (history != [] && cacheBase + |history| != oldFirst) {
        history := [];
        cacheBase := newFirst;
        return;
      }
      ScrollInto(appended);
    }

    method ScrollInto(n: nat)
      requires n <= |visible|
      modifies this`history, this`cacheBase, this`visible
      ensures State() == ScrolledInto(old(State()), n)
    {
      hide PadRows, Trimmed;
      PushBack(visible[..n]);
      visible := PadRows(visible[n..], rows);
      TrimToCap();
    }

    method EvictBelowTrimPoint()
      modifies this`history, this`cacheBase
      ensures State() == Evicted(old(State()))
    {
      ghost var n := 0;
      while history != [] && cacheBase < historyBase
        modifies this`history, this`cacheBase
        invariant n <= |old(history)| && (n > 0 ==> cacheBase <= historyBase)
        invariant history == old(history)[n..] && cacheBase == old(cacheBase) + n
        decreases |history|
      {
        history := history[1..];
        cacheBase := cacheBase + 1;
        n := n + 1;
      }
      if history == [] {
        cacheBase := FirstVisibleLine();
      }
    }

    method TrimToCap()
      modifies this`history, this`cacheBase
      ensures State() == Trimmed(old(State()))
    {
      ShrinkHistoryTo(Min(cap, MAX_HISTORY_CAP));
    }
  }
}
