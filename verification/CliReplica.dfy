/** The command-line client's simpler replica, and that it shows the same
    picture as the native one on any stream the server produces. */
module CliReplicas {
  import opened Wire
  import opened StyleTables
  import opened Publishing
  import opened Replicas
  import opened Systems
  import opened Invariants
  import opened Convergence
  import opened Moments

  datatype CliState = CliState(
    seqNo: nat, cols: nat, rows: nat, styles: seq<Style>, grid: seq<Row>, cursor: Cursor, modes: Modes, title: string,
    historyBase: nat, historyLen: nat, exited: Option<ExitStatus>)

  function CliFromSnapshot(snap: Snapshot): CliState {
    CliState(snap.seqNo, snap.cols, snap.rows, FromWire(snap.styles), PadRows(snap.grid, snap.rows),
             snap.cursor, snap.modes, snap.title, snap.historyBase, snap.historyLen, snap.exited)
  }

  /** Rows written verbatim; an index past the grid is ignored. */
  function WriteVerbatim(grid: seq<Row>, rows: seq<DirtyRow>): (out: seq<Row>)
    ensures |out| == |grid|
  {
    if rows == [] then grid
    else
      var front := WriteVerbatim(grid, rows[..|rows| - 1]);
      var last := rows[|rows| - 1];
      if last.index >= |front| then front else front[last.index := last.row]
  }

  /** A resize clears the grid; there is no scroll shift. */
  function CliResized(r: CliState, d: Delta): CliState {
    if d.resized.None? then r
    else r.(cols := d.resized.value.cols, rows := d.resized.value.rows, grid := PadRows([], d.resized.value.rows))
  }

  function CliAfterDelta(r: CliState, d: Delta): CliState {
    if d.sinceSeq != r.seqNo then r
    else
      var sized := CliResized(r.(styles := SetStyles(r.styles, d.newStyles)), d);
      sized.(grid := WriteVerbatim(sized.grid, d.rows), cursor := d.cursor, modes := d.modes,
             title := if d.title.Some? then d.title.value else sized.title,
             historyBase := d.historyBase, historyLen := d.historyLen, seqNo := d.seqNo)
  }

  class CliReplica {
    var seqNo: nat
    var cols: nat
    var rows: nat
    var styles: seq<Style>
    var grid: seq<Row>
    var cursor: Cursor
    var modes: Modes
    var title: string
    var historyBase: nat
    var historyLen: nat
    var exited: Option<ExitStatus>

    ghost function State(): CliState
      reads this
    {
      CliState(seqNo, cols, rows, styles, grid, cursor, modes, title, historyBase, historyLen, exited)
    }

    constructor FromSnapshot(snap: Snapshot)
      ensures State() == CliFromSnapshot(snap)
    {
      seqNo, cols, rows := snap.seqNo, snap.cols, snap.rows;
      styles, grid := FromWire(snap.styles), PadRows(snap.grid, snap.rows);
      cursor, modes, title := snap.cursor, snap.modes, snap.title;
      historyBase, historyLen, exited := snap.historyBase, snap.historyLen, snap.exited;
    }

    method ApplyDelta(d: Delta) returns (gap: bool)
      modifies this
      ensures State() == CliAfterDelta(old(State()), d) && gap == (d.sinceSeq != old(seqNo))
    {
      hide SetStyles, WriteVerbatim, CliResized;
      gap := d.sinceSeq != seqNo;
      if gap {
        return;
      }
      AddStyles(d.newStyles);
      Regrid(d);
      ReplaceRows(d.rows);
      cursor, modes := d.cursor, d.modes;
      if d.title.Some? {
        title := d.title.value;
      }
      historyBase, historyLen, seqNo := d.historyBase, d.historyLen, d.seqNo;
    }

    method Regrid(d: Delta)
      modifies this`cols, this`rows, this`grid
      ensures State() == CliResized(old(State()), d)
    {
      hide PadRows;
      if d.resized.Some? {
        cols, rows := d.resized.value.cols, d.resized.value.rows;
        grid := PadRows([], rows);
      }
    }

    method AddStyles(news: seq<NewStyle>)
      modifies this`styles
      ensures styles == SetStyles(old(styles), news)
    {
      for k := 0 to |news|
        invariant styles == SetStyles(old(styles), news[..k])
      {
        assert news[..k + 1][..k] == news[..k];
        styles := SetStyle(styles, news[k].index, news[k].style);
      }
      assert news[..|news|] == news;
    }

    method ReplaceRows(rows: seq<DirtyRow>)
      modifies this`grid
      ensures grid == WriteVerbatim(old(grid), rows)
    {
      for k := 0 to |rows|
        invariant grid == WriteVerbatim(old(grid), rows[..k])
      {
        assert rows[..k + 1][..k] == rows[..k];
        var index := rows[k].index;
        if index < |grid| {
          grid := grid[index := rows[k].row];
        }
      }
      assert rows[..|rows|] == rows;
    }
  }

  // ------------------------------------------------------------ one picture

  /** The same cells, text and soft wrap in columns `0..cols`. */
  ghost predicate SameRow(a: Row, b: Row, cols: nat) {
    && a.extras == b.extras && a.wrapped == b.wrapped
    && forall col :: 0 <= col < cols ==> CellAt(a, col) == CellAt(b, col)
  }

  ghost predicate SameRows(a: seq<Row>, b: seq<Row>, cols: nat) {
    |a| == |b| && forall i :: 0 <= i < |a| ==> SameRow(a[i], b[i], cols)
  }

  ghost predicate SamePicture(n: ReplicaState, c: CliState) {
    && n.seqNo == c.seqNo && n.cols == c.cols && n.rows == c.rows && n.styles == c.styles
    && n.cursor == c.cursor && n.modes == c.modes && n.title == c.title
    && n.historyBase == c.historyBase && n.historyLen == c.historyLen && n.exited == c.exited
    && |n.visible| == n.rows && SameRows(n.visible, c.grid, n.cols)
  }

  lemma SnapshotSame(n: ReplicaState, snap: Snapshot)
    ensures SamePicture(AfterSnapshot(n, snap), CliFromSnapshot(snap))
  {
    var padded := PadRows(snap.grid, snap.rows);
    forall i | 0 <= i < snap.rows
      ensures SameRow(TruncateRow(padded[i], snap.cols), padded[i], snap.cols)
    {
      TruncateRowKeeps(padded[i], snap.cols);
    }
  }

  lemma TruncatedSame(row: Row, cols: nat)
    ensures SameRow(TruncateRow(row, cols), row, cols)
  {
    TruncateRowKeeps(row, cols);
  }

  /** Where every row is written, it does not matter what was there. */
  lemma {:induction false} WritesSame(visible: seq<Row>, grid: seq<Row>, cols: nat, rows: seq<DirtyRow>)
    requires |visible| == |grid|
    ensures var v, g := WriteRows(visible, cols, rows), WriteVerbatim(grid, rows);
            forall i :: 0 <= i < |visible| ==>
              SameRow(v[i], g[i], cols) ||
              (v[i] == visible[i] && g[i] == grid[i] && forall k :: 0 <= k < |rows| ==> rows[k].index != i)
  {
    hide SameRow, TruncateRow;
    if rows == [] {
    } else {
      WritesSame(visible, grid, cols, rows[..|rows| - 1]);
      TruncatedSame(rows[|rows| - 1].row, cols);
    }
  }

  /** A Delta that repaints what it shifts keeps the two pictures the same. */
  lemma DeltaSame(n: ReplicaState, c: CliState, d: Delta)
    requires SamePicture(n, c) && !IsGap(n, d) && Covers(n, d)
    ensures SamePicture(AfterDelta(n, d), CliAfterDelta(c, d))
  {
    hide SetStyles, TruncateRow;
    BeforeRowsShape(n, d);
    var ready, sized := BeforeRows(n, d), CliResized(c, d);
    WritesSame(ready.visible, sized.grid, ready.cols, d.rows);
    forall i | 0 <= i < ready.rows && forall k :: 0 <= k < |d.rows| ==> d.rows[k].index != i
      ensures SameRow(ready.visible[i], sized.grid[i], ready.cols)
    {
      assert i !in NamedRows(d);
      assert ready.visible == n.visible;
    }
  }

  function CliAfter(c: CliState, frame: Frame): CliState {
    match frame
    case SnapshotMsg(snap) => CliFromSnapshot(snap)
    case DeltaMsg(d) => CliAfterDelta(c, d)
    case _ => c
  }

  /** One frame taken by both clients keeps the pictures the same; a Snapshot
      makes them so. A Delta must have been sent to an Active attachment. */
  lemma FrameSame(n: ReplicaState, c: CliState, sent: Sent)
    requires Fits(n, sent) && !sent.frame.ExitedMsg?
    requires sent.frame.SnapshotMsg? || (SamePicture(n, c) && (sent.frame.DeltaMsg? ==> sent.mode == Active))
    ensures SamePicture(Taken(n, sent.frame), CliAfter(c, sent.frame))
  {
    hide SamePicture, AfterDelta, AfterSnapshot, CliAfterDelta, Covers;
    match sent.frame {
      case SnapshotMsg(snap) => SnapshotSame(n, snap);
      case DeltaMsg(d) => DeltaSame(n, c, d);
      case _ =>
    }
  }

  /** Over a run, a command-line client that receives the frames of client `c`. */
  ghost predicate Shadows(states: seq<System>, events: seq<Event>, c: ClientId, clis: seq<CliState>) {
    && |clis| == |states| == |events| + 1
    && forall k :: 0 <= k < |events| ==> ShadowStep(states[k], events[k], c, clis[k], clis[k + 1])
  }

  ghost predicate ShadowStep(sys: System, e: Event, c: ClientId, cli: CliState, cli': CliState) {
    var sent := Delivered(sys, e, c);
    cli' == if sent.Some? then CliAfter(cli, sent.value.frame) else cli
  }

  /** What event `e` delivers to `c`, if anything, both clients can take. */
  predicate Takeable(sys: System, e: Event, c: ClientId) {
    var sent := Delivered(sys, e, c);
    sent.Some? ==> !sent.value.frame.ExitedMsg? && (sent.value.frame.DeltaMsg? ==> sent.value.mode == Active)
  }

  lemma StepSame(sys: System, e: Event, sys': System, c: ClientId, cli: CliState, cli': CliState)
    requires Inv(sys) && Follows(sys, e, sys') && ShadowStep(sys, e, c, cli, cli') && Takeable(sys, e, c)
    requires c in sys.links
    requires SamePicture(sys.links[c].replica, cli)
             || (Delivered(sys, e, c).Some? && Delivered(sys, e, c).value.frame.SnapshotMsg?)
    ensures c in sys'.links && SamePicture(sys'.links[c].replica, cli')
  {
    hide Follows, SamePicture, Taken, CliAfter, Fits, ServerOk, Tracks;
    StepReplica(sys, e, sys', c);
    var sent := Delivered(sys, e, c);
    if sent.Some? {
      assert StreamOk(sys.links[c]);
      FrameSame(sys.links[c].replica, cli, sent.value);
    }
  }

  /** Two clients, one picture: over any run, whatever else happens in between,
      from the first Snapshot delivered on, the command-line replica and the
      native one show the same picture after every event, as long as no exit
      event is among the frames and each Delta was sent to an Active attachment. */
  lemma {:induction false} TwoClientsOnePicture(states: seq<System>, events: seq<Event>, c: ClientId, clis: seq<CliState>, j: nat, k: nat)
    requires IsRun(states, events) && Shadows(states, events, c, clis) && j < k <= |events|
    requires var first := Delivered(states[j], events[j], c); first.Some? && first.value.frame.SnapshotMsg?
    requires forall i :: j <= i < k ==> Takeable(states[i], events[i], c)
    ensures c in states[k].links && SamePicture(states[k].links[c].replica, clis[k])
  {
    hide Follows, Inv, SamePicture, ShadowStep, Takeable;
    if k == j + 1 {
    } else {
      TwoClientsOnePicture(states, events, c, clis, j, k - 1);
    }
    RunInv(states, events, k - 1);
    assert Follows(states[k - 1], events[k - 1], states[k]);
    assert ShadowStep(states[k - 1], events[k - 1], c, clis[k - 1], clis[k]);
    StepSame(states[k - 1], events[k - 1], states[k], c, clis[k - 1], clis[k]);
  }
}
