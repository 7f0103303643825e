/** One Surface: the engine's screen, the style table and the publisher, and
    the frames built from them. */
module Surfaces {
  import opened Wire
  import opened StyleTables
  import opened Engine
  import opened Publishing

  /** `status` is the exit status once the child is gone; the `last` fields hold
      what the most recently built frame said. */
  datatype SurfaceState = SurfaceState(
    screen: Screen, styles: TableState, publisher: PublisherState, seqNo: nat, status: Option<ExitStatus>,
    lastCursor: Cursor, lastModes: Modes, lastTitle: string, lastBase: nat, lastLen: nat)

  datatype ClientFrame = ClientFrame(client: ClientId, frame: Frame)

  function NewSurface(screen: Screen, config: PublisherConfig): SurfaceState {
    SurfaceState(screen, TableState([DEFAULT_STYLE], 0, false), PublisherState(config, map[], screen.rows, None), 1, None,
                 screen.cursor, screen.modes, screen.title, screen.historyBase, screen.historyLen)
  }

  // ------------------------------------------------------------ engine changes

  /** What differs between the screen and the last frame. */
  function Changes(s: SurfaceState): Marks {
    Marks(s.screen.cursor != s.lastCursor, s.screen.modes != s.lastModes, s.screen.title != s.lastTitle, false,
          s.screen.historyBase != s.lastBase || s.screen.historyLen != s.lastLen)
  }

  ghost function Recorded(s: SurfaceState, f: Subscription -> Subscription): SurfaceState {
    s.(publisher := Mapped(s.publisher, f))
  }

  ghost function Derived(s: SurfaceState): SurfaceState {
    Recorded(s, Marker(Changes(s)))
  }

  /** The engine moved to `screen`, reporting `damage` and these events. */
  ghost function AfterFeed(s: SurfaceState, screen: Screen, damage: Damage, titled: bool, bell: bool): SurfaceState {
    var evented := Recorded(s.(screen := screen), Marker(Marks(false, false, titled, bell, false)));
    Derived(if damage.IsEmpty() then evented else Recorded(evented, Damager(damage)))
  }

  /** The size asked for, at least 1x1. */
  function AtLeastOne(size: Size): Size {
    Size(if size.cols >= 1 then size.cols else 1, if size.rows >= 1 then size.rows else 1)
  }

  /** `screen` is what the engine shows after resizing, when it does resize. */
  ghost function AfterResize(s: SurfaceState, size: Size, screen: Screen): SurfaceState {
    var wanted := AtLeastOne(size);
    if wanted == Size(s.screen.cols, s.screen.rows) then s
    else
      var resized := Recorded(s.(screen := screen), Resizer(wanted));
      Derived(resized.(publisher := resized.publisher.(rows := wanted.rows)))
  }

  ghost function AfterReset(s: SurfaceState, screen: Screen): SurfaceState {
    var cleared := s.(screen := screen, styles := ResetTable(s.styles).(overflowed := false));
    Derived(Recorded(cleared, Forced))
  }

  ghost function AfterExit(s: SurfaceState, status: ExitStatus): SurfaceState {
    Recorded(s.(status := Some(status), seqNo := s.seqNo + 1), EventNoter(s.seqNo + 1))
  }

  /** Rendering `lines` for a history page interns their styles. */
  ghost function AfterHistory(s: SurfaceState, lines: seq<Line>): SurfaceState {
    var packed := s.(styles := PackRows(lines, s.styles).1);
    if packed.styles.overflowed
    then Recorded(packed.(styles := packed.styles.(overflowed := false)), Forced)
    else packed
  }

  /** The answer to a request for `count` lines from id `from` on. */
  function HistoryPage(s: SurfaceState, from: nat, count: nat): History {
    History(if from >= s.screen.historyBase then from else s.screen.historyBase, s.screen.historyBase,
            PackRows(HistoryLines(s.screen, from, count), s.styles).0)
  }

  /** A history page, by line id: where it starts, how long it is, and that each
      row reads as the engine's line of its id, in the engine's styles too
      unless rendering it reset the style table. */
  lemma HistoryPageIs(s: SurfaceState, from: nat, count: nat)
    requires s.screen.IsGrid() && ValidTable(s.styles.table)
    ensures var page, after := HistoryPage(s, from, count), AfterHistory(s, HistoryLines(s.screen, from, count));
            var end := s.screen.FirstVisible() + s.screen.rows;
            && page.fromLine == (if from >= s.screen.historyBase then from else s.screen.historyBase)
            && page.historyBase == s.screen.historyBase
            && |page.rows| == (if page.fromLine >= end then 0 else if count < end - page.fromLine then count else end - page.fromLine)
            && forall k :: 0 <= k < |page.rows| ==>
                 var line := LineWithId(s.screen, page.fromLine + k);
                 && RowReads(page.rows[k], line, |line.cells|)
                 && (after.styles.generation == s.styles.generation ==> RowShows(after.styles.table, page.rows[k], line))
  {
    hide HistoryLines, PackRows, RowReads, RowShows, LineWithId;
    HistoryLinesAre(s.screen, from, count);
    PackRowsRead(HistoryLines(s.screen, from, count), s.styles);
    PackRowsShow(HistoryLines(s.screen, from, count), s.styles);
  }

  // ------------------------------------------------------------ frames

  /** The screen rendered, and rendered again if the first pass overflowed. */
  function Rendered(s: SurfaceState): (seq<Row>, TableState) {
    var (grid, styles) := PackRows(s.screen.lines, s.styles.(overflowed := false));
    if styles.overflowed
    then
      var (again, styles') := PackRows(s.screen.lines, styles.(overflowed := false));
      (again, styles'.(overflowed := false))
    else (grid, styles)
  }

  /** The last frame now says what the screen says. */
  function Remembered(s: SurfaceState): SurfaceState {
    s.(lastCursor := s.screen.cursor, lastModes := s.screen.modes, lastTitle := s.screen.title,
       lastBase := s.screen.historyBase, lastLen := s.screen.historyLen)
  }

  function BuiltSnapshot(s: SurfaceState): (Snapshot, SurfaceState) {
    var (grid, styles) := Rendered(s);
    (Snapshot(s.seqNo, s.screen.cols, s.screen.rows, styles.table, grid, s.screen.cursor, s.screen.modes, s.screen.title,
              s.screen.historyBase, s.screen.historyLen, s.status),
     Remembered(s.(styles := styles)))
  }

  /** The engine renders the last line for an index past the grid. */
  function LineOf(screen: Screen, index: nat): Line
    requires 1 <= screen.rows == |screen.lines|
  {
    screen.lines[if index < screen.rows then index else screen.rows - 1]
  }

  function LinesOf(screen: Screen, indices: seq<nat>): (lines: seq<Line>)
    requires 1 <= screen.rows == |screen.lines|
    ensures |lines| == |indices| && forall k :: 0 <= k < |lines| ==> lines[k] == LineOf(screen, indices[k])
  {
    if indices == [] then []
    else LinesOf(screen, indices[..|indices| - 1]) + [LineOf(screen, indices[|indices| - 1])]
  }

  function DirtyRows(indices: seq<nat>, rows: seq<Row>): (out: seq<DirtyRow>)
    requires |indices| == |rows|
    ensures |out| == |rows| && forall k :: 0 <= k < |out| ==> out[k] == DirtyRow(indices[k], rows[k])
  {
    if rows == [] then []
    else DirtyRows(indices[..|rows| - 1], rows[..|rows| - 1]) + [DirtyRow(indices[|rows| - 1], rows[|rows| - 1])]
  }

  /** A Delta for the cursor in `kind`, or nothing when the table's generation is
      not the cursor's or was left behind while packing. */
  function BuiltDelta(s: SurfaceState, since: nat, kind: EmissionKind): (Option<Delta>, SurfaceState)
    requires kind.DeltaKind? && 1 <= s.screen.rows == |s.screen.lines|
  {
    if s.styles.generation != kind.stylesGeneration then (None, s)
    else
      var indices := kind.dirty.Iter();
      var (rows, styles) := PackRows(LinesOf(s.screen, indices), s.styles);
      PackRowsLength(LinesOf(s.screen, indices), s.styles);
      if styles.overflowed then (None, s.(styles := styles.(overflowed := false)))
      else
        var titled := kind.title || s.screen.title != s.lastTitle;
        (Some(Delta(s.seqNo, since, s.screen.historyBase, s.screen.historyLen, kind.resized,
                    StylesFrom(styles.table, kind.stylesFrom), DirtyRows(indices, rows),
                    s.screen.cursor, s.screen.modes, if titled then Some(s.screen.title) else None)),
         Remembered(s.(styles := styles)))
  }

  lemma {:induction false} PackRowsLength(lines: seq<Line>, t: TableState)
    ensures |PackRows(lines, t).0| == |lines|
  {
    if lines == [] {
    } else {
      PackRowsLength(lines[..|lines| - 1], t);
    }
  }

  /** `client`'s style cursor moved to the end of the table. */
  function Noted(s: SurfaceState, client: ClientId): SurfaceState {
    var p := s.publisher;
    if client in p.subs
    then s.(publisher := p.(subs := p.subs[client := StylesRecorded(p.subs[client], s.styles.generation, |s.styles.table|)]))
    else s
  }

  /** What one emission adds to a flush. */
  datatype Step = Step(state: SurfaceState, frames: seq<ClientFrame>, overflowed: bool)

  function BellsOf(e: Emission): seq<ClientFrame> {
    if e.bell then [ClientFrame(e.client, BellMsg)] else []
  }

  function SnapshotStep(s: SurfaceState, client: ClientId, overflowed: bool): Step {
    var (snap, s') := BuiltSnapshot(s);
    Step(Noted(s', client), [ClientFrame(client, SnapshotMsg(snap))], overflowed)
  }

  function DeltaStep(s: SurfaceState, e: Emission): Step
    requires e.kind.DeltaKind? && 1 <= s.screen.rows == |s.screen.lines|
  {
    var (d, s') := BuiltDelta(s, e.since, e.kind);
    if d.Some? then Step(Noted(s', e.client), [ClientFrame(e.client, DeltaMsg(d.value))], false)
    else SnapshotStep(s', e.client, true)
  }

  /** The frame of one emission, its bell aside. */
  function FrameStep(s: SurfaceState, e: Emission): Step
    requires 1 <= s.screen.rows == |s.screen.lines|
  {
    match e.kind
    case BellOnly => Step(s, [], false)
    case SnapshotKind => SnapshotStep(s, e.client, false)
    case DeltaKind(_, _, _, _, _) => DeltaStep(s, e)
  }

  /** The first `n` emissions turned into frames, in order. */
  function Built(s: SurfaceState, emissions: seq<Emission>, n: nat): (step: Step)
    requires 1 <= s.screen.rows == |s.screen.lines| && n <= |emissions|
    ensures step.state.screen == s.screen
  {
    if n == 0 then Step(s, [], false)
    else
      var front := Built(s, emissions, n - 1);
      var last := FrameStep(front.state, emissions[n - 1]);
      Step(last.state, front.frames + BellsOf(emissions[n - 1]) + last.frames, front.overflowed || last.overflowed)
  }

  /** A due flush, once the publisher has decided on `emissions`. */
  ghost function Committed(s: SurfaceState, now: nat): SurfaceState {
    s.(publisher := FlushedState(s.publisher, now, s.seqNo + 1, s.styles.generation))
  }

  ghost function EmissionsAt(s: SurfaceState, now: nat): seq<Emission> {
    Emissions(s.publisher, now, s.seqNo + 1, s.styles.generation)
  }

  ghost function Flushed(s: SurfaceState, now: nat): (SurfaceState, seq<ClientFrame>)
    requires 1 <= s.screen.rows == |s.screen.lines|
  {
    if !ShouldFlush(s.publisher, now) then (s, [])
    else
      var emissions := EmissionsAt(s, now);
      if emissions == [] then (Committed(s, now), [])
      else
        var built := Built(Committed(s, now).(seqNo := s.seqNo + 1), emissions, |emissions|);
        (if built.overflowed then Recorded(built.state, Forced) else built.state, built.frames)
  }

  /** The transport's last word: a Passive subscription is never sent rows. */
  function Stripped(frame: Frame, mode: AttachMode): Frame {
    if mode == Active then frame
    else match frame
      case SnapshotMsg(snap) => SnapshotMsg(snap.(grid := [], styles := []))
      case DeltaMsg(d) => DeltaMsg(d.(rows := [], newStyles := []))
      case _ => frame
  }

  // ------------------------------------------------------------ the object

  lemma PackOneMore(lines: seq<Line>, n: nat, t: TableState)
    requires n < |lines|
    ensures var (rows, t1) := PackRows(lines[..n], t);
            var (row, t2) := PackedRow(lines[n], t1);
            PackRows(lines[..n + 1], t) == (rows + [row], t2)
  {
    assert lines[..n + 1][..n] == lines[..n];
  }

  /** The engine renders lines one by one through the shared table. */
  method RenderLines(lines: seq<Line>, styles: SurfaceStyleTable) returns (rows: seq<Row>)
    modifies styles
    ensures (rows, styles.State()) == PackRows(lines, old(styles.State()))
  {
    hide PackRows, PackedRow;
    rows := [];
    assert lines[..0] == [];
    assert ([], old(styles.State())) == PackRows([], old(styles.State())) by { PackNothing(old(styles.State())); }
    for n := 0 to |lines|
      invariant (rows, styles.State()) == PackRows(lines[..n], old(styles.State()))
    {
      PackOneMore(lines, n, old(styles.State()));
      var row := PackRow(lines[n], styles);
      rows := rows + [row];
    }
    assert lines[..|lines|] == lines;
  }

  lemma PackNothing(t: TableState)
    ensures PackRows([], t) == ([], t)
  {
  }

  class Surface {
    var screen: Screen
    const styles: SurfaceStyleTable
    const publisher: Publisher
    var seqNo: nat
    var status: Option<ExitStatus>
    var lastCursor: Cursor
    var lastModes: Modes
    var lastTitle: string
    var lastBase: nat
    var lastLen: nat

    ghost predicate Valid()
      reads this
    {
      1 <= screen.rows == |screen.lines|
    }

    ghost function State(): SurfaceState
      reads this, styles, publisher
    {
      SurfaceState(screen, styles.State(), publisher.State(), seqNo, status, lastCursor, lastModes, lastTitle, lastBase, lastLen)
    }

    constructor (screen: Screen, config: PublisherConfig)
      ensures State() == NewSurface(screen, config)
      ensures fresh(styles) && fresh(publisher)
    {
      this.screen := screen;
      styles := new SurfaceStyleTable();
      publisher := new Publisher(config, screen.rows);
      seqNo, status := 1, None;
      lastCursor, lastModes, lastTitle := screen.cursor, screen.modes, screen.title;
      lastBase, lastLen := screen.historyBase, screen.historyLen;
    }

    /** Diffs the screen against the last emitted frame. */
    method SyncDerivedState()
      modifies publisher
      ensures State() == Derived(old(State()))
    {
      publisher.Record(Marks(screen.cursor != lastCursor, screen.modes != lastModes, screen.title != lastTitle, false,
                             screen.historyBase != lastBase || screen.historyLen != lastLen));
    }

    /** The engine has advanced to `next`. */
    method Feed(next: Screen, damage: Damage, titled: bool, bell: bool)
      modifies this, publisher
      ensures State() == AfterFeed(old(State()), next, damage, titled, bell)
    {
      screen := next;
      publisher.Record(Marks(false, false, titled, bell, false));
      if !damage.IsEmpty() {
        publisher.RecordDamage(damage);
      }
      SyncDerivedState();
    }

    /** `next` is what the engine shows if it resizes. */
    method Resize(size: Size, next: Screen)
      modifies this, publisher
      ensures State() == AfterResize(old(State()), size, next)
    {
      var wanted := AtLeastOne(size);
      if wanted == Size(screen.cols, screen.rows) {
        return;
      }
      screen := next;
      publisher.RecordResize(wanted);
      SyncDerivedState();
    }

    method Reset(next: Screen)
      modifies this, styles, publisher
      ensures State() == AfterReset(old(State()), next)
    {
      screen := next;
      styles.Reset();
      var _ := styles.TakeOverflow();
      publisher.ForceSnapshotAll();
      SyncDerivedState();
    }

    method SetExited(exit: ExitStatus) returns (frame: Frame)
      modifies this, publisher
      ensures State() == AfterExit(old(State()), exit)
      ensures frame == ExitedMsg(seqNo, exit)
    {
      status := Some(exit);
      seqNo := seqNo + 1;
      publisher.NoteEventSent(seqNo);
      frame := ExitedMsg(seqNo, exit);
    }

    method FetchHistory(from: nat, count: nat) returns (page: History)
      modifies styles, publisher
      ensures State() == AfterHistory(old(State()), HistoryLines(screen, from, count))
      ensures page == HistoryPage(old(State()), from, count)
    {
      hide PackRows, HistoryLines;
      var rows := RenderLines(HistoryLines(screen, from, count), styles);
      var overflowed := styles.TakeOverflow();
      if overflowed {
        publisher.ForceSnapshotAll();
      }
      var base := screen.historyBase;
      page := History(if from >= base then from else base, base, rows);
    }

    method BuildSnapshot() returns (snap: Snapshot)
      modifies this, styles
      ensures (snap, State()) == BuiltSnapshot(old(State())) && screen == old(screen)
    {
      hide PackRows;
      var _ := styles.TakeOverflow();
      var grid := RenderLines(screen.lines, styles);
      var overflowed := styles.TakeOverflow();
      if overflowed {
        grid := RenderLines(screen.lines, styles);
        var _ := styles.TakeOverflow();
      }
      lastCursor, lastModes, lastTitle := screen.cursor, screen.modes, screen.title;
      lastBase, lastLen := screen.historyBase, screen.historyLen;
      snap := Snapshot(seqNo, screen.cols, screen.rows, styles.table, grid, screen.cursor, screen.modes, screen.title,
                       screen.historyBase, screen.historyLen, status);
    }

    method BuildDelta(since: nat, kind: EmissionKind) returns (d: Option<Delta>)
      requires Valid() && kind.DeltaKind?
      modifies this, styles
      ensures (d, State()) == BuiltDelta(old(State()), since, kind) && screen == old(screen)
    {
      hide PackRows, LinesOf, DirtyRows, StylesFrom;
      if styles.generation != kind.stylesGeneration {
        return None;
      }
      var indices := kind.dirty.Iter();
      var rows := RenderLines(LinesOf(screen, indices), styles);
      PackRowsLength(LinesOf(screen, indices), old(styles.State()));
      var overflowed := styles.TakeOverflow();
      if overflowed {
        return None;
      }
      var newStyles := StylesFrom(styles.table, kind.stylesFrom);
      lastCursor, lastModes := screen.cursor, screen.modes;
      var title := None;
      if kind.title || screen.title != lastTitle {
        lastTitle := screen.title;
        title := Some(screen.title);
      }
      lastBase, lastLen := screen.historyBase, screen.historyLen;
      d := Some(Delta(seqNo, since, screen.historyBase, screen.historyLen, kind.resized, newStyles,
                      DirtyRows(indices, rows), screen.cursor, screen.modes, title));
    }

    method NoteClientStyles(client: ClientId)
      modifies publisher
      ensures State() == Noted(old(State()), client)
    {
      publisher.RecordStylesSent(client, styles.generation, |styles.table|);
    }

    /** The frame of one emission. */
    method BuildFrame(e: Emission) returns (frames: seq<ClientFrame>, overflowed: bool)
      requires Valid()
      modifies this, styles, publisher
      ensures Step(State(), frames, overflowed) == FrameStep(old(State()), e)
      ensures screen == old(screen)
    {
      hide BuiltSnapshot, BuiltDelta, Noted;
      match e.kind
      case BellOnly =>
        return [], false;
      case SnapshotKind =>
        var snap := BuildSnapshot();
        NoteClientStyles(e.client);
        return [ClientFrame(e.client, SnapshotMsg(snap))], false;
      case DeltaKind(_, _, _, _, _) =>
        var d := BuildDelta(e.since, e.kind);
        if d.Some? {
          NoteClientStyles(e.client);
          return [ClientFrame(e.client, DeltaMsg(d.value))], false;
        }
        var snap := BuildSnapshot();
        NoteClientStyles(e.client);
        return [ClientFrame(e.client, SnapshotMsg(snap))], true;
    }

    /** The publisher decides, then the frames are built in its order. */
    method Flush(now: nat) returns (frames: seq<ClientFrame>)
      requires Valid()
      modifies this, styles, publisher
      ensures (State(), frames) == Flushed(old(State()), now)
    {
      hide FrameStep, Emissions, FlushedSubs, ShouldFlush;
      frames := [];
      var due := publisher.IsFlushDue(now);
      if !due {
        return;
      }
      var next := seqNo + 1;
      var emissions := publisher.Flush(now, next, styles.generation);
      assert State() == Committed(old(State()), now);
      if emissions == [] {
        return;
      }
      seqNo := next;
      ghost var start := State();
      assert start == Committed(old(State()), now).(seqNo := old(State()).seqNo + 1);
      var overflowed := false;
      for n := 0 to |emissions|
        invariant Valid()
        invariant Step(State(), frames, overflowed) == Built(start, emissions, n)
      {
        if emissions[n].bell {
          frames := frames + [ClientFrame(emissions[n].client, BellMsg)];
        }
        var more, over := BuildFrame(emissions[n]);
        frames := frames + more;
        overflowed := overflowed || over;
      }
      if overflowed {
        publisher.ForceSnapshotAll();
      }
    }
  }
}
