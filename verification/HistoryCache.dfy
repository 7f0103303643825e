/** The replica's bounded history cache against an unbounded record of every
    line that scrolled off it or was paged in. */
module HistoryCache {
  import opened Wire
  import opened StyleTables
  import opened Replicas

  datatype CacheEvent =
    | TakeDelta(delta: Delta)
    | TakePage(page: History)
    | TakeSnapshot(snap: Snapshot)
    | TakeExit(seqNo: nat, status: ExitStatus)
    | Shrink(keep: nat)

  /** The cached row of line `id`. */
  function Cached(r: ReplicaState, id: nat): Option<Row> {
    InRun(r.cacheBase, r.history, id)
  }

  /** Row `id` of a run of rows whose first has id `base`. */
  function InRun(base: nat, rows: seq<Row>, id: nat): Option<Row> {
    if base <= id < base + |rows| then Some(rows[id - base]) else None
  }

  function ApplyEvent(r: ReplicaState, e: CacheEvent): ReplicaState {
    match e
    case TakeDelta(d) => AfterDelta(r, d)
    case TakePage(page) => AfterPage(r, page)
    case TakeSnapshot(snap) => AfterSnapshot(r, snap)
    case TakeExit(seqNo, status) => AfterExited(r, seqNo, status)
    case Shrink(keep) => TrimmedTo(r, keep)
  }

  /** A Delta that chains, a page that does not raise the trim point, a shrink
      that keeps something or of a run that abuts the grid. */
  ghost predicate Allowed(r: ReplicaState, e: CacheEvent) {
    match e
    case TakeDelta(d) => !IsGap(r, d)
    case TakePage(page) => page.historyBase <= r.historyBase
    case Shrink(keep) => keep >= 1 || r.CacheEnd() == r.FirstVisible()
    case _ => true
  }

  // ------------------------------------------------------------ the unbounded record

  /** A run of rows written into a record, except the ids in `[from, to)`. */
  function Write(log: map<nat, Row>, base: nat, rows: seq<Row>, from: nat, to: nat): map<nat, Row> {
    if rows == [] then log
    else
      var front := Write(log, base, rows[..|rows| - 1], from, to);
      var id := base + |rows| - 1;
      if from <= id < to then front else front[id := rows[|rows| - 1]]
  }

  lemma {:induction false} WriteAt(log: map<nat, Row>, base: nat, rows: seq<Row>, from: nat, to: nat, id: nat)
    ensures var log' := Write(log, base, rows, from, to);
            if base <= id < base + |rows| && !(from <= id < to)
            then id in log' && log'[id] == rows[id - base]
            else (id in log' <==> id in log) && (id in log ==> log'[id] == log[id])
  {
    if rows == [] {
    } else {
      WriteAt(log, base, rows[..|rows| - 1], from, to, id);
    }
  }

  /** The rows a Delta pushes off the top of the grid, from the old first line on. */
  function ScrolledOff(sized: ReplicaState, oldFirst: nat, newFirst: nat): seq<Row> {
    sized.visible[..if newFirst <= oldFirst then 0 else Min(newFirst - oldFirst, |sized.visible|)]
  }

  /** Every line is recorded when it scrolls off; a page records what is not cached. */
  function Recorded(log: map<nat, Row>, r: ReplicaState, e: CacheEvent): map<nat, Row> {
    match e
    case TakeDelta(d) =>
      Write(log, r.FirstVisible(), ScrolledOff(Sized(r, d), r.FirstVisible(), d.historyBase + d.historyLen), 0, 0)
    case TakePage(page) =>
      var start := Max(page.fromLine, r.historyBase);
      Write(log, start, ClippedRows(r, page, start), r.cacheBase, r.CacheEnd())
    case _ => log
  }

  /** One contiguous run, ending at or below the first visible line, within the
      cap and not below the trim point; an empty run sits at the grid. */
  ghost predicate CacheOk(r: ReplicaState) {
    && |r.visible| == r.rows
    && |r.history| <= Min(r.cap, MAX_HISTORY_CAP)
    && r.CacheEnd() <= r.FirstVisible()
    && (r.history != [] ==> r.historyBase <= r.cacheBase)
    && (r.history == [] ==> r.cacheBase == r.FirstVisible())
  }

  /** Every row of a run is the recorded one. */
  ghost predicate RunLogged(base: nat, rows: seq<Row>, log: map<nat, Row>) {
    forall id: nat :: InRun(base, rows, id).Some? ==> id in log && log[id] == InRun(base, rows, id).value
  }

  /** Every cached row is the recorded one. */
  ghost predicate Logged(r: ReplicaState, log: map<nat, Row>) {
    RunLogged(r.cacheBase, r.history, log)
  }

  lemma DroppedLogged(base: nat, rows: seq<Row>, n: nat, log: map<nat, Row>)
    requires RunLogged(base, rows, log) && n <= |rows|
    ensures RunLogged(base + n, rows[n..], log)
  {
    forall id: nat | InRun(base + n, rows[n..], id).Some?
      ensures id in log && log[id] == InRun(base + n, rows[n..], id).value
    {
      assert InRun(base, rows, id) == InRun(base + n, rows[n..], id);
    }
  }

  lemma EvictedLogged(r: ReplicaState, log: map<nat, Row>)
    requires Logged(r, log)
    ensures Logged(Evicted(r), log)
  {
    DroppedLogged(r.cacheBase, r.history, if r.cacheBase < r.historyBase then Min(|r.history|, r.historyBase - r.cacheBase) else 0, log);
  }

  lemma TrimmedLogged(r: ReplicaState, keep: nat, log: map<nat, Row>)
    requires Logged(r, log)
    ensures Logged(TrimmedTo(r, keep), log)
  {
    DroppedLogged(r.cacheBase, r.history, if |r.history| > keep then |r.history| - keep else 0, log);
  }

  // ------------------------------------------------------------ one event

  /** A run extended by rows that are then recorded. */
  lemma ExtendedLogged(base: nat, rows: seq<Row>, more: seq<Row>, log: map<nat, Row>)
    requires RunLogged(base, rows, log)
    ensures RunLogged(base, rows + more, Write(log, base + |rows|, more, 0, 0))
  {
    forall id: nat | InRun(base, rows + more, id).Some?
      ensures var log' := Write(log, base + |rows|, more, 0, 0);
              id in log' && log'[id] == InRun(base, rows + more, id).value
    {
      WriteAt(log, base + |rows|, more, 0, 0, id);
      assert id < base + |rows| ==> InRun(base, rows, id) == InRun(base, rows + more, id);
    }
  }

  /** Scrolling extends a run that abuts the grid, or drops it. */
  lemma ScrolledLogged(r: ReplicaState, oldFirst: nat, newFirst: nat, log: map<nat, Row>)
    requires Logged(r, log) && r.CacheEnd() <= oldFirst && (r.history == [] ==> r.cacheBase == oldFirst)
    ensures Logged(Scrolled(r, oldFirst, newFirst), Write(log, oldFirst, ScrolledOff(r, oldFirst, newFirst), 0, 0))
  {
    hide RunLogged;
    var log' := Write(log, oldFirst, ScrolledOff(r, oldFirst, newFirst), 0, 0);
    EmptyLogged(newFirst, log');
    if oldFirst < newFirst && newFirst - oldFirst <= |r.visible| && !IsStale(r, oldFirst) {
      var more := r.visible[..newFirst - oldFirst];
      ExtendedLogged(r.cacheBase, r.history, more, log);
      TrimmedLogged(r.(history := r.history + more, visible := PadRows(r.visible[newFirst - oldFirst..], r.rows)),
                    Min(r.cap, MAX_HISTORY_CAP), log');
    }
  }

  lemma EmptyLogged(base: nat, log: map<nat, Row>)
    ensures RunLogged(base, [], log)
  {
  }

  lemma ScrolledOk(r: ReplicaState, oldFirst: nat, newFirst: nat)
    requires |r.visible| == r.rows && |r.history| <= Min(r.cap, MAX_HISTORY_CAP) && r.cap >= 1
    requires r.CacheEnd() <= oldFirst && (r.history == [] ==> r.cacheBase == oldFirst)
    ensures var r' := Scrolled(r, oldFirst, newFirst);
            |r'.visible| == r'.rows && |r'.history| <= Min(r'.cap, MAX_HISTORY_CAP) && r'.CacheEnd() <= newFirst
  {
  }

  lemma EvictedOk(r: ReplicaState)
    requires |r.visible| == r.rows && |r.history| <= Min(r.cap, MAX_HISTORY_CAP) && r.CacheEnd() <= r.FirstVisible()
    ensures CacheOk(Evicted(r))
  {
  }

  lemma DeltaLogged(r: ReplicaState, d: Delta, log: map<nat, Row>)
    requires CacheOk(r) && Logged(r, log) && !IsGap(r, d) && r.cap >= 1
    ensures var e := TakeDelta(d);
            CacheOk(ApplyEvent(r, e)) && Logged(ApplyEvent(r, e), Recorded(log, r, e))
  {
    hide SetStyles, FitRows, Scrolled, Write, RunLogged, Evicted;
    var sized, counted := Sized(r, d), Counted(r, d);
    var newFirst := d.historyBase + d.historyLen;
    assert |sized.visible| == sized.rows by { SizedShape(r, d); }
    ScrolledLogged(sized, r.FirstVisible(), newFirst, log);
    ScrolledOk(sized, r.FirstVisible(), newFirst);
    EvictedLogged(counted, Recorded(log, r, TakeDelta(d)));
    EvictedOk(counted);
  }

  lemma SizedShape(r: ReplicaState, d: Delta)
    requires |r.visible| == r.rows
    ensures |Sized(r, d).visible| == Sized(r, d).rows
  {
  }

  /** The row of a line that leaves the grid: what the grid showed, cut to the
      new size if the Delta brings one. */
  function LeavingRow(r: ReplicaState, d: Delta, id: nat): Row
    requires r.FirstVisible() <= id
  {
    var i := id - r.FirstVisible();
    var row := if i < |r.visible| then r.visible[i] else EMPTY_ROW;
    if d.resized.Some? then TruncateRow(row, d.resized.value.cols) else row
  }

  /** The cache survives a move of the first visible line from `from` to `to`
      over a grid `height` lines tall: nothing moved, or lines scrolled up, no
      more than the grid showed, and any cached run ends where the grid began. */
  predicate Survives(r: ReplicaState, from: nat, to: nat, height: nat) {
    to == from || (from < to <= from + height && (r.history == [] || r.CacheEnd() == from))
  }

  /** What a chaining Delta leaves cached, line by line. If the cache survives, a
      line is cached exactly if it was or has just left the grid, is not below the
      new trim point, and is among the newest cap lines; it reads as it did, or
      as the grid showed it. If the cache does not survive, nothing is cached. */
  lemma DeltaCachedIff(r: ReplicaState, d: Delta, id: nat)
    requires CacheOk(r) && r.cap >= 1 && d.sinceSeq == r.seqNo
    ensures var r', from, to := AfterDelta(r, d), r.FirstVisible(), d.historyBase + d.historyLen;
            var height := if d.resized.Some? then d.resized.value.rows else r.rows;
            var left := from <= id < to;
            Cached(r', id) ==
              if && Survives(r, from, to, height)
                 && (Cached(r, id).Some? || left)
                 && d.historyBase <= id
                 && (to == from || to <= id + Min(r.cap, MAX_HISTORY_CAP))
              then Some(if left then LeavingRow(r, d, id) else Cached(r, id).value)
              else None
  {
    hide SetStyles, WriteRows, Scrolled, Evicted, TruncateRow;
    var sized, from, to := Sized(r, d), r.FirstVisible(), d.historyBase + d.historyLen;
    SizedShape(r, d);
    ScrolledCached(sized, from, to, id);
    EvictedCached(Counted(r, d), id);
    if from <= id < to && Survives(r, from, to, sized.rows) {
      LeavingShown(r, d, id);
    }
  }

  /** What a chaining Delta leaves on the grid in a row it does not name: if the
      cache survives, the line that moved there, blank where there was none; if
      it does not, the row as it was. */
  lemma DeltaGridIs(r: ReplicaState, d: Delta, i: nat)
    requires |r.visible| == r.rows && d.sinceSeq == r.seqNo && d.resized.None? && i < r.rows
    requires forall k :: 0 <= k < |d.rows| ==> d.rows[k].index != i
    ensures var r', from, to := AfterDelta(r, d), r.FirstVisible(), d.historyBase + d.historyLen;
            && |r'.visible| == r.rows
            && r'.visible[i] ==
                 if !Survives(r, from, to, r.rows) then r.visible[i]
                 else if i + (to - from) < r.rows then r.visible[i + (to - from)] else EMPTY_ROW
  {
    hide SetStyles, TruncateRow;
    UnnamedRow(BeforeRows(r, d).visible, r.cols, d.rows, i);
  }

  lemma {:induction false} UnnamedRow(visible: seq<Row>, cols: nat, rows: seq<DirtyRow>, i: nat)
    requires i < |visible| && forall k :: 0 <= k < |rows| ==> rows[k].index != i
    ensures WriteRows(visible, cols, rows)[i] == visible[i]
  {
    hide TruncateRow;
    if rows == [] {
    } else {
      UnnamedRow(visible, cols, rows[..|rows| - 1], i);
    }
  }

  lemma LeavingShown(r: ReplicaState, d: Delta, id: nat)
    requires |r.visible| == r.rows && r.FirstVisible() <= id < r.FirstVisible() + Sized(r, d).rows
    ensures |Sized(r, d).visible| == Sized(r, d).rows
    ensures Sized(r, d).visible[id - r.FirstVisible()] == LeavingRow(r, d, id)
  {
    hide SetStyles, TruncateRow;
  }

  lemma TrimmedCached(r: ReplicaState, id: nat)
    ensures var cap := Min(r.cap, MAX_HISTORY_CAP);
            Cached(Trimmed(r), id) == (if r.CacheEnd() <= id + cap then Cached(r, id) else None)
            && Trimmed(r).CacheEnd() == r.CacheEnd() && |Trimmed(r).history| == Min(|r.history|, cap)
  {
  }

  lemma ScrolledCached(r: ReplicaState, from: nat, to: nat, id: nat)
    requires |r.visible| == r.rows && |r.history| <= Min(r.cap, MAX_HISTORY_CAP) && r.CacheEnd() <= from
    requires r.history == [] ==> r.cacheBase == from
    ensures Cached(Scrolled(r, from, to), id) ==
              if Survives(r, from, to, r.rows) && (Cached(r, id).Some? || from <= id < to)
                 && (to == from || to <= id + Min(r.cap, MAX_HISTORY_CAP))
              then if from <= id < to then Some(r.visible[id - from]) else Cached(r, id)
              else None
  {
    hide Trimmed;
    if Survives(r, from, to, r.rows) && to > from {
      var longer := r.(history := r.history + r.visible[..to - from], visible := PadRows(r.visible[to - from..], r.rows));
      TrimmedCached(longer, id);
    }
  }

  lemma EvictedCached(r: ReplicaState, id: nat)
    ensures Cached(Evicted(r), id) == if r.historyBase <= id then Cached(r, id) else None
  {
  }

  // ------------------------------------------------------------ pages

  /** A page meets the cached run when they overlap or abut. */
  predicate Touches(r: ReplicaState, start: nat, rows: seq<Row>) {
    r.history != [] && r.cacheBase <= start + |rows| && start <= r.CacheEnd()
  }

  /** Page merge, before the cap: a page that meets the run yields exactly the
      union, cached rows winning; any other page replaces the run. */
  lemma MergeIsUnion(r: ReplicaState, start: nat, rows: seq<Row>, id: nat)
    requires rows != []
    ensures Cached(Merged(r, start, rows), id)
              == if Touches(r, start, rows) && Cached(r, id).Some? then Cached(r, id) else InRun(start, rows, id)
  {
  }

  /** A clipped page lies in `[start, first visible line)`. */
  lemma ClippedInside(r: ReplicaState, page: History, start: nat)
    requires page.fromLine <= start
    ensures var rows := ClippedRows(r, page, start);
            |rows| > 0 ==> start + |rows| <= r.FirstVisible()
  {
  }

  lemma MergedOk(r: ReplicaState, start: nat, rows: seq<Row>)
    requires CacheOk(r) && rows != [] && r.historyBase <= start && start + |rows| <= r.FirstVisible()
    ensures var m := Merged(r, start, rows);
            m.historyBase <= m.cacheBase && m.CacheEnd() <= m.FirstVisible() && m.history != [] && Evicted(m) == m
  {
  }

  /** What a page that does not raise the trim point leaves cached: the newest
      `cap` lines of the merge, none at or past the first visible line. */
  lemma PageMerge(r: ReplicaState, page: History, id: nat)
    requires CacheOk(r) && page.historyBase <= r.historyBase && r.cap >= 1
    ensures var start := Max(page.fromLine, r.historyBase);
            var rows := ClippedRows(r, page, start);
            var r' := AfterPage(r, page);
            var merged := if rows == [] then r else Merged(r, start, rows);
            && CacheOk(r')
            && r' == r.(history := r'.history, cacheBase := r'.cacheBase)
            && r'.CacheEnd() == merged.CacheEnd() && |r'.history| == Min(|merged.history|, Min(r.cap, MAX_HISTORY_CAP))
            && Cached(r', id) == (if merged.CacheEnd() <= id + Min(r.cap, MAX_HISTORY_CAP) then Cached(merged, id) else None)
  {
    hide ClippedRows, Merged, Evicted;
    var start := Max(page.fromLine, r.historyBase);
    var rows := ClippedRows(r, page, start);
    assert Based(r, page) == r;
    if rows == [] {
      EvictedSame(r);
    } else {
      ClippedInside(r, page, start);
      MergedOk(r, start, rows);
      MergedFrame(r, start, rows);
      TrimmedCached(Merged(r, start, rows), id);
    }
  }

  lemma EvictedSame(r: ReplicaState)
    requires CacheOk(r)
    ensures Evicted(r) == r
  {
  }

  lemma MergedFrame(r: ReplicaState, start: nat, rows: seq<Row>)
    ensures var m := Merged(r, start, rows); m == r.(history := m.history, cacheBase := m.cacheBase)
  {
  }

  /** What a page that does not raise the trim point leaves cached, line by
      line. Its lines between the trim point and the grid count; if they meet the
      cached run both stay, cached rows winning, else they replace it; of the
      result the newest cap lines remain. A page of no such lines changes nothing. */
  lemma PageCachedIff(r: ReplicaState, page: History, id: nat)
    requires CacheOk(r) && page.historyBase <= r.historyBase && r.cap >= 1
    ensures var start, end := Max(page.fromLine, r.historyBase), Min(page.fromLine + |page.rows|, r.FirstVisible());
            var meets := r.history != [] && r.cacheBase <= end && start <= r.CacheEnd();
            var last := if meets then Max(end, r.CacheEnd()) else end;
            Cached(AfterPage(r, page), id) ==
              if start >= end then Cached(r, id)
              else if last > id + Min(r.cap, MAX_HISTORY_CAP) then None
              else if meets && Cached(r, id).Some? then Cached(r, id)
              else if start <= id < end then Some(TruncateRow(page.rows[id - page.fromLine], r.cols))
              else None
  {
    hide Merged, ClippedRows, AfterPage, TruncateRow;
    var start := Max(page.fromLine, r.historyBase);
    var rows := ClippedRows(r, page, start);
    PageMerge(r, page, id);
    ClippedAre(r, page, start);
    if rows == [] {
      CachedNewest(r, id);
    } else {
      MergeIsUnion(r, start, rows, id);
      MergedEnd(r, start, rows);
    }
  }

  /** A page may raise the trim point, never lower it, and nothing below it stays cached. */
  lemma PageRaises(r: ReplicaState, page: History, id: nat)
    ensures var r' := AfterPage(r, page);
            && r'.historyBase == Max(r.historyBase, page.historyBase)
            && (Cached(r', id).Some? ==> id >= r'.historyBase)
  {
    hide ClippedRows;
    var based := Based(r, page);
    var start := Max(page.fromLine, based.historyBase);
    var rows := ClippedRows(based, page, start);
    if rows == [] {
      EvictedCached(based, id);
    } else {
      EvictedCached(Merged(based, start, rows), id);
      TrimmedCached(Evicted(Merged(based, start, rows)), id);
    }
  }

  lemma CachedNewest(r: ReplicaState, id: nat)
    requires CacheOk(r)
    ensures Cached(r, id).Some? ==> r.CacheEnd() <= id + Min(r.cap, MAX_HISTORY_CAP)
  {
  }

  lemma ClippedAre(r: ReplicaState, page: History, start: nat)
    requires page.fromLine <= start
    ensures var rows, end := ClippedRows(r, page, start), Min(page.fromLine + |page.rows|, r.FirstVisible());
            && |rows| == (if start < end then end - start else 0)
            && forall k :: 0 <= k < |rows| ==> rows[k] == TruncateRow(page.rows[start + k - page.fromLine], r.cols)
  {
    hide TruncateRow;
  }

  lemma MergedEnd(r: ReplicaState, start: nat, rows: seq<Row>)
    requires rows != []
    ensures Merged(r, start, rows).CacheEnd() ==
              if Touches(r, start, rows) then Max(start + |rows|, r.CacheEnd()) else start + |rows|
  {
  }

  /** A shrink keeps exactly the newest `keep` cached lines. */
  lemma ShrinkCachedIff(r: ReplicaState, keep: nat, id: nat)
    ensures Cached(TrimmedTo(r, keep), id) == if r.CacheEnd() <= id + keep then Cached(r, id) else None
  {
  }

  lemma PageLogged(r: ReplicaState, page: History, log: map<nat, Row>)
    requires CacheOk(r) && Logged(r, log) && page.historyBase <= r.historyBase && r.cap >= 1
    ensures var e := TakePage(page);
            CacheOk(ApplyEvent(r, e)) && Logged(ApplyEvent(r, e), Recorded(log, r, e))
  {
    hide Merged, ClippedRows, AfterPage, Write;
    var start := Max(page.fromLine, r.historyBase);
    var rows := ClippedRows(r, page, start);
    var r', log' := AfterPage(r, page), Recorded(log, r, TakePage(page));
    PageMerge(r, page, 0);
    forall id: nat | InRun(r'.cacheBase, r'.history, id).Some?
      ensures id in log' && log'[id] == InRun(r'.cacheBase, r'.history, id).value
    {
      PageMerge(r, page, id);
      if rows != [] {
        MergeIsUnion(r, start, rows, id);
      }
      WriteAt(log, start, rows, r.cacheBase, r.CacheEnd(), id);
      assert Cached(r', id).Some?;
      assert Cached(r, id).Some? ==> InRun(r.cacheBase, r.history, id).Some?;
    }
  }

  // ------------------------------------------------------------ the other events

  /** Shrinking the cache keeps it well-formed exactly when something is kept,
      or the run abuts the grid. */
  lemma ShrinkKeepsIff(r: ReplicaState, keep: nat)
    requires CacheOk(r)
    ensures CacheOk(TrimmedTo(r, keep)) <==> keep >= 1 || r.CacheEnd() == r.FirstVisible()
  {
  }

  lemma EventLogged(r: ReplicaState, e: CacheEvent, log: map<nat, Row>)
    requires CacheOk(r) && Logged(r, log) && Allowed(r, e) && r.cap >= 1
    ensures CacheOk(ApplyEvent(r, e)) && Logged(ApplyEvent(r, e), Recorded(log, r, e)) && ApplyEvent(r, e).cap == r.cap
  {
    hide AfterDelta, AfterPage, AfterSnapshot, TrimmedTo, CacheOk, Logged;
    CapKept(r, e);
    match e
    case TakeDelta(d) => DeltaLogged(r, d, log);
    case TakePage(page) => PageLogged(r, page, log);
    case TakeSnapshot(snap) => SnapshotRefines(r, snap, log);
    case TakeExit(seqNo, status) => ExitLogged(r, seqNo, status, log);
    case Shrink(keep) =>
      ShrinkKeepsIff(r, keep);
      TrimmedLogged(r, keep, log);
  }

  lemma SnapshotRefines(r0: ReplicaState, snap: Snapshot, log: map<nat, Row>)
    ensures var r := AfterSnapshot(r0, snap); CacheOk(r) && Logged(r, log) && r.cap == r0.cap
  {
  }

  lemma ExitLogged(r: ReplicaState, seqNo: nat, status: ExitStatus, log: map<nat, Row>)
    requires CacheOk(r) && Logged(r, log)
    ensures CacheOk(AfterExited(r, seqNo, status)) && Logged(AfterExited(r, seqNo, status), log)
  {
  }

  lemma CapKept(r: ReplicaState, e: CacheEvent)
    ensures ApplyEvent(r, e).cap == r.cap
  {
    hide ClippedRows, WriteRows, SetStyles, FitRows;
  }

  // ------------------------------------------------------------ runs

  /** The states of a replica and of the record over a run of events from a Snapshot. */
  ghost predicate IsCacheRun(snap: Snapshot, r0: ReplicaState, events: seq<CacheEvent>, states: seq<ReplicaState>, logs: seq<map<nat, Row>>) {
    && |states| == |logs| == |events| + 1
    && states[0] == AfterSnapshot(r0, snap) && logs[0] == map[]
    && forall k :: 0 <= k < |events| ==>
         && Allowed(states[k], events[k])
         && states[k + 1] == ApplyEvent(states[k], events[k])
         && logs[k + 1] == Recorded(logs[k], states[k], events[k])
  }

  lemma {:induction false} RunRefines(snap: Snapshot, r0: ReplicaState, events: seq<CacheEvent>,
                                     states: seq<ReplicaState>, logs: seq<map<nat, Row>>, k: nat)
    requires IsCacheRun(snap, r0, events, states, logs) && r0.cap >= 1 && k <= |events|
    ensures CacheOk(states[k]) && Logged(states[k], logs[k]) && states[k].cap == r0.cap
  {
    hide Recorded, CacheOk, Logged, ApplyEvent, AfterSnapshot, Allowed;
    if k == 0 {
      SnapshotRefines(r0, snap, map[]);
    } else {
      RunRefines(snap, r0, events, states, logs, k - 1);
      EventLogged(states[k - 1], events[k - 1], logs[k - 1]);
    }
  }

  /** The history cache refines the unbounded record: over any gap-free run of
      Deltas, pages, later Snapshots, exit events and shrinks that keep the cache
      well-formed, from a Snapshot on, every line in the cached range reads as
      the row recorded for its id, and the cache stays one run, within the cap,
      above the trim point, ending at or below the first visible line. */
  lemma CacheRefinesRecord(snap: Snapshot, r0: ReplicaState, events: seq<CacheEvent>,
                           states: seq<ReplicaState>, logs: seq<map<nat, Row>>, k: nat, id: nat)
    requires IsCacheRun(snap, r0, events, states, logs) && r0.cap >= 1 && k <= |events|
    ensures CacheOk(states[k])
    ensures states[k].cacheBase <= id < states[k].CacheEnd() ==>
              id in logs[k] && LineAt(states[k], id) == Some(logs[k][id])
  {
    RunRefines(snap, r0, events, states, logs, k);
    assert states[k].cacheBase <= id < states[k].CacheEnd() ==> InRun(states[k].cacheBase, states[k].history, id).Some?;
  }

  // ------------------------------------------------------------ where the cache breaks

  /** With a zero cap, a page keeps the cache well-formed exactly when nothing
      of it survives clipping or it reaches the grid. */
  lemma ZeroCapPageIff(r: ReplicaState, page: History)
    requires CacheOk(r) && r.cap == 0 && page.historyBase <= r.historyBase
    ensures var start := Max(page.fromLine, r.historyBase);
            var rows := ClippedRows(r, page, start);
            CacheOk(AfterPage(r, page)) <==> rows == [] || start + |rows| == r.FirstVisible()
  {
    hide ClippedRows;
    var start := Max(page.fromLine, r.historyBase);
    ClippedInside(r, page, start);
    assert Based(r, page) == r;
  }

  /** What that costs: after a run short of the grid is shrunk away, the next
      lines to leave the grid are cached under the ids that follow the old run:
      the line that was visible row 0 is read back as line `CacheEnd`. */
  lemma ShrinkMislabels(r: ReplicaState, d: Delta)
    requires CacheOk(r) && r.CacheEnd() < r.FirstVisible()
    requires !IsGap(r, d) && d.resized.None? && d.historyBase <= r.CacheEnd()
    requires r.FirstVisible() < d.historyBase + d.historyLen <= r.FirstVisible() + Min(|r.visible|, Min(r.cap, MAX_HISTORY_CAP))
    ensures LineAt(AfterDelta(TrimmedTo(r, 0), d), r.CacheEnd()) == Some(r.visible[0])
  {
    hide SetStyles, WriteRows, FitRows, Scrolled, Evicted;
    var shrunk := TrimmedTo(r, 0);
    var sized := Sized(shrunk, d);
    assert sized == shrunk.(styles := SetStyles(r.styles, d.newStyles)) && shrunk.history == [];
    EmptyScrolled(sized, r.FirstVisible(), d.historyBase + d.historyLen);
    NothingEvicted(Counted(shrunk, d));
  }

  lemma EmptyScrolled(r: ReplicaState, oldFirst: nat, newFirst: nat)
    requires r.history == [] && oldFirst < newFirst <= oldFirst + Min(|r.visible|, Min(r.cap, MAX_HISTORY_CAP))
    ensures var r' := Scrolled(r, oldFirst, newFirst);
            r'.history == r.visible[..newFirst - oldFirst] && r'.cacheBase == r.cacheBase
  {
  }

  lemma NothingEvicted(r: ReplicaState)
    requires r.history != [] && r.historyBase <= r.cacheBase
    ensures Evicted(r) == r
  {
  }

  /** A run short of the grid does arise: ten lines of history, a page that holds
      only line 2, a shrink to nothing, one line of output. What was line 10
      then reads as line 3, and line 10 as not cached. */
  lemma ShrinkWitness(row: Row, other: Row)
    ensures var shown := AfterSnapshot(NewReplica(100), OneRow(row));
            var paged := AfterPage(shown, History(2, 0, [other]));
            var shrunk := TrimmedTo(paged, 0);
            var after := AfterDelta(shrunk, OneLineUp(other));
            && CacheOk(shown) && CacheOk(paged) && paged.CacheEnd() == 3 && paged.FirstVisible() == 10
            && LineAt(shrunk, 10) == Some(TruncateRow(row, 1))
            && LineAt(after, 3) == Some(TruncateRow(row, 1)) && LineAt(after, 10) == None
  {
    hide WriteRows, TruncateRow, ClippedRows, Merged, AfterPage, AfterDelta, Evicted, SetStyles;
    var shown, page := AfterSnapshot(NewReplica(100), OneRow(row)), History(2, 0, [other]);
    SnapshotRefines(NewReplica(100), OneRow(row), map[]);
    OnePage(shown, other);
    var paged := AfterPage(shown, page);
    var shrunk := TrimmedTo(paged, 0);
    assert shrunk.visible[0] == TruncateRow(row, 1);
    ShrinkMislabels(paged, OneLineUp(other));
    OneUp(shrunk, other);
  }

  /** A one-cell grid below ten lines of history. */
  function OneRow(row: Row): Snapshot {
    Snapshot(1, 1, 1, [DEFAULT_STYLE], [row], Cursor(0, 0, 0, true, false), 0, "", 0, 10, None)
  }

  /** The Delta of one line of output on it. */
  function OneLineUp(row: Row): Delta {
    Delta(2, 1, 0, 11, None, [], [DirtyRow(0, row)], Cursor(0, 0, 0, true, false), 0, None)
  }

  /** A page holding line 2 alone, short of the grid. */
  lemma OnePage(r: ReplicaState, other: Row)
    requires CacheOk(r) && r.history == [] && r.historyBase == 0 && r.historyLen == 10
    ensures var paged := AfterPage(r, History(2, 0, [other]));
            && paged == r.(history := if r.cap == 0 then [] else [TruncateRow(other, r.cols)], cacheBase := if r.cap == 0 then 3 else 2)
            && (r.cap >= 1 ==> CacheOk(paged))
  {
    hide ClippedRows;
    var rows := ClippedRows(r, History(2, 0, [other]), 2);
    OneClipped(r, other);
    var merged := r.(history := rows, cacheBase := 2);
    assert Based(r, History(2, 0, [other])) == r && Merged(r, 2, rows) == merged;
    NothingEvicted(merged);
    OneTrimmed(merged);
  }

  lemma OneClipped(r: ReplicaState, other: Row)
    requires r.FirstVisible() == 10
    ensures ClippedRows(r, History(2, 0, [other]), 2) == [TruncateRow(other, r.cols)]
  {
    hide TruncateRow;
    assert [other][0..] == [other];
  }

  lemma OneTrimmed(r: ReplicaState)
    requires |r.history| == 1
    ensures Trimmed(r) == if r.cap == 0 then r.(history := [], cacheBase := r.cacheBase + 1) else r
  {
  }

  lemma OneUp(r: ReplicaState, row: Row)
    requires r.history == [] && r.cacheBase == 3 && r.FirstVisible() == 10 && r.seqNo == 1 && |r.visible| == r.rows == 1 && r.cap == 100
    ensures LineAt(AfterDelta(r, OneLineUp(row)), 10) == None
  {
    hide TruncateRow, SetStyles, WriteRows;
  }
}
