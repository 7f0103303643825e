/** The paging loop that fills the history cache while the user is scrolled
    up: which page to ask for, and where asking stops. */
module Paging {
  import opened Wire
  import opened StyleTables
  import opened Engine
  import opened Surfaces
  import opened Replicas
  import opened HistoryCache

  const MAX_HISTORY_COUNT := 1000
  const U16_MAX := 65535

  /** The page to request, as its first line and its length. */
  datatype Request = Request(from: nat, count: nat)

  function MissingPage(viewportTop: nat, cachedFrom: nat, historyBase: nat, page: nat): Option<Request> {
    if page == 0 || viewportTop >= cachedFrom || cachedFrom <= historyBase then None
    else
      var wantStart := WantStart(viewportTop, historyBase, page);
      var count := Min(if wantStart <= cachedFrom then cachedFrom - wantStart else 0, page);
      if count == 0 then None
      else Some(Request(cachedFrom - count, if count <= U16_MAX then count else U16_MAX))
  }

  /** Half a page above the viewport, or the trim point. */
  function WantStart(viewportTop: nat, historyBase: nat, page: nat): nat {
    Max(if page / 2 <= viewportTop then viewportTop - page / 2 else 0, historyBase)
  }

  /** A client paging through a Surface whose screen stands still. */
  datatype Paged = Paged(r: ReplicaState, s: SurfaceState)

  /** One frame: ask for what is missing, if anything, and merge the answer;
      answering may intern styles on the server. */
  ghost function Round(p: Paged, viewportTop: nat, page: nat): Paged {
    match MissingPage(viewportTop, p.r.cacheBase, p.r.historyBase, page)
    case None => p
    case Some(q) =>
      var count := Min(q.count, MAX_HISTORY_COUNT);
      Paged(AfterPage(p.r, HistoryPage(p.s, q.from, count)), AfterHistory(p.s, HistoryLines(p.s.screen, q.from, count)))
  }

  ghost function Rounds(p: Paged, viewportTop: nat, page: nat, n: nat): Paged {
    if n == 0 then p else Round(Rounds(p, viewportTop, page, n - 1), viewportTop, page)
  }

  /** A replica in step with the Surface whose cache abuts the grid. */
  ghost predicate Abuts(p: Paged) {
    && CacheOk(p.r) && p.r.CacheEnd() == p.r.FirstVisible() && p.r.cap >= 1
    && p.s.screen.IsGrid() && ValidTable(p.s.styles.table)
    && p.r.historyBase == p.s.screen.historyBase && p.r.historyLen == p.s.screen.historyLen
  }

  function Cap(r: ReplicaState): nat { Min(r.cap, MAX_HISTORY_CAP) }

  /** The first line the viewport needs that the Surface still has. */
  function Goal(r: ReplicaState, viewportTop: nat): nat { Max(viewportTop, r.historyBase) }

  /** The lowest line a cache that abuts the grid can hold. */
  function Lowest(r: ReplicaState): nat { if r.FirstVisible() >= Cap(r) then r.FirstVisible() - Cap(r) else 0 }

  /** Where one round moves the start of the cache. */
  function NextStart(r: ReplicaState, viewportTop: nat, page: nat): nat {
    if r.cacheBase <= Goal(r, viewportTop) then r.cacheBase
    else Max(Max(WantStart(viewportTop, r.historyBase, page), if page <= r.cacheBase then r.cacheBase - page else 0), Lowest(r))
  }

  /** Line `id`, one of the screen's, is cached and reads as the engine's line. */
  ghost predicate ReadsLine(row: Row, screen: Screen, id: nat, cols: nat) {
    screen.IsGrid() && screen.historyBase <= id < screen.FirstVisible() && RowReads(row, LineWithId(screen, id), cols)
  }

  /** What paging does to a line: cached rows stay as they are, and new ones read
      as the engine's line of that id. */
  ghost predicate Filled(r: ReplicaState, r': ReplicaState, screen: Screen, id: nat) {
    && (Cached(r, id).Some? ==> Cached(r', id) == Cached(r, id))
    && (Cached(r, id).None? && Cached(r', id).Some? ==> ReadsLine(Cached(r', id).value, screen, id, r.cols))
  }

  /** A request is sent exactly when the cache starts above the viewport's top
      and the trim point. It is for a non-empty page that ends where the cache
      starts, and reaches down until a full page, the trim point or half a page
      above the viewport stops it. */
  lemma RequestShape(r: ReplicaState, viewportTop: nat, page: nat)
    requires 1 <= page <= MAX_HISTORY_COUNT
    ensures var q := MissingPage(viewportTop, r.cacheBase, r.historyBase, page);
            && (q.None? <==> r.cacheBase <= Goal(r, viewportTop))
            && (q.Some? ==>
                  && 1 <= q.value.count <= page && q.value.from + q.value.count == r.cacheBase
                  && r.historyBase <= q.value.from && viewportTop <= q.value.from + page / 2
                  && (q.value.count == page || q.value.from == r.historyBase || q.value.from + page / 2 == viewportTop)
                  && q.value.from == Max(WantStart(viewportTop, r.historyBase, page), if page <= r.cacheBase then r.cacheBase - page else 0))
  {
  }

  lemma RoundStep(p: Paged, viewportTop: nat, page: nat, id: nat)
    requires Abuts(p) && 1 <= page <= MAX_HISTORY_COUNT
    ensures var p' := Round(p, viewportTop, page);
            && Abuts(p') && SameBut(p, p')
            && p'.r.cacheBase == NextStart(p.r, viewportTop, page)
            && Filled(p.r, p'.r, p.s.screen, id)
  {
    hide ClippedRows, Merged, Evicted, MissingPage, AfterPage, HistoryPage, AfterHistory, HistoryLines;
    RequestShape(p.r, viewportTop, page);
    var asked := MissingPage(viewportTop, p.r.cacheBase, p.r.historyBase, page);
    if asked.Some? {
      PageStep(p, asked.value.from, asked.value.count, id);
    }
  }

  /** The cache and the style table aside, nothing moved. */
  ghost predicate SameBut(p: Paged, p': Paged) {
    && p'.r == p.r.(history := p'.r.history, cacheBase := p'.r.cacheBase)
    && p'.s == p.s.(styles := p'.s.styles, publisher := p'.s.publisher)
  }

  /** A page that ends at the cache is merged in front of it, up to the cap. */
  lemma PageStep(p: Paged, from: nat, count: nat, id: nat)
    requires Abuts(p) && 1 <= count <= MAX_HISTORY_COUNT
    requires p.r.historyBase <= from && from + count == p.r.cacheBase
    ensures var p' := Paged(AfterPage(p.r, HistoryPage(p.s, from, count)), AfterHistory(p.s, HistoryLines(p.s.screen, from, count)));
            && Abuts(p') && SameBut(p, p')
            && p'.r.cacheBase == Max(from, Lowest(p.r))
            && Filled(p.r, p'.r, p.s.screen, id)
  {
    hide Merged, Evicted, AfterPage, ClippedRows, HistoryPage, RowReads, RowShows, AfterHistory, HistoryLines, LineWithId, TruncateRow;
    var page := HistoryPage(p.s, from, count);
    HistoryPageIs(p.s, from, count);
    ServerKept(p.s, HistoryLines(p.s.screen, from, count));
    PageMoves(p.r, page, count);
    PageCachedIff(p.r, page, id);
    if from <= id < p.r.cacheBase {
      TruncatedReads(page.rows[id - from], LineWithId(p.s.screen, id), p.r.cols);
    }
  }

  lemma ServerKept(s: SurfaceState, lines: seq<Line>)
    requires ValidTable(s.styles.table)
    ensures var s' := AfterHistory(s, lines);
            ValidTable(s'.styles.table) && s' == s.(styles := s'.styles, publisher := s'.publisher)
  {
    hide PackRows;
    PackRowsShow(lines, s.styles);
  }

  /** Cutting a row to the grid's width does not change how it reads there. */
  lemma TruncatedReads(row: Row, line: Line, cols: nat)
    requires RowReads(row, line, |line.cells|)
    ensures RowReads(TruncateRow(row, cols), line, cols)
  {
    hide CellReads;
    TruncateRowKeeps(row, cols);
  }

  /** Where a full page that ends at the cache leaves the replica. */
  lemma PageMoves(r: ReplicaState, page: History, count: nat)
    requires CacheOk(r) && r.CacheEnd() == r.FirstVisible() && r.cap >= 1 && count >= 1
    requires page.historyBase == r.historyBase <= page.fromLine && page.fromLine + count == r.cacheBase && |page.rows| == count
    ensures var r' := AfterPage(r, page);
            && CacheOk(r') && r' == r.(history := r'.history, cacheBase := r'.cacheBase)
            && r'.CacheEnd() == r.CacheEnd() && r'.cacheBase == Max(page.fromLine, Lowest(r))
  {
    hide Merged, Evicted, AfterPage, ClippedRows;
    PageMerge(r, page, 0);
    ClippedAre(r, page, page.fromLine);
    FrontMerge(r, page.fromLine, ClippedRows(r, page, page.fromLine));
  }

  lemma FrontMerge(r: ReplicaState, from: nat, rows: seq<Row>)
    requires from + |rows| == r.cacheBase && rows != []
    ensures var m := Merged(r, from, rows);
            m.cacheBase == from && m.CacheEnd() == r.CacheEnd() && |m.history| == |rows| + |r.history|
  {
  }

  // ------------------------------------------------------------ the loop

  /** Rounds until the cache start has fallen to `want` at the latest. */
  function Bound(start: nat, want: nat, page: nat): nat
    requires page >= 1
  {
    if start <= want then 0 else (start - want + page - 1) / page
  }

  lemma QuotientIs(a: nat, b: nat, q: nat)
    requires b * q <= a < b * q + b
    ensures a / b == q
  {
    var r := a / b;
    assert a == b * r + a % b;
    assert b * (r - q) == b * r - b * q;
    assert b * (r - q) < b && b * (q - r) < b;
    SmallMultiple(b, r - q);
  }

  lemma SmallMultiple(b: nat, k: int)
    requires b * k < b && b * (-k) < b
    ensures k == 0
  {
    assert k >= 1 ==> b * (k - 1) >= 0;
    assert k <= -1 ==> b * (-k - 1) >= 0;
  }

  lemma BoundFalls(start: nat, want: nat, page: nat)
    requires page >= 1 && start > want
    ensures var next := Max(want, if page <= start then start - page else 0);
            Bound(next, want, page) == Bound(start, want, page) - 1
  {
    var a := start - want - 1;
    var q := a / page;
    assert a == page * q + a % page;
    assert page * (q + 1) == page * q + page;
    QuotientIs(a + page, page, q + 1);
    if start - want <= page {
      QuotientIs(a, page, 0);
    }
  }

  /** Every round keeps the cache abutting the grid, never moves its start up,
      and moves it down exactly when something is missing and there is room. */
  lemma {:induction false} RoundsKeep(p: Paged, viewportTop: nat, page: nat, n: nat, id: nat)
    requires Abuts(p) && 1 <= page <= MAX_HISTORY_COUNT
    ensures var p' := Rounds(p, viewportTop, page, n);
            && Abuts(p') && SameBut(p, p')
            && Filled(p.r, p'.r, p.s.screen, id)
            && Lowest(p.r) <= p'.r.cacheBase <= p.r.cacheBase
  {
    hide Round, NextStart, ReadsLine;
    if n == 0 {
    } else {
      RoundsKeep(p, viewportTop, page, n - 1, id);
      var before := Rounds(p, viewportTop, page, n - 1);
      RoundStep(before, viewportTop, page, id);
      NextStartFalls(before.r, viewportTop, page);
    }
  }

  lemma NextStartFalls(r: ReplicaState, viewportTop: nat, page: nat)
    requires CacheOk(r) && r.CacheEnd() == r.FirstVisible() && page >= 1
    ensures var next := NextStart(r, viewportTop, page);
            && Lowest(r) <= next <= r.cacheBase
            && (next < r.cacheBase <==> r.cacheBase > Goal(r, viewportTop) && |r.history| < Cap(r))
  {
  }

  /** When the viewport fits the cap, as many rounds are enough as the start is
      pages above the wanted one. */
  lemma {:induction false} RoundsReach(p: Paged, viewportTop: nat, page: nat, n: nat)
    requires Abuts(p) && 1 <= page <= MAX_HISTORY_COUNT && Lowest(p.r) <= Goal(p.r, viewportTop)
    requires n >= Bound(p.r.cacheBase, WantStart(viewportTop, p.r.historyBase, page), page)
    ensures Rounds(p, viewportTop, page, n).r.cacheBase <= Goal(p.r, viewportTop)
    decreases n
  {
    hide Round, Bound, CacheOk, Filled;
    var want := WantStart(viewportTop, p.r.historyBase, page);
    if n == 0 || p.r.cacheBase <= Goal(p.r, viewportTop) {
      BoundZero(p.r.cacheBase, want, page);
      RoundsKeep(p, viewportTop, page, n, 0);
    } else {
      var next := Round(p, viewportTop, page);
      RoundStep(p, viewportTop, page, 0);
      RoundsShift(p, viewportTop, page, n - 1);
      BoundFalls(p.r.cacheBase, want, page);
      if next.r.cacheBase <= Goal(p.r, viewportTop) {
        RoundsKeep(next, viewportTop, page, n - 1, 0);
      } else {
        RoundsReach(next, viewportTop, page, n - 1);
      }
    }
  }

  lemma BoundZero(start: nat, want: nat, page: nat)
    requires page >= 1
    ensures Bound(start, want, page) == 0 <==> start <= want
  {
    if start > want {
      BoundFalls(start, want, page);
    }
  }

  lemma {:induction false} RoundsShift(p: Paged, viewportTop: nat, page: nat, n: nat)
    ensures Rounds(p, viewportTop, page, n + 1) == Rounds(Round(p, viewportTop, page), viewportTop, page, n)
  {
    hide Round;
    if n == 0 {
    } else {
      RoundsShift(p, viewportTop, page, n - 1);
    }
  }

  /** Paging stops and covers: with a cache that abuts the grid, asking stops
      exactly when the lines from the viewport's top down fit the cap, and
      then within one round for every page between the cache and the wanted
      start; after that every retained line from the viewport's top down is
      cached, what was cached as it was and the rest reading as the engine's
      lines. Otherwise it never stops. */
  lemma PagingStopsIff(p: Paged, viewportTop: nat, page: nat, n: nat, id: nat)
    requires Abuts(p) && 1 <= page <= MAX_HISTORY_COUNT
    requires n >= Bound(p.r.cacheBase, WantStart(viewportTop, p.r.historyBase, page), page)
    ensures var r' := Rounds(p, viewportTop, page, n).r;
            var asks := MissingPage(viewportTop, r'.cacheBase, r'.historyBase, page);
            && (asks.None? <==> p.r.FirstVisible() <= Goal(p.r, viewportTop) + Cap(p.r))
            && (asks.None? && Goal(p.r, viewportTop) <= id < p.r.FirstVisible() ==>
                  && LineAt(r', id).Some?
                  && if Cached(p.r, id).Some? then LineAt(r', id) == Cached(p.r, id)
                     else ReadsLine(LineAt(r', id).value, p.s.screen, id, p.r.cols))
  {
    hide Rounds, MissingPage, ReadsLine, ValidTable;
    var p' := Rounds(p, viewportTop, page, n);
    RoundsKeep(p, viewportTop, page, n, id);
    RequestShape(p'.r, viewportTop, page);
    if Lowest(p.r) <= Goal(p.r, viewportTop) {
      RoundsReach(p, viewportTop, page, n);
    }
  }

  /** In particular with retained history within the cap: every round that
      asks lowers the start of the cache, and asking stops. */
  lemma PagingTerminates(p: Paged, viewportTop: nat, page: nat)
    requires Abuts(p) && 1 <= page <= MAX_HISTORY_COUNT && p.s.screen.historyLen <= Cap(p.r)
    ensures MissingPage(viewportTop, p.r.cacheBase, p.r.historyBase, page).Some? ==>
              Round(p, viewportTop, page).r.cacheBase < p.r.cacheBase
    ensures var r' := Rounds(p, viewportTop, page, Bound(p.r.cacheBase, WantStart(viewportTop, p.r.historyBase, page), page)).r;
            && MissingPage(viewportTop, r'.cacheBase, r'.historyBase, page).None?
            && forall id :: Goal(p.r, viewportTop) <= id < p.r.FirstVisible() ==> LineAt(r', id).Some?
  {
    hide Rounds, MissingPage, Round, NextStart, ReadsLine, ValidTable;
    var n := Bound(p.r.cacheBase, WantStart(viewportTop, p.r.historyBase, page), page);
    RoundStep(p, viewportTop, page, 0);
    RequestShape(p.r, viewportTop, page);
    NextStartFalls(p.r, viewportTop, page);
    PagingStopsIff(p, viewportTop, page, n, 0);
    forall id | Goal(p.r, viewportTop) <= id < p.r.FirstVisible()
      ensures LineAt(Rounds(p, viewportTop, page, n).r, id).Some?
    {
      PagingStopsIff(p, viewportTop, page, n, id);
    }
  }

  /** The viewport: it starts at the grid when following output, one line older
      for every line scrolled up, and stays at the oldest retained line. */
  lemma ViewportMoves(r: ReplicaState, offset: nat)
    ensures ViewportTop(r, 0) == r.FirstVisible()
    ensures offset < r.historyLen ==> ViewportTop(r, offset + 1) + 1 == ViewportTop(r, offset)
    ensures offset >= r.historyLen ==> ViewportTop(r, offset) == r.historyBase
  {
  }

  /** What the user sees: once asking stops, every line of the viewport reads. */
  lemma ViewportFills(p: Paged, offset: nat, page: nat, line: nat)
    requires Abuts(p) && 1 <= page <= MAX_HISTORY_COUNT && p.s.screen.historyLen <= Cap(p.r)
    requires ViewportTop(p.r, offset) <= line < ViewportTop(p.r, offset) + p.r.rows
    ensures var top := ViewportTop(p.r, offset);
            LineAt(Rounds(p, top, page, Bound(p.r.cacheBase, WantStart(top, p.r.historyBase, page), page)).r, line).Some?
  {
    hide Rounds, ReadsLine, ValidTable;
    var top := ViewportTop(p.r, offset);
    var n := Bound(p.r.cacheBase, WantStart(top, p.r.historyBase, page), page);
    PagingTerminates(p, top, page);
    RoundsKeep(p, top, page, n, line);
  }

  /** What a zero cap costs: after the same page the cache is empty but claims to
      start at line 3, so a viewport at line 5 asks for nothing and shows nothing. */
  lemma ZeroCapWitness(row: Row, other: Row)
    ensures var shown := AfterSnapshot(NewReplica(0), OneRow(row));
            var paged := AfterPage(shown, History(2, 0, [other]));
            && CacheOk(shown) && !CacheOk(paged)
            && MissingPage(5, shown.cacheBase, shown.historyBase, MAX_HISTORY_COUNT) == Some(Request(0, 10))
            && MissingPage(5, paged.cacheBase, paged.historyBase, MAX_HISTORY_COUNT) == None
            && LineAt(paged, 5) == None
  {
    hide AfterPage, TruncateRow;
    var shown := AfterSnapshot(NewReplica(0), OneRow(row));
    SnapshotRefines(NewReplica(0), OneRow(row), map[]);
    OnePage(shown, other);
  }
}
