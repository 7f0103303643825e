/** Text selection in absolute line coordinates over a replica's grid and cache. */
module Selections {
  import opened Wire
  import Engine
  import opened Replicas

  datatype AbsPoint = AbsPoint(line: nat, col: nat)

  datatype SelectionMode = CharMode | WordMode | LineMode | BlockMode

  /** `isAlphanumeric` stands for Unicode's classification. */
  datatype SelectionConfig = SelectionConfig(isAlphanumeric: char -> bool, wordChars: string, trimTrailingWhitespace: bool) {
    predicate IsWordChar(c: char) { isAlphanumeric(c) || c in wordChars }
  }

  predicate AtOrBefore(p: AbsPoint, q: AbsPoint) { p.line < q.line || (p.line == q.line && p.col <= q.col) }

  /** An inclusive range of columns or of lines. */
  datatype Span = Span(first: nat, last: nat) {
    predicate Has(k: nat) { first <= k <= last }
  }

  datatype SelectionState = SelectionState(anchor: AbsPoint, head: AbsPoint, mode: SelectionMode) {
    /** First and last point, both inclusive; a block orders its columns apart. */
    function Normalized(): (AbsPoint, AbsPoint) {
      if mode == BlockMode then
        (AbsPoint(Min(anchor.line, head.line), Min(anchor.col, head.col)),
         AbsPoint(Max(anchor.line, head.line), Max(anchor.col, head.col)))
      else if AtOrBefore(anchor, head) then (anchor, head)
      else (head, anchor)
    }

    function Start(): AbsPoint { Normalized().0 }

    function End(): AbsPoint { Normalized().1 }

    predicate Contains(point: AbsPoint) {
      && Start().line <= point.line <= End().line
      && match mode
         case BlockMode => Start().col <= point.col <= End().col
         case LineMode => true
         case _ =>
           && (point.line > Start().line || point.col >= Start().col)
           && (point.line < End().line || point.col <= End().col)
    }

    /** The columns selected on `line` of a grid `cols` wide. */
    function ColsOn(line: nat, cols: nat): Option<Span> {
      if line < Start().line || line > End().line || cols == 0 then None
      else
        var last := cols - 1;
        match mode
        case BlockMode => Some(Span(Min(Start().col, last), Min(End().col, last)))
        case LineMode => Some(Span(0, last))
        case _ =>
          Some(Span(Min(if line == Start().line then Start().col else 0, last),
                    Min(if line == End().line then End().col else last, last)))
    }
  }

  /** A point between two others in reading order, whichever comes first. */
  predicate Between(p: AbsPoint, a: AbsPoint, b: AbsPoint) {
    (AtOrBefore(a, p) && AtOrBefore(p, b)) || (AtOrBefore(b, p) && AtOrBefore(p, a))
  }

  /** `k` is between two numbers, whichever is smaller. */
  predicate Inside(k: nat, a: nat, b: nat) { a <= k <= b || b <= k <= a }

  /** What a selection contains: what reads between its ends, the whole of their
      lines and those between, or the rectangle they span. */
  lemma ContainsIff(s: SelectionState, p: AbsPoint)
    ensures s.Contains(p) <==>
              match s.mode
              case BlockMode => Inside(p.line, s.anchor.line, s.head.line) && Inside(p.col, s.anchor.col, s.head.col)
              case LineMode => Inside(p.line, s.anchor.line, s.head.line)
              case _ => Between(p, s.anchor, s.head)
  {
  }

  /** `ColsOn` selects inside the grid what `Contains` does, except that a
      selection that starts right of the grid also gets the last column of
      each line whose own selection starts there. */
  lemma ColsOnIff(s: SelectionState, p: AbsPoint, cols: nat)
    requires p.col < cols
    ensures var on := s.ColsOn(p.line, cols);
            && (on.Some? <==> s.Start().line <= p.line <= s.End().line)
            && (on.Some? ==> on.value.first <= on.value.last < cols)
            && (on.Some? && on.value.Has(p.col) <==>
                  || s.Contains(p)
                  || (on.Some? && p.col == cols - 1 && s.Start().col >= cols
                      && (s.mode == BlockMode || (s.mode != LineMode && p.line == s.Start().line))))
  {
  }

  /** For end points inside the grid the two agree. */
  lemma ColsOnSelects(s: SelectionState, p: AbsPoint, cols: nat)
    requires p.col < cols && s.anchor.col < cols && s.head.col < cols
    ensures s.ColsOn(p.line, cols).Some? && s.ColsOn(p.line, cols).value.Has(p.col) <==> s.Contains(p)
  {
    ColsOnIff(s, p, cols);
  }

  // ------------------------------------------------------------ words

  function CharFromU32(codepoint: nat): Option<char> {
    if codepoint < 0xD800 || 0xE000 <= codepoint < 0x11_0000 then Some(codepoint as char) else None
  }

  /** The grapheme cluster a cell refers to. */
  function Grapheme(row: Row, cell: PackedCell): Option<string> {
    if cell.flags.graphemeExt && cell.codepoint < |row.extras| then Some(row.extras[cell.codepoint]) else None
  }

  /** The first character a cell shows; nothing for the right half of a wide one. */
  function CellChar(row: Row, col: nat): Option<char> {
    var cell := CellAt(row, col);
    if cell.flags.wideSpacer then None
    else if cell.flags.graphemeExt then
      var g := Grapheme(row, cell);
      if g.Some? && g.value != [] then Some(g.value[0]) else None
    else CharFromU32(cell.codepoint)
  }

  /** In a row that reads as an engine line, the character a word is made of is
      the engine's base character; the right half of a wide one has none. */
  lemma CellCharIsBase(row: Row, line: Engine.Line, cols: nat, col: nat)
    requires Engine.RowReads(row, line, cols) && col < cols && col < |line.cells|
    ensures CellChar(row, col) == if line.cells[col].wideSpacer then None else Some(line.cells[col].base)
  {
    assert Engine.CellReads(row.extras, CellAt(row, col), line.cells[col]);
  }

  predicate IsWordCell(row: Row, config: SelectionConfig, col: nat) {
    var c := CellChar(row, col);
    c.Some? && config.IsWordChar(c.value)
  }

  function WordStart(row: Row, config: SelectionConfig, col: nat): nat {
    if col > 0 && IsWordCell(row, config, col - 1) then WordStart(row, config, col - 1) else col
  }

  function WordEnd(row: Row, config: SelectionConfig, cols: nat, col: nat): nat
    decreases cols - col
  {
    if col + 1 < cols && IsWordCell(row, config, col + 1) then WordEnd(row, config, cols, col + 1) else col
  }

  function WordAt(r: ReplicaState, point: AbsPoint, config: SelectionConfig): Span {
    if r.cols == 0 then Span(0, 0)
    else
      var col := Min(point.col, r.cols - 1);
      var row := LineAt(r, point.line);
      if row.None? || !IsWordCell(row.value, config, col) then Span(col, col)
      else Span(WordStart(row.value, config, col), WordEnd(row.value, config, r.cols, col))
  }

  method WordUnder(r: ReplicaState, point: AbsPoint, config: SelectionConfig) returns (word: Span)
    ensures word == WordAt(r, point, config)
  {
    if r.cols == 0 {
      return Span(0, 0);
    }
    var col := Min(point.col, r.cols - 1);
    var line := LineAt(r, point.line);
    if line.None? {
      return Span(col, col);
    }
    var row := line.value;
    if !IsWordCell(row, config, col) {
      return Span(col, col);
    }
    var first, last := col, col;
    while first > 0 && IsWordCell(row, config, first - 1)
      invariant WordStart(row, config, first) == WordStart(row, config, col)
    {
      first := first - 1;
    }
    while last + 1 < r.cols && IsWordCell(row, config, last + 1)
      invariant WordEnd(row, config, r.cols, last) == WordEnd(row, config, r.cols, col)
      decreases r.cols - last
    {
      last := last + 1;
    }
    word := Span(first, last);
  }

  /** A maximal run of word cells within the grid. */
  predicate IsMaximalRun(row: Row, config: SelectionConfig, cols: nat, run: Span) {
    && run.first <= run.last < cols
    && (forall c :: run.first <= c <= run.last ==> IsWordCell(row, config, c))
    && (run.first > 0 ==> !IsWordCell(row, config, run.first - 1))
    && (run.last + 1 < cols ==> !IsWordCell(row, config, run.last + 1))
  }

  lemma {:induction false} WordStartRun(row: Row, config: SelectionConfig, col: nat)
    ensures var first := WordStart(row, config, col);
            && first <= col && (first > 0 ==> !IsWordCell(row, config, first - 1))
            && forall c :: first <= c < col ==> IsWordCell(row, config, c)
  {
    if col > 0 && IsWordCell(row, config, col - 1) {
      WordStartRun(row, config, col - 1);
    }
  }

  lemma {:induction false} WordEndRun(row: Row, config: SelectionConfig, cols: nat, col: nat)
    requires col < cols
    ensures var last := WordEnd(row, config, cols, col);
            && col <= last < cols && (last + 1 < cols ==> !IsWordCell(row, config, last + 1))
            && forall c :: col < c <= last ==> IsWordCell(row, config, c)
    decreases cols - col
  {
    if col + 1 < cols && IsWordCell(row, config, col + 1) {
      WordEndRun(row, config, cols, col + 1);
    }
  }

  /** On a word character `WordAt` is the one maximal run around the column;
      anywhere else it is that column alone. */
  lemma WordAtIff(r: ReplicaState, point: AbsPoint, config: SelectionConfig, run: Span)
    requires r.cols > 0
    ensures var col := Min(point.col, r.cols - 1);
            var row := LineAt(r, point.line);
            if row.Some? && IsWordCell(row.value, config, col)
            then WordAt(r, point, config) == run <==> IsMaximalRun(row.value, config, r.cols, run) && run.Has(col)
            else WordAt(r, point, config) == Span(col, col)
  {
    var col := Min(point.col, r.cols - 1);
    var row := LineAt(r, point.line);
    if row.Some? && IsWordCell(row.value, config, col) {
      WordStartRun(row.value, config, col);
      WordEndRun(row.value, config, r.cols, col);
      var word := WordAt(r, point, config);
      assert IsMaximalRun(row.value, config, r.cols, word);
      if IsMaximalRun(row.value, config, r.cols, run) && run.Has(col) {
        RunsMeet(row.value, config, r.cols, word, run, col);
      }
    }
  }

  lemma RunsMeet(row: Row, config: SelectionConfig, cols: nat, a: Span, b: Span, col: nat)
    requires IsMaximalRun(row, config, cols, a) && IsMaximalRun(row, config, cols, b) && a.Has(col) && b.Has(col)
    ensures a == b
  {
  }

  /** Every column of a word gives the same word. */
  lemma WordStable(r: ReplicaState, point: AbsPoint, config: SelectionConfig, col: nat)
    requires WordAt(r, point, config).Has(col)
    ensures WordAt(r, AbsPoint(point.line, col), config) == WordAt(r, point, config)
  {
    if r.cols > 0 {
      var word := WordAt(r, point, config);
      WordAtIff(r, point, config, word);
      WordAtIff(r, AbsPoint(point.line, col), config, word);
    }
  }

  lemma WordHolds(r: ReplicaState, point: AbsPoint, config: SelectionConfig)
    requires r.cols > 0
    ensures WordAt(r, point, config).Has(Min(point.col, r.cols - 1)) && WordAt(r, point, config).last < r.cols
  {
    WordAtIff(r, point, config, WordAt(r, point, config));
  }

  // ------------------------------------------------------------ logical lines

  /** Line `line` is known to wrap softly into the next one. */
  predicate Wraps(r: ReplicaState, line: nat) {
    LineAt(r, line).Some? && LineAt(r, line).value.wrapped
  }

  function BufferEnd(r: ReplicaState): nat { r.FirstVisible() + r.rows }

  function GroupStart(r: ReplicaState, line: nat): nat {
    if line > 0 && Wraps(r, line - 1) then GroupStart(r, line - 1) else line
  }

  function GroupEnd(r: ReplicaState, line: nat): nat
    decreases BufferEnd(r) - line
  {
    if line + 1 < BufferEnd(r) && Wraps(r, line) then GroupEnd(r, line + 1) else line
  }

  function LogicalLine(r: ReplicaState, line: nat): Span { Span(GroupStart(r, line), GroupEnd(r, line)) }

  method LogicalLineOf(r: ReplicaState, line: nat) returns (group: Span)
    ensures group == LogicalLine(r, line)
  {
    var first, last, end := line, line, r.FirstVisible() + r.rows;
    while first > 0 && Wraps(r, first - 1)
      invariant GroupStart(r, first) == GroupStart(r, line)
    {
      first := first - 1;
    }
    while last + 1 < end && Wraps(r, last)
      invariant GroupEnd(r, last) == GroupEnd(r, line)
      decreases end - last
    {
      last := last + 1;
    }
    group := Span(first, last);
  }

  /** A maximal group of lines each wrapping into the next. */
  predicate IsGroup(r: ReplicaState, group: Span) {
    && group.first <= group.last < BufferEnd(r)
    && (forall k :: group.first <= k < group.last ==> Wraps(r, k))
    && (group.first > 0 ==> !Wraps(r, group.first - 1))
    && (group.last + 1 < BufferEnd(r) ==> !Wraps(r, group.last))
  }

  lemma {:induction false} GroupStartRun(r: ReplicaState, line: nat)
    ensures var first := GroupStart(r, line);
            && first <= line && (first > 0 ==> !Wraps(r, first - 1))
            && forall k :: first <= k < line ==> Wraps(r, k)
  {
    if line > 0 && Wraps(r, line - 1) {
      GroupStartRun(r, line - 1);
    }
  }

  lemma {:induction false} GroupEndRun(r: ReplicaState, line: nat)
    ensures var last := GroupEnd(r, line);
            && line <= last && (line < last ==> last < BufferEnd(r))
            && (last + 1 < BufferEnd(r) ==> !Wraps(r, last))
            && forall k :: line <= k < last ==> Wraps(r, k)
    decreases BufferEnd(r) - line
  {
    if line + 1 < BufferEnd(r) && Wraps(r, line) {
      GroupEndRun(r, line + 1);
    }
  }

  /** In the buffer, `LogicalLine` is the one maximal group around the line. */
  lemma LogicalLineIff(r: ReplicaState, line: nat, group: Span)
    requires line < BufferEnd(r)
    ensures LogicalLine(r, line) == group <==> IsGroup(r, group) && group.Has(line)
  {
    GroupStartRun(r, line);
    GroupEndRun(r, line);
    var own := LogicalLine(r, line);
    assert IsGroup(r, own) && own.Has(line);
    if IsGroup(r, group) && group.Has(line) {
      GroupsMeet(r, own, group, line);
    }
  }

  lemma GroupsMeet(r: ReplicaState, a: Span, b: Span, line: nat)
    requires IsGroup(r, a) && IsGroup(r, b) && a.Has(line) && b.Has(line)
    ensures a == b
  {
  }

  /** Logical lines partition the lines: every member of a logical line gives
      the same range, unless the line asked about is the one just past a
      buffer whose last row claims to wrap. */
  lemma LogicalLinesPartitionIff(r: ReplicaState, line: nat)
    requires |r.visible| == r.rows
    ensures (forall m :: LogicalLine(r, line).Has(m) ==> LogicalLine(r, m) == LogicalLine(r, line))
            <==> !(line == BufferEnd(r) && line > 0 && Wraps(r, line - 1))
  {
    var own := LogicalLine(r, line);
    GroupStartRun(r, line);
    GroupEndRun(r, line);
    if line < BufferEnd(r) {
      LogicalLineIff(r, line, own);
      forall m | own.Has(m)
        ensures LogicalLine(r, m) == own
      {
        LogicalLineIff(r, m, own);
      }
    } else if line > 0 && Wraps(r, line - 1) {
      assert own.Has(line - 1) && line == BufferEnd(r);
      GroupEndRun(r, line - 1);
      assert LogicalLine(r, line - 1).last == line - 1;
    } else {
      assert own == Span(line, line);
    }
  }

  // ------------------------------------------------------------ snapping

  function Snapped(s: SelectionState, r: ReplicaState, config: SelectionConfig): SelectionState {
    match s.mode
    case WordMode =>
      var a, h := WordAt(r, s.anchor, config), WordAt(r, s.head, config);
      if AtOrBefore(s.anchor, s.head) then s.(anchor := s.anchor.(col := a.first), head := s.head.(col := h.last))
      else s.(anchor := s.anchor.(col := a.last), head := s.head.(col := h.first))
    case LineMode =>
      var a, h := LogicalLine(r, s.anchor.line), LogicalLine(r, s.head.line);
      var last := if r.cols == 0 then 0 else r.cols - 1;
      if s.anchor.line <= s.head.line then s.(anchor := AbsPoint(a.first, 0), head := AbsPoint(h.last, last))
      else s.(anchor := AbsPoint(a.last, last), head := AbsPoint(h.first, 0))
    case _ => s
  }

  /** Snapping is idempotent, whichever way the selection was dragged. */
  lemma SnapIdempotent(s: SelectionState, r: ReplicaState, config: SelectionConfig)
    ensures Snapped(Snapped(s, r, config), r, config) == Snapped(s, r, config)
  {
    match s.mode {
      case WordMode => WordSnapIdempotent(s, r, config);
      case LineMode =>
        hide Wraps;
        GroupEnds(r, s.anchor.line);
        GroupEnds(r, s.head.line);
      case _ =>
    }
  }

  lemma GroupEnds(r: ReplicaState, line: nat)
    ensures var g := LogicalLine(r, line);
            g.Has(line) && LogicalLine(r, g.first).first == g.first && LogicalLine(r, g.last).last == g.last
  {
    GroupStartRun(r, line);
    GroupEndRun(r, line);
  }

  lemma WordSnapIdempotent(s: SelectionState, r: ReplicaState, config: SelectionConfig)
    requires s.mode == WordMode
    ensures Snapped(Snapped(s, r, config), r, config) == Snapped(s, r, config)
  {
    if r.cols > 0 {
      hide WordAt;
      var a, h := WordAt(r, s.anchor, config), WordAt(r, s.head, config);
      WordHolds(r, s.anchor, config);
      WordHolds(r, s.head, config);
      WordStable(r, s.anchor, config, a.first);
      WordStable(r, s.anchor, config, a.last);
      WordStable(r, s.head, config, h.first);
      WordStable(r, s.head, config, h.last);
    }
  }

  /** Snapping only widens: every cell that was selected still is. */
  lemma SnapWidens(s: SelectionState, r: ReplicaState, config: SelectionConfig, p: AbsPoint)
    requires p.col < r.cols && s.Contains(p)
    ensures Snapped(s, r, config).Contains(p)
  {
    hide WordAt, GroupStart, GroupEnd;
    match s.mode {
      case WordMode =>
        WordHolds(r, s.anchor, config);
        WordHolds(r, s.head, config);
      case LineMode =>
        GroupEnds(r, s.anchor.line);
        GroupEnds(r, s.head.line);
      case _ =>
    }
  }

  /** The words under two points of a line are one word, if one holds the other point. */
  lemma WordsMeet(r: ReplicaState, p: AbsPoint, q: AbsPoint, config: SelectionConfig)
    requires r.cols > 0 && p.line == q.line
    ensures WordAt(r, p, config).Has(Min(q.col, r.cols - 1)) ==> WordAt(r, p, config) == WordAt(r, q, config)
  {
    hide WordAt;
    var col := Min(q.col, r.cols - 1);
    WordHolds(r, q, config);
    WordStable(r, q, config, col);
    if WordAt(r, p, config).Has(col) {
      WordStable(r, p, config, col);
    }
  }

  lemma {:induction false} EndsMeet(r: ReplicaState, x: nat, y: nat)
    ensures x <= y <= GroupEnd(r, x) ==> GroupEnd(r, y) == GroupEnd(r, x)
    decreases BufferEnd(r) - x
  {
    if x < y && x + 1 < BufferEnd(r) && Wraps(r, x) {
      EndsMeet(r, x + 1, y);
    }
  }

  lemma {:induction false} StartsMeet(r: ReplicaState, x: nat, y: nat)
    ensures GroupStart(r, y) <= x <= y ==> GroupStart(r, x) == GroupStart(r, y)
    decreases y
  {
    if x < y && Wraps(r, y - 1) {
      StartsMeet(r, x, y - 1);
    }
  }

  /** What snapping selects, exactly. By words: what was selected and the words
      under both ends. By lines: the lines from one end's logical line through the
      other's. Otherwise what was selected. */
  lemma SnapSelectsIff(s: SelectionState, r: ReplicaState, config: SelectionConfig, p: AbsPoint)
    requires p.col < r.cols
    ensures Snapped(s, r, config).Contains(p) <==>
              match s.mode
              case WordMode =>
                || s.Contains(p)
                || (p.line == s.anchor.line && WordAt(r, s.anchor, config).Has(p.col))
                || (p.line == s.head.line && WordAt(r, s.head, config).Has(p.col))
              case LineMode =>
                || Inside(p.line, s.anchor.line, s.head.line)
                || LogicalLine(r, s.anchor.line).Has(p.line) || LogicalLine(r, s.head.line).Has(p.line)
              case _ => s.Contains(p)
  {
    hide WordAt, GroupStart, GroupEnd;
    match s.mode {
      case WordMode =>
        WordHolds(r, s.anchor, config);
        WordHolds(r, s.head, config);
        if s.anchor.line == s.head.line {
          WordsMeet(r, s.anchor, s.head, config);
          WordsMeet(r, s.head, s.anchor, config);
        }
      case LineMode =>
        EndsMeet(r, s.anchor.line, s.head.line);
        EndsMeet(r, s.head.line, s.anchor.line);
        StartsMeet(r, s.anchor.line, s.head.line);
        StartsMeet(r, s.head.line, s.anchor.line);
        GroupEnds(r, s.anchor.line);
        GroupEnds(r, s.head.line);
      case _ =>
    }
  }

  /** Which way the selection was dragged does not matter. */
  lemma SnapSymmetric(s: SelectionState, r: ReplicaState, config: SelectionConfig, p: AbsPoint)
    requires p.col < r.cols
    ensures var back := SelectionState(s.head, s.anchor, s.mode);
            Snapped(s, r, config).Contains(p) <==> Snapped(back, r, config).Contains(p)
  {
    hide Snapped, WordAt, LogicalLine;
    var back := SelectionState(s.head, s.anchor, s.mode);
    SnapSelectsIff(s, r, config, p);
    SnapSelectsIff(back, r, config, p);
    ContainsIff(s, p);
    ContainsIff(back, p);
  }
}
