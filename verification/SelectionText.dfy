/** The text a selection copies, and the selection object itself. */
module SelectionTexts {
  import opened Wire
  import Engine
  import opened Replicas
  import opened Selections

  /** What a cell contributes: nothing for a spacer, its cluster or character otherwise. */
  function CellText(row: Row, col: nat): string {
    var cell := CellAt(row, col);
    if cell.flags.wideSpacer || cell.flags.wideLeadingSpacer then ""
    else
      var g := Grapheme(row, cell);
      if g.Some? then g.value
      else
        var c := CharFromU32(cell.codepoint);
        if c.Some? then [c.value] else ""
  }

  /** The text of the columns `[first, end)`. */
  function RowText(row: Row, first: nat, end: nat): string {
    if end <= first then "" else RowText(row, first, end - 1) + CellText(row, end - 1)
  }

  method RowSegment(row: Row, first: nat, last: nat) returns (out: string)
    requires first <= last
    ensures out == RowText(row, first, last + 1)
  {
    out := "";
    for col := first to last + 1
      invariant out == RowText(row, first, col)
    {
      var cell := CellAt(row, col);
      if cell.flags.wideSpacer {
        continue;
      }
      if cell.flags.wideLeadingSpacer {
        continue;
      }
      var g := Grapheme(row, cell);
      var c := CharFromU32(cell.codepoint);
      if g.Some? {
        out := out + g.value;
      } else if c.Some? {
        out := out + [c.value];
      }
    }
  }

  function TrimSpaces(s: string): string {
    if s != [] && s[|s| - 1] == ' ' then TrimSpaces(s[..|s| - 1]) else s
  }

  /** The text selected on one line: nothing when the line is not cached. */
  function Segment(s: SelectionState, r: ReplicaState, config: SelectionConfig, line: nat): string {
    var on, row := s.ColsOn(line, r.cols), LineAt(r, line);
    if on.None? || row.None? then ""
    else
      var text := RowText(row.value, on.value.first, on.value.last + 1);
      if config.trimTrailingWhitespace then TrimSpaces(text) else text
  }

  /** No line break is copied after `line`: its row wraps, and is selected to
      the right edge of something other than a block. */
  predicate FlowsOn(s: SelectionState, r: ReplicaState, line: nat) {
    && s.mode != BlockMode && Wraps(r, line)
    && s.ColsOn(line, r.cols).Some? && s.ColsOn(line, r.cols).value.last + 1 >= r.cols
  }

  function Break(s: SelectionState, r: ReplicaState, line: nat): string {
    if FlowsOn(s, r, line) then "" else "\n"
  }

  /** The text of the lines `[from, to]`. */
  function TextOf(s: SelectionState, r: ReplicaState, config: SelectionConfig, from: nat, to: nat): string {
    if to < from then ""
    else if to == from then Segment(s, r, config, to)
    else TextOf(s, r, config, from, to - 1) + Break(s, r, to - 1) + Segment(s, r, config, to)
  }

  function Text(s: SelectionState, r: ReplicaState, config: SelectionConfig): string {
    if r.cols == 0 then "" else TextOf(s, r, config, s.Start().line, s.End().line)
  }

  /** The text before `line` is copied. */
  ghost function SoFar(s: SelectionState, r: ReplicaState, config: SelectionConfig, line: nat): string {
    var start := s.Start().line;
    if line <= start then ""
    else TextOf(s, r, config, start, line - 1) + if line <= s.End().line then Break(s, r, line - 1) else ""
  }

  lemma StartsFirst(s: SelectionState)
    ensures s.Start().line <= s.End().line
  {
  }

  // ------------------------------------------------------------ the object

  class Selection {
    var anchor: AbsPoint
    var head: AbsPoint
    var mode: SelectionMode

    function State(): SelectionState
      reads this
    {
      SelectionState(anchor, head, mode)
    }

    constructor (at: AbsPoint, mode: SelectionMode)
      ensures State() == SelectionState(at, at, mode)
    {
      anchor, head := at, at;
      this.mode := mode;
    }

    method ExtendTo(head: AbsPoint)
      modifies this
      ensures State() == old(State()).(head := head)
    {
      this.head := head;
    }

    method Snap(r: ReplicaState, config: SelectionConfig)
      modifies this
      ensures State() == Snapped(old(State()), r, config)
    {
      match mode {
        case WordMode =>
          var a := WordUnder(r, anchor, config);
          var h := WordUnder(r, head, config);
          if AtOrBefore(anchor, head) {
            anchor := anchor.(col := a.first);
            head := head.(col := h.last);
          } else {
            anchor := anchor.(col := a.last);
            head := head.(col := h.first);
          }
        case LineMode =>
          var a := LogicalLineOf(r, anchor.line);
          var h := LogicalLineOf(r, head.line);
          var last := if r.cols == 0 then 0 else r.cols - 1;
          if anchor.line <= head.line {
            anchor, head := AbsPoint(a.first, 0), AbsPoint(h.last, last);
          } else {
            anchor, head := AbsPoint(a.last, last), AbsPoint(h.first, 0);
          }
        case _ =>
      }
    }

    method CopyText(r: ReplicaState, config: SelectionConfig) returns (out: string)
      ensures out == Text(State(), r, config)
    {
      hide Wraps, Segment;
      ghost var s := State();
      StartsFirst(s);
      out := "";
      if r.cols == 0 {
        return;
      }
      var start, end := State().Start(), State().End();
      var line := start.line;
      while line <= end.line
        invariant start.line <= line <= end.line + 1
        invariant out == SoFar(s, r, config, line)
      {
        var segment := CopyLine(r, config, line);
        out := out + segment;
        if line < end.line {
          var on := State().ColsOn(line, r.cols).value;
          var softWrapped := mode != BlockMode && Wraps(r, line) && on.last + 1 >= r.cols;
          if !softWrapped {
            out := out + "\n";
          }
        }
        line := line + 1;
      }
    }

    /** One line of the copy; a line that is not cached gives nothing. */
    method CopyLine(r: ReplicaState, config: SelectionConfig, line: nat) returns (segment: string)
      requires r.cols > 0 && State().Start().line <= line <= State().End().line
      ensures segment == Segment(State(), r, config, line)
    {
      var on := State().ColsOn(line, r.cols).value;
      ColsOnIff(State(), AbsPoint(line, 0), r.cols);
      var row := LineAt(r, line);
      if row.None? {
        return "";
      }
      segment := RowSegment(row.value, on.first, on.last);
      if config.trimTrailingWhitespace {
        segment := TrimSpaces(segment);
      }
    }
  }

  // ------------------------------------------------------------ the structure of the text

  /** Outside a block, a line break is left out exactly where the row wraps. */
  lemma FlowsOnIff(s: SelectionState, r: ReplicaState, line: nat)
    requires s.Start().line <= line < s.End().line && r.cols > 0
    ensures FlowsOn(s, r, line) <==> s.mode != BlockMode && Wraps(r, line)
  {
    hide Wraps;
  }

  /** ... which is where the next line continues the same logical line. */
  lemma FlowsWithinLogicalLine(s: SelectionState, r: ReplicaState, line: nat)
    requires s.Start().line <= line < s.End().line && r.cols > 0 && s.mode != BlockMode && line + 1 < BufferEnd(r)
    ensures FlowsOn(s, r, line) <==> LogicalLine(r, line) == LogicalLine(r, line + 1)
  {
    FlowsOnIff(s, r, line);
    LogicalLineIff(r, line, LogicalLine(r, line));
    LogicalLineIff(r, line, LogicalLine(r, line + 1));
    LogicalLineIff(r, line + 1, LogicalLine(r, line + 1));
    LogicalLineIff(r, line + 1, LogicalLine(r, line));
  }

  /** No selected cell holds a newline. */
  ghost predicate Clear(s: SelectionState, r: ReplicaState) {
    forall line, col :: s.Start().line <= line <= s.End().line && 0 <= col < r.cols && LineAt(r, line).Some? ==>
      '\n' !in CellText(LineAt(r, line).value, col)
  }

  lemma {:induction false} RowTextClear(row: Row, first: nat, end: nat)
    requires forall col :: first <= col < end ==> '\n' !in CellText(row, col)
    ensures '\n' !in RowText(row, first, end)
  {
    hide CellText;
    if end <= first {
    } else {
      RowTextClear(row, first, end - 1);
    }
  }

  lemma {:induction false} TrimSpacesIs(s: string)
    ensures TrimSpaces(s) <= s && (TrimSpaces(s) != [] ==> TrimSpaces(s)[|TrimSpaces(s)| - 1] != ' ')
    ensures forall k :: |TrimSpaces(s)| <= k < |s| ==> s[k] == ' '
  {
    if s != [] && s[|s| - 1] == ' ' {
      TrimSpacesIs(s[..|s| - 1]);
    }
  }

  lemma SegmentClear(s: SelectionState, r: ReplicaState, config: SelectionConfig, line: nat)
    requires Clear(s, r)
    ensures '\n' !in Segment(s, r, config, line)
  {
    hide CellText, LineAt;
    var on, row := s.ColsOn(line, r.cols), LineAt(r, line);
    if on.Some? && row.Some? {
      ColsOnIff(s, AbsPoint(line, 0), r.cols);
      RowTextClear(row.value, on.value.first, on.value.last + 1);
      TrimSpacesIs(RowText(row.value, on.value.first, on.value.last + 1));
    }
  }

  // ------------------------------------------------------------ the selected cells

  /** Copying takes the cells the selection contains; of a selection that starts
      right of the grid also the last column where it starts. */
  predicate Copies(s: SelectionState, p: AbsPoint, cols: nat) {
    || s.Contains(p)
    || (p.col + 1 == cols && s.Start().col >= cols && s.Start().line <= p.line <= s.End().line
        && (s.mode == BlockMode || (s.mode != LineMode && p.line == s.Start().line)))
  }

  /** The text of the copied cells among the first `end` of a line, in order. */
  function PickedText(s: SelectionState, row: Row, line: nat, cols: nat, end: nat): string {
    if end == 0 then ""
    else PickedText(s, row, line, cols, end - 1) + if Copies(s, AbsPoint(line, end - 1), cols) then CellText(row, end - 1) else ""
  }

  /** One line's piece of the copy: its copied cells, trailing spaces dropped if so
      configured; nothing for a line that is not cached. */
  function Piece(s: SelectionState, r: ReplicaState, config: SelectionConfig, line: nat): string {
    var row := LineAt(r, line);
    if row.None? then ""
    else
      var text := PickedText(s, row.value, line, r.cols, r.cols);
      if config.trimTrailingWhitespace then TrimSpaces(text) else text
  }

  lemma {:induction false} PickedIsRow(s: SelectionState, row: Row, line: nat, cols: nat, end: nat)
    requires cols > 0 && end <= cols && s.Start().line <= line <= s.End().line
    ensures var on := s.ColsOn(line, cols).value;
            PickedText(s, row, line, cols, end) == RowText(row, on.first, if end <= on.last then end else on.last + 1)
  {
    hide CellText;
    if end == 0 {
    } else {
      PickedIsRow(s, row, line, cols, end - 1);
      ColsOnIff(s, AbsPoint(line, end - 1), cols);
    }
  }

  /** What one line contributes is exactly the text of its copied cells. */
  lemma SegmentIsPiece(s: SelectionState, r: ReplicaState, config: SelectionConfig, line: nat)
    requires r.cols > 0 && s.Start().line <= line <= s.End().line
    ensures Segment(s, r, config, line) == Piece(s, r, config, line)
  {
    hide LineAt, RowText, PickedText;
    var row := LineAt(r, line);
    if row.Some? {
      ColsOnIff(s, AbsPoint(line, 0), r.cols);
      PickedIsRow(s, row.value, line, r.cols, r.cols);
    }
  }

  /** For end points inside the grid those are the cells the selection contains. */
  lemma CopiesWhatItContains(s: SelectionState, p: AbsPoint, cols: nat)
    requires s.anchor.col < cols && s.head.col < cols
    ensures Copies(s, p, cols) <==> s.Contains(p)
  {
  }

  /** The copied lines: consecutive pieces that flow into each other, joined. */
  function Groups(s: SelectionState, r: ReplicaState, config: SelectionConfig, from: nat, to: nat): seq<string> {
    if to <= from then [Piece(s, r, config, from)]
    else
      var before := Groups(s, r, config, from, to - 1);
      if before != [] && FlowsOn(s, r, to - 1) then before[..|before| - 1] + [before[|before| - 1] + Piece(s, r, config, to)]
      else before + [Piece(s, r, config, to)]
  }

  /** Splits at newlines; always at least one piece. */
  function Split(text: string): seq<string> {
    if text == [] then [""]
    else
      var before, c := Split(text[..|text| - 1]), text[|text| - 1];
      if c == '\n' then before + [""]
      else if before == [] then [[c]]
      else before[..|before| - 1] + [before[|before| - 1] + [c]]
  }

  /** Text without a newline extends the last piece. */
  lemma {:induction false} SplitPlain(text: string, more: string)
    requires '\n' !in more
    ensures var before := Split(text);
            before != [] && Split(text + more) == before[..|before| - 1] + [before[|before| - 1] + more]
  {
    var before := Split(text);
    SplitSome(text);
    if more == [] {
      assert text + more == text && before[|before| - 1] + more == before[|before| - 1];
    } else {
      var n := |more| - 1;
      SplitPlain(text, more[..n]);
      assert (text + more)[..|text + more| - 1] == text + more[..n];
      assert before[|before| - 1] + more[..n] + [more[n]] == before[|before| - 1] + more;
    }
  }

  lemma SplitNothing()
    ensures Split("") == [""]
  {
  }

  lemma {:induction false} SplitSome(text: string)
    ensures Split(text) != []
  {
    if text == [] {
    } else {
      SplitSome(text[..|text| - 1]);
    }
  }

  /** A newline and plain text make one more piece. */
  lemma SplitBreak(text: string, more: string)
    requires '\n' !in more
    ensures Split(text + "\n" + more) == Split(text) + [more]
  {
    assert (text + "\n")[..|text + "\n"| - 1] == text;
    SplitPlain(text + "\n", more);
    assert "" + more == more;
  }

  lemma {:induction false} TextSplits(s: SelectionState, r: ReplicaState, config: SelectionConfig, from: nat, to: nat)
    requires Clear(s, r) && r.cols > 0 && s.Start().line <= from <= to <= s.End().line
    ensures Groups(s, r, config, from, to) != [] && Split(TextOf(s, r, config, from, to)) == Groups(s, r, config, from, to)
  {
    hide FlowsOn, Segment, Piece, Clear, Split;
    SegmentClear(s, r, config, to);
    SegmentIsPiece(s, r, config, to);
    SplitNothing();
    if to == from {
      SplitPlain("", Segment(s, r, config, to));
      assert "" + Segment(s, r, config, to) == Segment(s, r, config, to);
    } else {
      TextSplits(s, r, config, from, to - 1);
      var before := TextOf(s, r, config, from, to - 1);
      if FlowsOn(s, r, to - 1) {
        SplitPlain(before, Segment(s, r, config, to));
        assert before + "" == before;
      } else {
        SplitBreak(before, Segment(s, r, config, to));
      }
    }
  }

  /** The copied text, split at its newlines, is exactly the text of the selected
      cells, line by line in order, each line's trailing spaces dropped if so
      configured, run together wherever a row flows into the next. */
  lemma TextStructure(s: SelectionState, r: ReplicaState, config: SelectionConfig)
    requires Clear(s, r) && r.cols > 0
    ensures Split(Text(s, r, config)) == Groups(s, r, config, s.Start().line, s.End().line)
  {
    hide TextOf, Groups, Split;
    StartsFirst(s);
    TextSplits(s, r, config, s.Start().line, s.End().line);
  }

  /** Pieces in order, a newline between two unless the row wraps into the next;
      a block always breaks. */
  function AllPieces(s: SelectionState, r: ReplicaState, config: SelectionConfig, from: nat, to: nat): string {
    if to <= from then Piece(s, r, config, from)
    else
      AllPieces(s, r, config, from, to - 1)
      + (if s.mode != BlockMode && Wraps(r, to - 1) then "" else "\n") + Piece(s, r, config, to)
  }

  /** The copied text, newlines in cells or not, is those pieces and breaks. */
  lemma TextIsPieces(s: SelectionState, r: ReplicaState, config: SelectionConfig)
    requires r.cols > 0
    ensures Text(s, r, config) == AllPieces(s, r, config, s.Start().line, s.End().line)
  {
    StartsFirst(s);
    LinesArePieces(s, r, config, s.Start().line, s.End().line);
  }

  lemma {:induction false} LinesArePieces(s: SelectionState, r: ReplicaState, config: SelectionConfig, from: nat, to: nat)
    requires r.cols > 0 && s.Start().line <= from <= to <= s.End().line
    ensures TextOf(s, r, config, from, to) == AllPieces(s, r, config, from, to)
  {
    hide FlowsOn, Segment, Piece, Wraps;
    SegmentIsPiece(s, r, config, to);
    if to == from {
    } else {
      FlowsOnIff(s, r, to - 1);
      LinesArePieces(s, r, config, from, to - 1);
    }
  }

  /** How many of the boundaries in `[from, to)` break the text. */
  function Breaks(s: SelectionState, r: ReplicaState, from: nat, to: nat): nat {
    if to <= from then 0 else Breaks(s, r, from, to - 1) + if FlowsOn(s, r, to - 1) then 0 else 1
  }

  lemma CountConcat(a: string, b: string, c: string)
    requires '\n' !in c
    ensures multiset(a + b + c)['\n'] == multiset(a)['\n'] + multiset(b)['\n']
  {
    assert multiset(a + b + c) == multiset(a + b) + multiset(c);
  }

  lemma BreakCount(s: SelectionState, r: ReplicaState, line: nat)
    ensures multiset(Break(s, r, line))['\n'] == if FlowsOn(s, r, line) then 0 else 1
  {
    hide FlowsOn;
  }

  lemma {:induction false} NewlinesAreBreaks(s: SelectionState, r: ReplicaState, config: SelectionConfig, from: nat, to: nat)
    requires Clear(s, r) && from <= to
    ensures multiset(TextOf(s, r, config, from, to))['\n'] == Breaks(s, r, from, to)
  {
    hide FlowsOn, Segment, Clear, Break;
    SegmentClear(s, r, config, to);
    if to <= from {
    } else {
      var before := TextOf(s, r, config, from, to - 1);
      NewlinesAreBreaks(s, r, config, from, to - 1);
      BreakCount(s, r, to - 1);
      CountConcat(before, Break(s, r, to - 1), Segment(s, r, config, to));
    }
  }

  /** One newline for each selected line boundary that is not a soft wrap. */
  lemma TextNewlines(s: SelectionState, r: ReplicaState, config: SelectionConfig)
    requires Clear(s, r) && r.cols > 0
    ensures multiset(Text(s, r, config))['\n'] == Breaks(s, r, s.Start().line, s.End().line)
  {
    StartsFirst(s);
    NewlinesAreBreaks(s, r, config, s.Start().line, s.End().line);
  }

  lemma {:induction false} NoBreaks(s: SelectionState, r: ReplicaState, from: nat, to: nat)
    requires forall k :: from <= k < to ==> FlowsOn(s, r, k)
    ensures Breaks(s, r, from, to) == 0
  {
    if to <= from {
    } else {
      NoBreaks(s, r, from, to - 1);
    }
  }

  /** A snapped selection of one logical line, dragged either way, copies no newline. */
  lemma SnappedLineHasNoNewline(dragged: SelectionState, r: ReplicaState, config: SelectionConfig)
    requires dragged.mode == LineMode && LogicalLine(r, dragged.anchor.line) == LogicalLine(r, dragged.head.line)
    ensures var s := Snapped(dragged, r, config);
            Clear(s, r) ==> '\n' !in Text(s, r, config)
  {
    hide Wraps, FlowsOn;
    var s := Snapped(dragged, r, config);
    var group := LogicalLine(r, dragged.anchor.line);
    GroupStartRun(r, dragged.anchor.line);
    GroupEndRun(r, dragged.anchor.line);
    GroupStartRun(r, dragged.head.line);
    GroupEndRun(r, dragged.head.line);
    if Clear(s, r) && r.cols > 0 {
      forall k | group.first <= k < group.last
        ensures FlowsOn(s, r, k)
      {
        FlowsOnIff(s, r, k);
      }
      NoBreaks(s, r, group.first, group.last);
      TextNewlines(s, r, config);
    }
  }

  // ------------------------------------------------------------ end to end

  /** What the engine displays in the columns `[first, end)`: each character with
      its zero-width followers, nothing for the halves that only fill space. */
  function DisplayedText(line: Engine.Line, first: nat, end: nat): string
    requires end <= |line.cells|
  {
    if end <= first then ""
    else
      var v := line.cells[end - 1];
      DisplayedText(line, first, end - 1) + if v.wideSpacer || v.leadingSpacer then "" else [v.base] + v.zeroWidth
  }

  lemma CellIsDisplayed(row: Row, col: nat, v: Engine.VtCell)
    requires Engine.CellReads(row.extras, CellAt(row, col), v)
    ensures CellText(row, col) == if v.wideSpacer || v.leadingSpacer then "" else [v.base] + v.zeroWidth
  {
  }

  /** Copying from a row that reads as an engine line gives the engine's own
      text: packing, trimming, the wire and unpacking lose no character. */
  lemma {:induction false} CopyIsDisplayed(row: Row, line: Engine.Line, first: nat, end: nat)
    requires Engine.RowReads(row, line, end) && end <= |line.cells|
    ensures RowText(row, first, end) == DisplayedText(line, first, end)
  {
    if end <= first {
    } else {
      hide CellText, Engine.CellReads;
      CopyIsDisplayed(row, line, first, end - 1);
      CellIsDisplayed(row, end - 1, line.cells[end - 1]);
    }
  }

  /** A row that shows a line reads as it. */
  lemma ShownReads(table: seq<Style>, row: Row, line: Engine.Line)
    requires Engine.RowShows(table, row, line)
    ensures Engine.RowReads(row, line, |line.cells|)
  {
    hide Engine.CellReads;
  }
}
