/** Style interning and the overflow policy (`SurfaceStyleTable`), and the
    table both ends mirror (`StyleTable`: a sequence of styles in index order). */
module StyleTables {
  import opened Wire

  const STYLE_TABLE_CAP := 4096

  datatype TableState = TableState(table: seq<Style>, generation: nat, overflowed: bool)

  ghost predicate Distinct(table: seq<Style>) {
    forall i, j :: 0 <= i < j < |table| ==> table[i] != table[j]
  }

  /** Index 0 is the default style, no style has two indices, the cap holds. */
  ghost predicate ValidTable(table: seq<Style>) {
    1 <= |table| <= STYLE_TABLE_CAP && table[0] == DEFAULT_STYLE && Distinct(table)
  }

  function IndexOf(table: seq<Style>, style: Style): (idx: nat)
    requires style in table
    ensures idx < |table| && table[idx] == style && style !in table[..idx]
  {
    if table[0] == style then 0 else 1 + IndexOf(table[1..], style)
  }

  function ResetTable(t: TableState): TableState {
    TableState([DEFAULT_STYLE], t.generation + 1, true)
  }

  /** The index of `style`, resetting a full table that does not hold it. */
  function Interned(t: TableState, style: Style): (nat, TableState) {
    if style in t.table then (IndexOf(t.table, style), t)
    else if |t.table| < STYLE_TABLE_CAP then (|t.table|, t.(table := t.table + [style]))
    else
      var cleared := ResetTable(t);
      if style == DEFAULT_STYLE then (0, cleared) else (1, cleared.(table := cleared.table + [style]))
  }

  /** The entries from `from` on; a cursor past the end yields nothing. */
  function StylesFrom(table: seq<Style>, from: nat): (news: seq<NewStyle>)
    ensures |news| == if from < |table| then |table| - from else 0
    ensures forall k :: 0 <= k < |news| ==> news[k] == NewStyle(from + k, table[from + k])
  {
    if from >= |table| then [] else seq(|table| - from, k requires 0 <= k < |table| - from => NewStyle(from + k, table[from + k]))
  }

  /** `t` became `t'` by interning: within one generation only by appending. */
  ghost predicate Grows(t: TableState, t': TableState) {
    && ValidTable(t'.table)
    && t.generation <= t'.generation
    && (t'.overflowed <==> t.overflowed || t.generation < t'.generation)
    && (t.generation == t'.generation ==> t.table <= t'.table)
  }

  lemma InternGrows(t: TableState, style: Style)
    requires ValidTable(t.table)
    ensures var (idx, t') := Interned(t, style);
            Grows(t, t') && idx < |t'.table| && t'.table[idx] == style
  {
  }

  /** A table whose styles all come from a set is no larger than the set. */
  lemma {:induction false} DistinctBound(table: seq<Style>, styles: set<Style>)
    requires Distinct(table)
    requires forall s :: s in table ==> s in styles
    ensures |table| <= |styles|
  {
    if table == [] {
    } else {
      var last := table[|table| - 1];
      var rest := table[..|table| - 1];
      assert forall s :: s in rest ==> s in styles - {last};
      DistinctBound(rest, styles - {last});
      assert |styles - {last}| == |styles| - 1;
    }
  }

  ghost predicate Within(table: seq<Style>, styles: set<Style>) {
    forall s :: s in table ==> s in styles
  }

  /** Interning from a set that fits never resets a table already inside it;
      any reset leaves the table inside the set. */
  lemma InternWithin(t: TableState, style: Style, styles: set<Style>)
    requires ValidTable(t.table)
    requires style in styles && DEFAULT_STYLE in styles && |styles| <= STYLE_TABLE_CAP
    ensures var t' := Interned(t, style).1;
            if Within(t.table, styles)
            then t'.generation == t.generation && Within(t'.table, styles)
            else t'.generation == t.generation || (t'.generation == t.generation + 1 && Within(t'.table, styles))
  {
    if Within(t.table, styles) && style !in t.table {
      DistinctBound(t.table + [style], styles);
    }
  }

  /** The client's side: one entry written at its index, growing with defaults. */
  function SetStyle(table: seq<Style>, index: nat, style: Style): seq<Style> {
    if index >= STYLE_TABLE_CAP then table
    else
      var grown := if index < |table| then table else table + seq(index + 1 - |table|, _ => DEFAULT_STYLE);
      grown[index := style]
  }

  function SetStyles(table: seq<Style>, news: seq<NewStyle>): seq<Style> {
    if news == [] then table
    else
      var last := news[|news| - 1];
      SetStyle(SetStyles(table, news[..|news| - 1]), last.index, last.style)
  }

  /** Mirroring: a table holding the first `from` entries, given the rest, holds all. */
  lemma {:induction false} SetStylesCompletes(table: seq<Style>, from: nat, k: nat)
    requires from <= |table| <= STYLE_TABLE_CAP && from + k <= |table|
    ensures SetStyles(table[..from], StylesFrom(table, from)[..k]) == table[..from + k]
  {
    var news := StylesFrom(table, from);
    if k == 0 {
    } else {
      SetStylesCompletes(table, from, k - 1);
      assert news[..k][..k - 1] == news[..k - 1];
      assert table[..from + k] == table[..from + k - 1] + [table[from + k - 1]];
    }
  }

  class SurfaceStyleTable {
    var table: seq<Style>
    var generation: nat
    var overflowed: bool

    ghost function State(): TableState
      reads this
    {
      TableState(table, generation, overflowed)
    }

    constructor ()
      ensures State() == TableState([DEFAULT_STYLE], 0, false)
    {
      table, generation, overflowed := [DEFAULT_STYLE], 0, false;
    }

    method Intern(style: Style) returns (idx: nat)
      modifies this
      ensures (idx, State()) == Interned(old(State()), style)
    {
      if style in table {
        return IndexOf(table, style);
      }
      if |table| >= STYLE_TABLE_CAP {
        Reset();
        if style == DEFAULT_STYLE {
          return 0;
        }
      }
      idx := |table|;
      table := table + [style];
    }

    method Reset()
      modifies this
      ensures State() == ResetTable(old(State()))
    {
      table := [DEFAULT_STYLE];
      generation := generation + 1;
      overflowed := true;
    }

    method TakeOverflow() returns (was: bool)
      modifies this`overflowed
      ensures was == old(overflowed) && !overflowed
    {
      was := overflowed;
      overflowed := false;
    }
  }
}
