/** Table rows: splitting at unescaped bars, and writing cells so that splitting gives them back. */
module TableCells {
  import opened Options
  import opened Markdown
  import opened MarkdownLines

  /** The loop over the characters of a row. */
  method SplitRow(s: string) returns (cells: seq<string>)
    ensures cells == SplitUnescaped(s)
  {
    hide SplitUnescaped, Prepend;
    var out: seq<string>, cur, k := [], "", 0;
    PrependNothing(SplitUnescaped(s));
    assert s[0..] == s;
    while k < |s|
      invariant 0 <= k <= |s|
      invariant SplitUnescaped(s) == out + Prepend(cur, SplitUnescaped(s[k..]))
    {
      var ch := s[k];
      if ch == '\\' && k + 1 < |s| && s[k + 1] == '|' {
        AtEscapedBar(cur, s, k);
        cur := cur + "|";
        k := k + 1;
      } else if ch == '|' {
        AtBar(cur, s, k);
        ConcatThree(out, [cur], Prepend("", SplitUnescaped(s[k + 1..])));
        out := out + [cur];
        cur := "";
      } else {
        AtOther(cur, s, k);
        cur := cur + [ch];
      }
      k := k + 1;
    }
    cells := out + [cur];
    AtTheEnd(cur, s, k);
  }

  lemma AtEscapedBar(cur: string, s: string, k: nat)
    requires k + 1 < |s| && s[k] == '\\' && s[k + 1] == '|'
    ensures Prepend(cur, SplitUnescaped(s[k..])) == Prepend(cur + "|", SplitUnescaped(s[k + 2..]))
  {
    assert s[k..][2..] == s[k + 2..];
    PrependTwice(cur, "|", SplitUnescaped(s[k + 2..]));
  }

  lemma AtBar(cur: string, s: string, k: nat)
    requires k < |s| && s[k] == '|'
    ensures Prepend(cur, SplitUnescaped(s[k..])) == [cur] + Prepend("", SplitUnescaped(s[k + 1..]))
  {
    assert s[k..][1..] == s[k + 1..];
    PrependCell(cur, SplitUnescaped(s[k + 1..]));
  }

  lemma AtOther(cur: string, s: string, k: nat)
    requires k < |s| && s[k] != '|' && !(s[k] == '\\' && k + 1 < |s| && s[k + 1] == '|')
    ensures Prepend(cur, SplitUnescaped(s[k..])) == Prepend(cur + [s[k]], SplitUnescaped(s[k + 1..]))
  {
    assert s[k..][1..] == s[k + 1..];
    PrependTwice(cur, [s[k]], SplitUnescaped(s[k + 1..]));
  }

  lemma AtTheEnd(cur: string, s: string, k: nat)
    requires k == |s|
    ensures Prepend(cur, SplitUnescaped(s[k..])) == [cur]
  {
    assert s[k..] == "" && cur + "" == cur;
  }

  lemma ConcatThree(a: seq<string>, b: seq<string>, c: seq<string>)
    ensures a + (b + c) == a + b + c
  {
  }

  lemma PrependNothing(cells: seq<string>)
    requires |cells| > 0
    ensures Prepend("", cells) == cells
  {
    assert "" + cells[0] == cells[0];
    assert cells == [cells[0]] + cells[1..];
  }

  lemma PrependTwice(a: string, b: string, cells: seq<string>)
    requires |cells| > 0
    ensures Prepend(a, Prepend(b, cells)) == Prepend(a + b, cells)
  {
    assert a + (b + cells[0]) == (a + b) + cells[0];
  }

  lemma PrependCell(cur: string, rest: seq<string>)
    requires |rest| > 0
    ensures Prepend(cur, [""] + rest) == [cur] + Prepend("", rest)
  {
    assert cur + "" == cur && "" + rest[0] == rest[0];
    assert rest == [rest[0]] + rest[1..];
  }

  /** A cell with its bars escaped. */
  function Escape(cell: string): string {
    if cell == "" then ""
    else (if cell[0] == '|' then "\\|" else [cell[0]]) + Escape(cell[1..])
  }

  function WriteRow(cells: seq<string>): string
    requires |cells| > 0
  {
    if |cells| == 1 then Escape(cells[0]) else Escape(cells[0]) + ("|" + WriteRow(cells[1..]))
  }

  predicate EndsWithBackslash(cell: string) {
    cell != "" && cell[|cell| - 1] == '\\'
  }

  predicate OpensWithBar(s: string) {
    s != "" && s[0] == '|'
  }

  lemma EscapedBar(rest: string)
    ensures SplitUnescaped("\\|" + rest) == Prepend("|", SplitUnescaped(rest))
  {
  }

  lemma PlainChar(x: char, rest: string)
    requires x != '|' && !(x == '\\' && OpensWithBar(rest))
    ensures SplitUnescaped([x] + rest) == Prepend([x], SplitUnescaped(rest))
  {
  }

  lemma EscapeHead(cell: string, rest: string)
    requires cell != ""
    ensures Escape(cell) + rest == (if cell[0] == '|' then "\\|" else [cell[0]]) + (Escape(cell[1..]) + rest)
  {
  }

  /** Escaped text never puts a bare bar after a backslash that was there before. */
  lemma NoBarAfter(cell: string, rest: string)
    requires cell == "" ==> !OpensWithBar(rest)
    ensures !OpensWithBar(Escape(cell) + rest)
  {
  }

  lemma {:induction false} EscapedCell(cell: string, rest: string)
    requires !(EndsWithBackslash(cell) && OpensWithBar(rest))
    ensures SplitUnescaped(Escape(cell) + rest) == Prepend(cell, SplitUnescaped(rest))
  {
    if cell == "" {
      assert Escape(cell) + rest == rest;
      PrependNothing(SplitUnescaped(rest));
    } else {
      hide SplitUnescaped;
      var tail := Escape(cell[1..]) + rest;
      EscapedCell(cell[1..], rest);
      PrependTwice([cell[0]], cell[1..], SplitUnescaped(rest));
      assert [cell[0]] + cell[1..] == cell;
      EscapeHead(cell, rest);
      if cell[0] == '|' {
        EscapedBar(tail);
      } else {
        if cell[0] == '\\' { NoBarAfter(cell[1..], rest); }
        PlainChar(cell[0], tail);
      }
    }
  }

  /** A cell that ends in a backslash swallows the bar after it. */
  lemma SwallowsBar(cell: string, rest: string)
    requires EndsWithBackslash(cell)
    ensures SplitUnescaped(Escape(cell) + ("|" + rest)) == Prepend(cell[..|cell| - 1] + "|", SplitUnescaped(rest))
  {
    hide SplitUnescaped, Escape;
    var body, tail := cell[..|cell| - 1], "\\|" + rest;
    EscapeBackslash(body);
    assert cell == body + "\\";
    assert Escape(cell) + ("|" + rest) == Escape(body) + tail;
    EscapedCell(body, tail);
    EscapedBar(rest);
    PrependTwice(body, "|", SplitUnescaped(rest));
  }

  lemma EscapeBackslash(body: string)
    ensures Escape(body + "\\") == Escape(body) + "\\"
  {
    EscapeConcat(body, "\\");
    assert "\\"[1..] == "";
  }

  lemma {:induction false} EscapeConcat(a: string, b: string)
    ensures Escape(a + b) == Escape(a) + Escape(b)
  {
    if a == "" {
      assert a + b == b;
    } else {
      assert (a + b)[1..] == a[1..] + b;
      EscapeConcat(a[1..], b);
    }
  }

  /** Cells before the last that end in a backslash. */
  function Swallowers(cells: seq<string>): nat
    requires |cells| > 0
  {
    if |cells| == 1 then 0 else (if EndsWithBackslash(cells[0]) then 1 else 0) + Swallowers(cells[1..])
  }

  lemma {:induction false} WrittenRow(cells: seq<string>)
    requires |cells| > 0
    ensures |SplitUnescaped(WriteRow(cells))| == |cells| - Swallowers(cells)
    ensures Swallowers(cells) == 0 ==> SplitUnescaped(WriteRow(cells)) == cells
  {
    if |cells| == 1 {
      assert Escape(cells[0]) + "" == Escape(cells[0]) && cells[0] + "" == cells[0];
      EscapedCell(cells[0], "");
    } else {
      var rest := WriteRow(cells[1..]);
      WrittenRow(cells[1..]);
      if EndsWithBackslash(cells[0]) {
        SwallowsBar(cells[0], rest);
      } else {
        EscapedCell(cells[0], "|" + rest);
        assert ("|" + rest)[1..] == rest;
        assert cells[0] + "" == cells[0];
        assert Prepend(cells[0], [""] + SplitUnescaped(rest)) == [cells[0]] + SplitUnescaped(rest);
      }
    }
  }

  /** Splitting gives back the cells that were written exactly when none but the last ends in a backslash. */
  lemma RoundTripIff(cells: seq<string>)
    requires |cells| > 0
    ensures SplitUnescaped(WriteRow(cells)) == cells <==>
      forall k :: 0 <= k < |cells| - 1 ==> !EndsWithBackslash(cells[k])
  {
    WrittenRow(cells);
    SwallowersCount(cells);
  }

  lemma {:induction false} SwallowersCount(cells: seq<string>)
    requires |cells| > 0
    ensures Swallowers(cells) == 0 <==> forall k :: 0 <= k < |cells| - 1 ==> !EndsWithBackslash(cells[k])
  {
    if |cells| > 1 {
      SwallowersCount(cells[1..]);
      var rest := cells[1..];
      assert forall k :: 0 < k < |cells| - 1 ==> cells[k] == rest[k - 1];
      assert (forall k :: 0 <= k < |rest| - 1 ==> !EndsWithBackslash(rest[k]))
        <==> (forall k :: 0 < k < |cells| - 1 ==> !EndsWithBackslash(cells[k])) by {
        assert forall k :: 0 <= k < |rest| - 1 ==> rest[k] == cells[k + 1];
      }
    }
  }

  // ---- the lines of a table ----

  /** A line is a row when, blanks aside, it starts or ends with a bar and has another bar inside. */
  lemma RowIff(a: string, t: string, b: string)
    requires Blanks(a) && Blanks(b) && (t != "" ==> !IsWs(t[0]) && !IsWs(t[|t| - 1]))
    ensures IsTableRow(a + t + b) <==>
      t != "" && (t[0] == '|' || t[|t| - 1] == '|') && exists k :: 0 < k < |t| - 1 && t[k] == '|'
  {
    TrimmedIs(a, t, b);
    hide Trimmed, SplitUnescaped;
    if t != "" && (t[0] == '|' || t[|t| - 1] == '|') {
      var t1 := if "|" <= t then t[1..] else t;
      var inner := if t1 != "" && t1[|t1| - 1] == '|' then t1[..|t1| - 1] else t1;
      var shift := |t| - |t1|;
      assert forall i :: 0 <= i < |inner| ==> inner[i] == t1[i] == t[i + shift];
      if k :| 0 <= k < |inner| && inner[k] == '|' { assert t[k + shift] == '|'; }
      if k :| 0 < k < |t| - 1 && t[k] == '|' { assert inner[k - shift] == '|'; }
    }
  }

  function Bar(there: bool): string {
    if there then "|" else ""
  }

  lemma BetweenBars(l: string, open: bool, row: string, close: bool)
    requires Trimmed(l) == Bar(open) + row + Bar(close) && (open || close) && '|' in row
    requires (!open ==> row[0] != '|') && (!close ==> row[|row| - 1] != '|')
    ensures TableCells(l) == Some(CellsOf(row))
  {
    hide Trimmed, SplitUnescaped;
    var t := Trimmed(l);
    var t1 := if "|" <= t then t[1..] else t;
    assert open ==> t[0] == '|';
    assert t1 == row + Bar(close);
    assert (if t1 != "" && t1[|t1| - 1] == '|' then t1[..|t1| - 1] else t1) == row;
  }

  function CellsOf(row: string): seq<string> {
    var cells := SplitUnescaped(row);
    seq(|cells|, k requires 0 <= k < |cells| => Trimmed(cells[k]))
  }

  /** Neither blank nor bar. */
  predicate Solid(c: char) {
    !IsWs(c) && c != '|'
  }

  lemma {:induction false} LastOfRow(cells: seq<string>)
    requires |cells| > 0 && cells[|cells| - 1] != "" && Solid(cells[|cells| - 1][|cells[|cells| - 1]| - 1])
    ensures var row := WriteRow(cells); row != "" && Solid(row[|row| - 1])
  {
    hide Solid;
    if |cells| == 1 {
      LastOfCell(cells[0]);
    } else {
      LastOfRow(cells[1..]);
    }
  }

  lemma {:induction false} LastOfCell(cell: string)
    requires cell != "" && Solid(cell[|cell| - 1])
    ensures Escape(cell) != "" && Escape(cell)[|Escape(cell)| - 1] == cell[|cell| - 1]
  {
    if |cell| > 1 { LastOfCell(cell[1..]); }
  }

  /**
   * A row of two or more cells with a bar before or after it, or both, is read back as its cells, trimmed, when none
   * but the last ends in a backslash, and an end without a bar is neither blank nor bar.
   */
  lemma RowIsRead(a: string, open: bool, cells: seq<string>, close: bool, b: string)
    requires Blanks(a) && Blanks(b) && |cells| >= 2 && (open || close)
    requires forall k :: 0 <= k < |cells| - 1 ==> !EndsWithBackslash(cells[k])
    requires open || (cells[0] != "" && Solid(cells[0][0]))
    requires close || (cells[|cells| - 1] != "" && Solid(cells[|cells| - 1][|cells[|cells| - 1]| - 1]))
    ensures TableCells(a + (Bar(open) + WriteRow(cells) + Bar(close)) + b) ==
      Some(seq(|cells|, k requires 0 <= k < |cells| => Trimmed(cells[k])))
  {
    var row := WriteRow(cells);
    var t := Bar(open) + row + Bar(close);
    RoundTripIff(cells);
    assert row[|Escape(cells[0])|] == '|';
    if !open { assert row[0] == cells[0][0]; }
    if !close { LastOfRow(cells); }
    hide SplitUnescaped, Trimmed, TableCells, WriteRow, EndsWithBackslash;
    assert t[0] == if open then '|' else row[0];
    assert t[|t| - 1] == if close then '|' else row[|row| - 1];
    TrimmedIs(a, t, b);
    BetweenBars(a + t + b, open, row, close);
  }

  // ---- the rows of a table ----

  predicate IsDashes(cell: string) {
    var a := if cell != "" && cell[0] == ':' then cell[1..] else cell;
    var b := if a != "" && a[|a| - 1] == ':' then a[..|a| - 1] else a;
    |b| >= 2 && forall c :: c in b ==> c == '-'
  }

  predicate IsSeparator(cells: seq<string>) {
    forall c :: c in cells ==> IsDashes(c)
  }

  function NotSeparators(rows: seq<seq<string>>): seq<seq<string>> {
    if rows == [] then []
    else (if IsSeparator(rows[0]) then [] else [rows[0]]) + NotSeparators(rows[1..])
  }

  datatype TableView = TableView(header: Option<seq<string>>, body: seq<seq<string>>)

  /** The table shown for a run of rows; None when there is nothing to show. */
  function ParseTable(rows: seq<seq<string>>): Option<TableView> {
    var view :=
      if |rows| >= 2 && IsSeparator(rows[1]) then TableView(Some(rows[0]), NotSeparators(rows[2..]))
      else TableView(None, rows);
    if view.header.None? && view.body == [] then None else Some(view)
  }

  function RowsShown(view: TableView): seq<seq<string>> {
    (if view.header.Some? then [view.header.value] else []) + view.body
  }

  lemma {:induction false} NotSeparatorsTwice(rows: seq<seq<string>>)
    ensures NotSeparators(NotSeparators(rows)) == NotSeparators(rows)
  {
    if rows != [] {
      NotSeparatorsTwice(rows[1..]);
      var rest := NotSeparators(rows[1..]);
      assert ([rows[0]] + rest)[1..] == rest && [] + rest == rest;
    }
  }

  /** A table of some rows is always shown, and shows every row that is not a separator, in order. */
  lemma NoRowIsLost(rows: seq<seq<string>>)
    requires rows != []
    ensures ParseTable(rows).Some? && NotSeparators(RowsShown(ParseTable(rows).value)) == NotSeparators(rows)
  {
    var view := ParseTable(rows).value;
    if view.header.Some? {
      var rest := NotSeparators(rows[2..]);
      NotSeparatorsTwice(rows[2..]);
      assert RowsShown(view) == [rows[0]] + rest && ([rows[0]] + rest)[1..] == rest;
      assert rows[1..][0] == rows[1] && rows[1..][1..] == rows[2..];
      assert NotSeparators(rows[1..]) == rest;
    } else {
      assert RowsShown(view) == rows;
    }
  }

  function Dashes(open: bool, n: nat, close: bool): string {
    (if open then ":" else "") + Run('-', n) + (if close then ":" else "")
  }

  lemma DashesAreDashes(open: bool, n: nat, close: bool)
    requires n >= 2
    ensures IsDashes(Dashes(open, n, close))
  {
    var cell := Dashes(open, n, close);
    var rest := Run('-', n) + (if close then ":" else "");
    assert cell[0] == if open then ':' else '-';
    assert cell == (if open then ":" else "") + rest;
    assert (if cell[0] == ':' then cell[1..] else cell) == rest;
    assert (if rest[|rest| - 1] == ':' then rest[..|rest| - 1] else rest) == Run('-', n);
  }

  /** `^:?-{2,}:?$`: the cells of a separator. */
  lemma DashesIff(cell: string)
    ensures IsDashes(cell) <==> exists open, n: nat, close :: n >= 2 && cell == Dashes(open, n, close)
  {
    if IsDashes(cell) {
      var a := if cell[0] == ':' then cell[1..] else cell;
      var b := if a[|a| - 1] == ':' then a[..|a| - 1] else a;
      assert forall k :: 0 <= k < |b| ==> b[k] in b;
      assert b == Run('-', |b|);
      assert cell == Dashes(cell[0] == ':', |b|, a[|a| - 1] == ':');
    }
    if open, n: nat, close :| n >= 2 && cell == Dashes(open, n, close) { DashesAreDashes(open, n, close); }
  }

  /** Dropping separators drops these rows and no others, and keeps the order. */
  lemma {:induction false} SeparatorsGo(a: seq<seq<string>>, row: seq<string>)
    ensures NotSeparators([]) == []
    ensures NotSeparators(a + [row]) == NotSeparators(a) + if IsSeparator(row) then [] else [row]
  {
    hide IsSeparator;
    if a == [] {
      assert [] + [row] == [row] && [row][1..] == [];
    } else {
      assert (a + [row])[1..] == a[1..] + [row];
      SeparatorsGo(a[1..], row);
    }
  }

  /** The first row is the header exactly when the second separates; then no separator is shown, else every row is. */
  lemma HeaderIff(rows: seq<seq<string>>)
    ensures ParseTable(rows).Some? <==> rows != []
    ensures rows != [] ==>
      var view := ParseTable(rows).value;
      && (view.header.Some? <==> |rows| >= 2 && forall c :: c in rows[1] ==> IsDashes(c))
      && (view.header.Some? ==> view.header.value == rows[0] && view.body == NotSeparators(rows[2..]))
      && (view.header.None? ==> view.body == rows)
  {
  }
}
