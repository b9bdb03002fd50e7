/** The mini program's Markdown renderer: which lines form which block. Inline styling is left aside. */
module Markdown {
  import opened Options

  // ---- lines ----

  /** `\s` of a JavaScript regular expression. */
  predicate IsWs(c: char) {
    || '\U{0009}' <= c <= '\U{000D}' || c == ' ' || c == '\U{00A0}' || c == '\U{1680}' || '\U{2000}' <= c <= '\U{200A}'
    || c == '\U{2028}' || c == '\U{2029}' || c == '\U{202F}' || c == '\U{205F}' || c == '\U{3000}' || c == '\U{FEFF}'
  }

  /** What `.` does not match. */
  predicate IsLineTerminator(c: char) {
    c == '\n' || c == '\r' || c == '\U{2028}' || c == '\U{2029}'
  }

  predicate NoTerminator(s: string) {
    forall c :: c in s ==> !IsLineTerminator(c)
  }

  function SkipWs(s: string): string {
    if s != "" && IsWs(s[0]) then SkipWs(s[1..]) else s
  }

  function DropWs(s: string): string {
    if s != "" && IsWs(s[|s| - 1]) then DropWs(s[..|s| - 1]) else s
  }

  function Trimmed(s: string): string {
    DropWs(SkipWs(s))
  }

  predicate IsBlankLine(l: string) {
    SkipWs(l) == ""
  }

  /** The character of a code fence the line opens with. */
  function FenceMarker(l: string): Option<char> {
    var r := SkipWs(l);
    if "```" <= r then Some('`') else if "~~~" <= r then Some('~') else None
  }

  predicate IsHr(l: string) {
    var t := Trimmed(l);
    |t| >= 3 && (t[0] == '-' || t[0] == '*' || t[0] == '_') && forall c :: c in t ==> c == t[0]
  }

  /** How many times `c` is repeated at the front. */
  function Repeats(s: string, p: char -> bool): (n: nat)
    ensures n <= |s|
  {
    if s != "" && p(s[0]) then 1 + Repeats(s[1..], p) else 0
  }

  /** After a marker: one or more blanks, and what follows them; None without a blank. */
  function AfterBlanks(s: string): Option<string> {
    if s != "" && IsWs(s[0]) then Some(SkipWs(s)) else None
  }

  function HeadingLevel(l: string): nat {
    Repeats(SkipWs(l), c => c == '#')
  }

  /** `^\s*(#{1,6})\s+`: the text after the marker. */
  function HeadingText(l: string): Option<string> {
    var r, n := SkipWs(l), HeadingLevel(l);
    if 1 <= n <= 6 then AfterBlanks(r[n..]) else None
  }

  /** `^(\s*)([-*+]|\d{1,3}\.)\s+`: the text after the marker. */
  function ListText(l: string): Option<string> {
    var r := SkipWs(l);
    var n := Repeats(r, c => '0' <= c <= '9');
    if r != "" && (r[0] == '-' || r[0] == '*' || r[0] == '+') then AfterBlanks(r[1..])
    else if 1 <= n <= 3 && n < |r| && r[n] == '.' then AfterBlanks(r[n + 1..])
    else None
  }

  predicate IsQuote(l: string) {
    ">" <= SkipWs(l)
  }

  function SplitUnescaped(s: string): (cells: seq<string>)
    ensures |cells| > 0
    decreases |s|
  {
    if s == "" then [""]
    else if s[0] == '\\' && |s| > 1 && s[1] == '|' then Prepend("|", SplitUnescaped(s[2..]))
    else if s[0] == '|' then [""] + SplitUnescaped(s[1..])
    else Prepend([s[0]], SplitUnescaped(s[1..]))
  }

  function Prepend(s: string, cells: seq<string>): (r: seq<string>)
    requires |cells| > 0
    ensures |r| == |cells|
  {
    [s + cells[0]] + cells[1..]
  }

  function TableCells(l: string): Option<seq<string>> {
    var t := Trimmed(l);
    if !("|" <= t) && !(t != "" && t[|t| - 1] == '|') then None
    else
      var t1 := if "|" <= t then t[1..] else t;
      var inner := if t1 != "" && t1[|t1| - 1] == '|' then t1[..|t1| - 1] else t1;
      if '|' !in inner then None
      else
        var cells := SplitUnescaped(inner);
        Some(seq(|cells|, i requires 0 <= i < |cells| => Trimmed(cells[i])))
  }

  predicate IsTableRow(l: string) {
    TableCells(l).Some?
  }

  /** The block tests match to the end of the line, past no line terminator; the tests that end a
      paragraph do not look that far. */
  predicate OpensHeading(l: string) {
    HeadingText(l).Some? && NoTerminator(HeadingText(l).value)
  }

  predicate OpensItem(l: string) {
    ListText(l).Some? && NoTerminator(ListText(l).value)
  }

  predicate EndsParagraph(l: string) {
    || IsBlankLine(l) || FenceMarker(l).Some? || IsHr(l)
    || HeadingText(l).Some? || IsQuote(l) || ListText(l).Some? || IsTableRow(l)
  }

  predicate OpensBlock(l: string) {
    || IsBlankLine(l) || FenceMarker(l).Some? || IsHr(l)
    || OpensHeading(l) || IsQuote(l) || IsTableRow(l) || OpensItem(l)
  }

  /** Ends a paragraph and opens nothing. */
  predicate IsStuck(l: string) {
    EndsParagraph(l) && !OpensBlock(l)
  }

  // ---- blocks ----

  datatype Node =
    | Skipped
    | Code(content: seq<string>)
    | Rule
    | Heading(level: nat, title: string)
    | Quote(content: seq<string>)
    | Table(rows: seq<seq<string>>)
    | Item(entry: string)
    | Paragraph(content: seq<string>)

  /** A node made of lines `start` up to `end`. */
  datatype Block = Block(start: nat, end: nat, node: Node)

  /** The first line from `i` on that fails `p`. */
  function SpanEnd(lines: seq<string>, i: nat, p: string -> bool): (j: nat)
    requires i <= |lines|
    ensures i <= j <= |lines| && (forall k :: i <= k < j ==> p(lines[k])) && (j < |lines| ==> !p(lines[j]))
    decreases |lines| - i
  {
    if i < |lines| && p(lines[i]) then SpanEnd(lines, i + 1, p) else i
  }

  function Inside(marker: char): string -> bool {
    (l: string) => FenceMarker(l) != Some(marker)
  }

  predicate Ordinary(l: string) {
    !EndsParagraph(l)
  }

  function StripQuote(l: string): string
    requires IsQuote(l)
  {
    var r := SkipWs(l)[1..];
    if r != "" && IsWs(r[0]) then r[1..] else r
  }

  function CodeBlock(lines: seq<string>, i: nat, marker: char): Block
    requires i < |lines|
  {
    var j := SpanEnd(lines, i + 1, Inside(marker));
    Block(i, if j < |lines| then j + 1 else j, Code(lines[i + 1..j]))
  }

  function QuoteBlock(lines: seq<string>, i: nat): Block
    requires i < |lines|
  {
    var j := SpanEnd(lines, i, IsQuote);
    Block(i, j, Quote(seq(j - i, k requires 0 <= k < j - i => StripQuote(lines[i + k]))))
  }

  function TableBlock(lines: seq<string>, i: nat): Block
    requires i < |lines|
  {
    var j := SpanEnd(lines, i, IsTableRow);
    Block(i, j, Table(seq(j - i, k requires 0 <= k < j - i => TableCells(lines[i + k]).value)))
  }

  /** The block that starts at line `i`; None when no test takes the line. */
  function NextBlock(lines: seq<string>, i: nat): Option<Block>
    requires i < |lines|
  {
    var l := lines[i];
    if IsBlankLine(l) then Some(Block(i, i + 1, Skipped))
    else if FenceMarker(l).Some? then Some(CodeBlock(lines, i, FenceMarker(l).value))
    else if IsHr(l) then Some(Block(i, i + 1, Rule))
    else if OpensHeading(l) then Some(Block(i, i + 1, Heading(HeadingLevel(l), HeadingText(l).value)))
    else if IsQuote(l) then Some(QuoteBlock(lines, i))
    else if IsTableRow(l) then Some(TableBlock(lines, i))
    else if OpensItem(l) then Some(Block(i, i + 1, Item(ListText(l).value)))
    else
      var j := SpanEnd(lines, i, Ordinary);
      if j == i then None else Some(Block(i, j, Paragraph(lines[i..j])))
  }

  lemma NextBlockAdvances(lines: seq<string>, i: nat)
    requires i < |lines|
    ensures NextBlock(lines, i).None? <==> IsStuck(lines[i])
    ensures NextBlock(lines, i).Some? ==>
      NextBlock(lines, i).value.start == i < NextBlock(lines, i).value.end <= |lines|
  {
  }

  /** The blocks from line `i` on, and the line the parser stays at for ever, if there is one. */
  function ParseFrom(lines: seq<string>, i: nat): (seq<Block>, Option<nat>)
    requires i <= |lines|
    decreases |lines| - i
  {
    if i == |lines| then ([], None)
    else
      NextBlockAdvances(lines, i);
      match NextBlock(lines, i)
      case None => ([], Some(i))
      case Some(b) =>
        var (rest, stuck) := ParseFrom(lines, b.end);
        ([b] + rest, stuck)
  }

  /** The block loop. Where the original would go round for ever without moving, this returns the line. */
  method ParseMarkdown(lines: seq<string>) returns (blocks: seq<Block>, stuck: Option<nat>)
    ensures (blocks, stuck) == ParseFrom(lines, 0)
  {
    blocks, stuck := [], None;
    var i := 0;
    assert blocks + ParseFrom(lines, 0).0 == ParseFrom(lines, 0).0;
    while i < |lines|
      invariant 0 <= i <= |lines|
      invariant ParseFrom(lines, 0) == (blocks + ParseFrom(lines, i).0, ParseFrom(lines, i).1)
    {
      hide IsBlankLine, FenceMarker, IsHr, HeadingText, ListText, TableCells, OpensHeading, OpensItem;
      NextBlockAdvances(lines, i);
      var b := ReadBlock(lines, i);
      if b.None? {
        assert blocks + [] == blocks;
        return blocks, Some(i);
      }
      assert blocks + ([b.value] + ParseFrom(lines, b.value.end).0) ==
        (blocks + [b.value]) + ParseFrom(lines, b.value.end).0;
      blocks := blocks + [b.value];
      i := b.value.end;
    }
    assert blocks + [] == blocks;
  }

  /** One time round the block loop, with its inner loops. */
  method ReadBlock(lines: seq<string>, start: nat) returns (b: Option<Block>)
    requires start < |lines|
    ensures b == NextBlock(lines, start)
  {
    hide IsBlankLine, FenceMarker, IsHr, HeadingText, ListText, TableCells, EndsParagraph, IsQuote;
    var i, line := start, lines[start];
    if IsBlankLine(line) { return Some(Block(start, i + 1, Skipped)); }
    var fence := FenceMarker(line);
    if fence.Some? {
      var code := ReadCode(lines, start, fence.value);
      return Some(code);
    }
    if IsHr(line) { return Some(Block(start, i + 1, Rule)); }
    if OpensHeading(line) { return Some(Block(start, i + 1, Heading(HeadingLevel(line), HeadingText(line).value))); }
    if IsQuote(line) {
      var quote := ReadQuote(lines, start);
      return Some(quote);
    }
    if IsTableRow(line) {
      var table := ReadTable(lines, start);
      return Some(table);
    }
    if OpensItem(line) { return Some(Block(start, i + 1, Item(ListText(line).value))); }
    b := ReadParagraph(lines, start);
  }

  lemma SpanStep(lines: seq<string>, start: nat, i: nat, p: string -> bool)
    requires start <= i < |lines| && SpanEnd(lines, start, p) == SpanEnd(lines, i, p)
    ensures p(lines[i]) ==> SpanEnd(lines, start, p) == SpanEnd(lines, i + 1, p)
    ensures !p(lines[i]) ==> SpanEnd(lines, start, p) == i
  {
  }

  lemma SpanDone(lines: seq<string>, start: nat, i: nat, p: string -> bool)
    requires start <= i <= |lines| && SpanEnd(lines, start, p) == SpanEnd(lines, i, p)
    requires i < |lines| ==> !p(lines[i])
    ensures SpanEnd(lines, start, p) == i
  {
  }

  lemma InsideIs(marker: char, l: string)
    ensures Inside(marker)(l) <==> FenceMarker(l) != Some(marker)
  {
  }

  lemma CodeIs(lines: seq<string>, start: nat, marker: char, j: nat)
    requires start < j <= |lines| && SpanEnd(lines, start + 1, Inside(marker)) == j
    ensures CodeBlock(lines, start, marker) == Block(start, if j < |lines| then j + 1 else j, Code(lines[start + 1..j]))
  {
  }

  lemma QuoteIs(lines: seq<string>, start: nat, i: nat, content: seq<string>)
    requires start < |lines| && start <= i <= |lines| && SpanEnd(lines, start, IsQuote) == i && |content| == i - start
    requires forall k :: start <= k < i ==> IsQuote(lines[k]) && content[k - start] == StripQuote(lines[k])
    ensures QuoteBlock(lines, start) == Block(start, i, Quote(content))
  {
    hide IsQuote, StripQuote, SpanEnd;
    assert forall k :: 0 <= k < i - start ==> IsQuote(lines[start + k]) && content[k] == StripQuote(lines[start + k]);
    assert QuoteBlock(lines, start).node.content == content;
  }

  lemma TableIs(lines: seq<string>, start: nat, i: nat, rows: seq<seq<string>>)
    requires start < |lines| && start <= i <= |lines| && SpanEnd(lines, start, IsTableRow) == i && |rows| == i - start
    requires forall k :: start <= k < i ==> TableCells(lines[k]) == Some(rows[k - start])
    ensures TableBlock(lines, start) == Block(start, i, Table(rows))
  {
    hide TableCells, SpanEnd;
    assert forall k :: 0 <= k < i - start ==> TableCells(lines[start + k]) == Some(rows[k]);
    assert TableBlock(lines, start).node.rows == rows;
  }

  /** The lines of a fence, up to the closing fence or the end of the text. */
  method ReadCode(lines: seq<string>, start: nat, marker: char) returns (b: Block)
    requires start < |lines|
    ensures b == CodeBlock(lines, start, marker)
  {
    hide SpanEnd, FenceMarker, Inside, CodeBlock;
    var i, codeLines := start + 1, [];
    while i < |lines|
      invariant start + 1 <= i <= |lines| && codeLines == lines[start + 1..i]
      invariant SpanEnd(lines, start + 1, Inside(marker)) == SpanEnd(lines, i, Inside(marker))
    {
      SpanStep(lines, start + 1, i, Inside(marker));
      InsideIs(marker, lines[i]);
      if FenceMarker(lines[i]) == Some(marker) {
        CodeIs(lines, start, marker, i);
        return Block(start, i + 1, Code(codeLines));
      }
      codeLines := codeLines + [lines[i]];
      i := i + 1;
    }
    CodeIs(lines, start, marker, i);
    return Block(start, i, Code(codeLines));
  }

  /** Consecutive quote lines, each without its marker. */
  method ReadQuote(lines: seq<string>, start: nat) returns (b: Block)
    requires start < |lines|
    ensures b == QuoteBlock(lines, start)
  {
    hide IsQuote, StripQuote, SpanEnd, QuoteBlock;
    var i, quoteLines := start, [];
    while i < |lines| && IsQuote(lines[i])
      invariant start <= i <= |lines| && |quoteLines| == i - start
      invariant SpanEnd(lines, start, IsQuote) == SpanEnd(lines, i, IsQuote)
      invariant forall k :: start <= k < i ==> IsQuote(lines[k]) && quoteLines[k - start] == StripQuote(lines[k])
    {
      SpanStep(lines, start, i, IsQuote);
      quoteLines := quoteLines + [StripQuote(lines[i])];
      i := i + 1;
    }
    SpanDone(lines, start, i, IsQuote);
    QuoteIs(lines, start, i, quoteLines);
    return Block(start, i, Quote(quoteLines));
  }

  /** Consecutive table rows, split into cells. */
  method ReadTable(lines: seq<string>, start: nat) returns (b: Block)
    requires start < |lines|
    ensures b == TableBlock(lines, start)
  {
    hide TableCells, SpanEnd, TableBlock;
    var i, rows := start, [];
    while i < |lines|
      invariant start <= i <= |lines| && |rows| == i - start
      invariant SpanEnd(lines, start, IsTableRow) == SpanEnd(lines, i, IsTableRow)
      invariant forall k :: start <= k < i ==> TableCells(lines[k]) == Some(rows[k - start])
    {
      SpanStep(lines, start, i, IsTableRow);
      var cells := TableCells(lines[i]);
      if cells.None? { break; }
      rows := rows + [cells.value];
      i := i + 1;
    }
    SpanDone(lines, start, i, IsTableRow);
    TableIs(lines, start, i, rows);
    return Block(start, i, Table(rows));
  }

  /** Consecutive ordinary lines; None when there is not one. */
  method ReadParagraph(lines: seq<string>, start: nat) returns (b: Option<Block>)
    requires start < |lines|
    ensures var j := SpanEnd(lines, start, Ordinary);
      b == if j == start then None else Some(Block(start, j, Paragraph(lines[start..j])))
  {
    hide EndsParagraph;
    var i, paraLines := start, [];
    while i < |lines|
      invariant start <= i <= |lines| && paraLines == lines[start..i]
      invariant SpanEnd(lines, start, Ordinary) == SpanEnd(lines, i, Ordinary)
    {
      SpanStep(lines, start, i, Ordinary);
      if EndsParagraph(lines[i]) { break; }
      paraLines := paraLines + [lines[i]];
      i := i + 1;
    }
    if paraLines == [] { return None; }
    return Some(Block(start, i, Paragraph(paraLines)));
  }
}
