/** What the block loop of the Markdown renderer does with every text. */
module MarkdownProps {
  import opened Options
  import opened Markdown

  /** Consecutive non-empty intervals from `from` up to `to`. */
  ghost predicate Tiles(blocks: seq<Block>, from: nat, to: nat) {
    if blocks == [] then from == to
    else blocks[0].start == from < blocks[0].end && Tiles(blocks[1..], blocks[0].end, to)
  }

  /** What stands in a block is what its lines say: code verbatim between its fences, paragraphs
      verbatim and as long as they can be. */
  ghost predicate Faithful(lines: seq<string>, b: Block) {
    && b.start < b.end <= |lines|
    && (b.node.Code? ==>
          && FenceMarker(lines[b.start]).Some?
          && b.start + 1 + |b.node.content| <= b.end <= b.start + 2 + |b.node.content|
          && b.node.content == lines[b.start + 1..b.start + 1 + |b.node.content|]
          && (forall l :: l in b.node.content ==> FenceMarker(l) != FenceMarker(lines[b.start]))
          && (b.end < |lines| ==>
                && b.end == b.start + 2 + |b.node.content|
                && FenceMarker(lines[b.end - 1]) == FenceMarker(lines[b.start])))
    && (b.node.Paragraph? ==>
          && b.node.content == lines[b.start..b.end]
          && (forall l :: l in b.node.content ==> !EndsParagraph(l))
          && (b.end < |lines| ==> EndsParagraph(lines[b.end])))
    && (b.node.Quote? ==>
          && |b.node.content| == b.end - b.start
          && (forall k :: b.start <= k < b.end ==>
                IsQuote(lines[k]) && b.node.content[k - b.start] == StripQuote(lines[k]))
          && (b.end < |lines| ==> !IsQuote(lines[b.end])))
    && (b.node.Table? ==>
          && |b.node.rows| == b.end - b.start
          && (forall k :: b.start <= k < b.end ==> TableCells(lines[k]) == Some(b.node.rows[k - b.start]))
          && (b.end < |lines| ==> !IsTableRow(lines[b.end])))
    && (b.node.Heading? ==>
          HeadingText(lines[b.start]) == Some(b.node.title) && b.node.level == HeadingLevel(lines[b.start]))
    && (b.node.Item? ==> ListText(lines[b.start]) == Some(b.node.entry))
    && (b.node.Rule? ==> IsHr(lines[b.start]))
    && (b.node.Skipped? ==> IsBlankLine(lines[b.start]))
    && (b.node.Skipped? || b.node.Rule? || b.node.Heading? || b.node.Item? ==>
          b.end == b.start + 1 && OpensBlock(lines[b.start]))
  }

  lemma CodeFaithful(lines: seq<string>, i: nat)
    requires i < |lines| && FenceMarker(lines[i]).Some?
    ensures Faithful(lines, CodeBlock(lines, i, FenceMarker(lines[i]).value))
  {
    hide FenceMarker, OpensBlock, EndsParagraph, IsQuote, TableCells, HeadingText, ListText, IsHr, IsBlankLine;
  }

  lemma QuoteFaithful(lines: seq<string>, i: nat)
    requires i < |lines| && IsQuote(lines[i])
    ensures Faithful(lines, QuoteBlock(lines, i))
  {
    hide FenceMarker, OpensBlock, EndsParagraph, IsQuote, TableCells, HeadingText, ListText, IsHr, IsBlankLine;
    hide StripQuote;
  }

  lemma TableFaithful(lines: seq<string>, i: nat)
    requires i < |lines| && IsTableRow(lines[i])
    ensures Faithful(lines, TableBlock(lines, i))
  {
    hide FenceMarker, OpensBlock, EndsParagraph, IsQuote, TableCells, HeadingText, ListText, IsHr, IsBlankLine;
  }

  lemma ParagraphFaithful(lines: seq<string>, i: nat)
    requires i < |lines| && Ordinary(lines[i])
    ensures var j := SpanEnd(lines, i, Ordinary); Faithful(lines, Block(i, j, Paragraph(lines[i..j])))
  {
    hide FenceMarker, OpensBlock, EndsParagraph, IsQuote, TableCells, HeadingText, ListText, IsHr, IsBlankLine;
  }

  lemma NextBlockFaithful(lines: seq<string>, i: nat)
    requires i < |lines| && NextBlock(lines, i).Some?
    ensures Faithful(lines, NextBlock(lines, i).value)
  {
    var l := lines[i];
    hide IsBlankLine, FenceMarker, IsHr, HeadingText, ListText, TableCells, IsQuote, HeadingLevel;
    hide CodeBlock, QuoteBlock, TableBlock, SpanEnd, EndsParagraph;
    if IsBlankLine(l) {
    } else if FenceMarker(l).Some? {
      CodeFaithful(lines, i);
    } else if IsHr(l) || OpensHeading(l) {
    } else if IsQuote(l) {
      QuoteFaithful(lines, i);
    } else if IsTableRow(l) {
      TableFaithful(lines, i);
    } else if !OpensItem(l) {
      SpanIsOpen(lines, i);
      ParagraphFaithful(lines, i);
    }
  }

  lemma SpanIsOpen(lines: seq<string>, i: nat)
    requires i < |lines| && SpanEnd(lines, i, Ordinary) != i
    ensures Ordinary(lines[i])
  {
  }

  /** The blocks are consecutive non-empty intervals that cover the text, or the text up to the line the
      parser stays at, and each holds what its lines say. */
  lemma {:induction false} BlocksTileTheText(lines: seq<string>, i: nat)
    requires i <= |lines|
    ensures var (blocks, stuck) := ParseFrom(lines, i);
      && Tiles(blocks, i, if stuck.Some? then stuck.value else |lines|)
      && (stuck.Some? ==> i <= stuck.value < |lines| && IsStuck(lines[stuck.value]))
      && forall b :: b in blocks ==> Faithful(lines, b)
    decreases |lines| - i
  {
    hide IsStuck, Faithful, NextBlock;
    if i < |lines| {
      NextBlockAdvances(lines, i);
      match NextBlock(lines, i)
      case None =>
      case Some(b) =>
        NextBlockFaithful(lines, i);
        BlocksTileTheText(lines, b.end);
        assert ([b] + ParseFrom(lines, b.end).0)[1..] == ParseFrom(lines, b.end).0;
    }
  }

  // ---- a scan over the lines alone ----

  /** Where a left-to-right reader of the lines is: in running text, among table rows, or inside a fence. */
  datatype Mode = InText | InTable | InFence(marker: char)

  function Next(mode: Mode, l: string): Mode {
    match mode
    case InFence(marker) => if FenceMarker(l) == Some(marker) then InText else mode
    case InTable => if IsTableRow(l) then InTable else FromText(l)
    case InText => FromText(l)
  }

  /** A fence opens a fence; a row opens a table, unless the line opens something that comes first. */
  function FromText(l: string): Mode {
    if FenceMarker(l).Some? then InFence(FenceMarker(l).value)
    else if IsTableRow(l) && !IsBlankLine(l) && !IsHr(l) && !OpensHeading(l) && !IsQuote(l) then InTable
    else InText
  }

  /** The mode before line `k`. */
  function ModeAt(lines: seq<string>, k: nat): Mode
    requires k <= |lines|
  {
    if k == 0 then InText else Next(ModeAt(lines, k - 1), lines[k - 1])
  }

  predicate Fenced(lines: seq<string>, k: nat)
    requires k <= |lines|
  {
    ModeAt(lines, k).InFence?
  }

  /** A block may start at line `i`: the line is read as running text. */
  predicate AtBoundary(lines: seq<string>, i: nat)
    requires i <= |lines|
  {
    i < |lines| ==> ModeAt(lines, i) == InText || (ModeAt(lines, i) == InTable && !IsTableRow(lines[i]))
  }

  lemma BoundaryStep(lines: seq<string>, i: nat)
    requires i < |lines| && AtBoundary(lines, i)
    ensures ModeAt(lines, i + 1) == FromText(lines[i])
  {
  }

  /** Lines of a kind that keeps a mode keep it. */
  lemma {:induction false} ModeKept(lines: seq<string>, from: nat, to: nat, mode: Mode)
    requires from <= to <= |lines| && ModeAt(lines, from) == mode
    requires forall k :: from <= k < to ==> Next(mode, lines[k]) == mode
    ensures forall k :: from <= k <= to ==> ModeAt(lines, k) == mode
  {
    if from < to { ModeKept(lines, from, to - 1, mode); }
  }

  lemma QuoteIsNoFence(l: string)
    requires IsQuote(l)
    ensures FenceMarker(l) == None
  {
    var r := SkipWs(l);
    assert r[0] == '>' && "```"[0] == '`' && "~~~"[0] == '~';
  }

  lemma {:induction false} BlankIsNoRow(l: string)
    requires IsBlankLine(l)
    ensures FenceMarker(l) == None && !IsTableRow(l)
  {
    assert Trimmed(l) == "";
  }

  /** What the scan sees of a block: inside a code block it is in the fence, after any block at a boundary. */
  ghost predicate Scanned(lines: seq<string>, b: Block)
    requires b.start < b.end <= |lines|
  {
    && AtBoundary(lines, b.end)
    && (b.node.Code? ==> forall k :: b.start < k < b.end ==> Fenced(lines, k))
  }

  lemma ScanCode(lines: seq<string>, i: nat)
    requires i < |lines| && AtBoundary(lines, i) && FenceMarker(lines[i]).Some?
    ensures Scanned(lines, CodeBlock(lines, i, FenceMarker(lines[i]).value))
  {
    hide FenceMarker, IsTableRow, IsBlankLine, IsHr, OpensHeading, IsQuote;
    var marker := FenceMarker(lines[i]).value;
    BoundaryStep(lines, i);
    var j := SpanEnd(lines, i + 1, Inside(marker));
    ModeKept(lines, i + 1, j, InFence(marker));
    if j < |lines| {
      assert !Inside(marker)(lines[j]);
      assert ModeAt(lines, j + 1) == Next(InFence(marker), lines[j]) == InText;
    }
  }

  lemma ScanQuote(lines: seq<string>, i: nat)
    requires i < |lines| && AtBoundary(lines, i) && IsQuote(lines[i])
    ensures Scanned(lines, QuoteBlock(lines, i))
  {
    hide FenceMarker, IsTableRow, IsBlankLine, IsHr, OpensHeading, IsQuote;
    var j := SpanEnd(lines, i, IsQuote);
    forall k | i <= k < j ensures FromText(lines[k]) == InText { QuoteIsNoFence(lines[k]); }
    BoundaryStep(lines, i);
    ModeKept(lines, i + 1, j, InText);
  }

  lemma ScanTable(lines: seq<string>, i: nat)
    requires i < |lines| && AtBoundary(lines, i) && IsTableRow(lines[i]) && FromText(lines[i]) == InTable
    ensures Scanned(lines, TableBlock(lines, i))
  {
    hide FenceMarker, IsTableRow, IsBlankLine, IsHr, OpensHeading, IsQuote;
    var j := SpanEnd(lines, i, IsTableRow);
    BoundaryStep(lines, i);
    ModeKept(lines, i + 1, j, InTable);
  }

  lemma ScanParagraph(lines: seq<string>, i: nat)
    requires i < |lines| && AtBoundary(lines, i) && Ordinary(lines[i])
    ensures AtBoundary(lines, SpanEnd(lines, i, Ordinary))
  {
    hide FenceMarker, IsTableRow, IsBlankLine, IsHr, HeadingText, ListText, OpensHeading, IsQuote;
    var j := SpanEnd(lines, i, Ordinary);
    BoundaryStep(lines, i);
    ModeKept(lines, i + 1, j, InText);
  }

  lemma ScanBlock(lines: seq<string>, i: nat)
    requires i < |lines| && AtBoundary(lines, i) && NextBlock(lines, i).Some?
    ensures i < NextBlock(lines, i).value.end <= |lines| && Scanned(lines, NextBlock(lines, i).value)
  {
    NextBlockAdvances(lines, i);
    hide FenceMarker, IsTableRow, IsHr, OpensHeading, OpensItem, IsQuote, IsBlankLine, HeadingText, ListText;
    hide CodeBlock, QuoteBlock, TableBlock, EndsParagraph, ModeAt, AtBoundary, SpanEnd, HeadingLevel;
    var l := lines[i];
    if IsBlankLine(l) || IsHr(l) || OpensHeading(l) {
      if IsBlankLine(l) { BlankIsNoRow(l); }
      if FenceMarker(l).None? { ScanLine(lines, i); } else { ScanCode(lines, i); }
    } else if FenceMarker(l).Some? {
      ScanCode(lines, i);
    } else {
      ScanRun(lines, i);
    }
  }

  /** A block that is neither blank, fence, rule nor heading. */
  lemma ScanRun(lines: seq<string>, i: nat)
    requires i < |lines| && AtBoundary(lines, i) && NextBlock(lines, i).Some?
    requires !IsBlankLine(lines[i]) && FenceMarker(lines[i]).None? && !IsHr(lines[i]) && !OpensHeading(lines[i])
    requires i < NextBlock(lines, i).value.end <= |lines|
    ensures Scanned(lines, NextBlock(lines, i).value)
  {
    hide FenceMarker, IsTableRow, IsHr, OpensHeading, OpensItem, IsQuote, IsBlankLine, HeadingText, ListText;
    hide CodeBlock, QuoteBlock, TableBlock, EndsParagraph, ModeAt, AtBoundary, SpanEnd, HeadingLevel;
    var l := lines[i];
    if IsQuote(l) {
      ScanQuote(lines, i);
    } else if IsTableRow(l) {
      ScanTable(lines, i);
    } else if OpensItem(l) {
      ScanLine(lines, i);
    } else {
      ScanParagraph(lines, i);
    }
  }

  lemma ScanLine(lines: seq<string>, i: nat)
    requires i < |lines| && AtBoundary(lines, i) && FromText(lines[i]) == InText
    ensures AtBoundary(lines, i + 1)
  {
    hide FromText;
    BoundaryStep(lines, i);
  }

  /** A stuck line opens no block, so a block has it inside only as code. */
  lemma StuckInside(lines: seq<string>, b: Block, k: nat)
    requires Faithful(lines, b) && b.start <= k < b.end && IsStuck(lines[k])
    ensures b.node.Code? && b.start < k
  {
    hide IsBlankLine, FenceMarker, IsHr, HeadingText, ListText, TableCells, IsQuote;
  }

  /** Where the parser stays: the first stuck line outside every fence. */
  ghost predicate StaysAt(lines: seq<string>, from: nat, stuck: Option<nat>) {
    match stuck
    case Some(j) =>
      && from <= j < |lines| && IsStuck(lines[j]) && !Fenced(lines, j)
      && forall k :: from <= k < j && IsStuck(lines[k]) ==> Fenced(lines, k)
    case None => forall k :: from <= k < |lines| && IsStuck(lines[k]) ==> Fenced(lines, k)
  }

  lemma {:induction false} StaysAtFirstBareLine(lines: seq<string>, i: nat)
    requires i <= |lines| && AtBoundary(lines, i)
    ensures StaysAt(lines, i, ParseFrom(lines, i).1)
    decreases |lines| - i
  {
    hide IsStuck, Faithful, NextBlock, ModeAt;
    if i < |lines| {
      NextBlockAdvances(lines, i);
      match NextBlock(lines, i)
      case None =>
      case Some(b) =>
        ScanBlock(lines, i);
        NextBlockFaithful(lines, i);
        StaysAtFirstBareLine(lines, b.end);
        forall k | i <= k < b.end && IsStuck(lines[k]) ensures Fenced(lines, k) { StuckInside(lines, b, k); }
    }
  }

  /**
   * The renderer comes to an end exactly when every line that ends a paragraph and opens nothing is inside a
   * fence, as a reader of the lines alone can tell; otherwise it stays at the first such line that is not.
   */
  lemma TerminatesIff(lines: seq<string>)
    ensures ParseFrom(lines, 0).1 == None <==> forall k :: 0 <= k < |lines| && IsStuck(lines[k]) ==> Fenced(lines, k)
    ensures StaysAt(lines, 0, ParseFrom(lines, 0).1)
  {
    hide IsStuck, Fenced, ParseFrom;
    assert AtBoundary(lines, 0);
    StaysAtFirstBareLine(lines, 0);
  }

  lemma {:induction false} SkipWsKeeps(s: string)
    requires NoTerminator(s)
    ensures NoTerminator(SkipWs(s))
  {
    if s != "" && IsWs(s[0]) { SkipWsKeeps(s[1..]); }
  }

  /** Without line terminators in the line, the tests that end a paragraph and the block tests agree. */
  lemma TestsAgree(l: string)
    requires NoTerminator(l)
    ensures EndsParagraph(l) <==> OpensBlock(l)
  {
    hide IsBlankLine, FenceMarker, IsHr, TableCells, IsQuote;
    SkipWsKeeps(l);
    var r := SkipWs(l);
    if HeadingText(l).Some? { SkipWsKeeps(r[HeadingLevel(l)..]); }
    if ListText(l).Some? {
      var n := Repeats(r, c => '0' <= c <= '9');
      SkipWsKeeps(r[1..]);
      if n < |r| { SkipWsKeeps(r[n + 1..]); }
    }
  }

  /** Every text without CR, U+2028 and U+2029: the renderer comes to an end, and its blocks partition
      the lines. */
  lemma CleanTextIsPartitioned(lines: seq<string>)
    requires forall l :: l in lines ==> NoTerminator(l)
    ensures ParseFrom(lines, 0).1 == None && Tiles(ParseFrom(lines, 0).0, 0, |lines|)
  {
    hide EndsParagraph, OpensBlock, NoTerminator;
    BlocksTileTheText(lines, 0);
    forall k | 0 <= k < |lines|
      ensures !IsStuck(lines[k])
    {
      TestsAgree(lines[k]);
    }
    TerminatesIff(lines);
  }

  /** A heading that ends in CR, as in a text with CRLF line ends: the renderer never gets past it. */
  lemma HeadingWithCarriageReturn()
    ensures ParseFrom(["# a\r"], 0) == ([], Some(0))
  {
    var l := "# a\r";
    assert SkipWs(l) == l && l[0] == '#' && l[1..][0] == ' ';
    assert Repeats(l, c => c == '#') == 1 by { assert Repeats(l[1..], c => c == '#') == 0; }
    assert l[1..][1..] == "a\r";
    assert SkipWs(l[1..]) == "a\r" by { assert SkipWs("a\r") == "a\r"; }
    assert "a\r"[1] == '\r' && '\r' in "a\r";
    StuckHeading(l);
    NextBlockAdvances([l], 0);
  }

  lemma StuckHeading(l: string)
    requires l == "# a\r" && HeadingText(l).Some? && !OpensHeading(l)
    ensures IsStuck(l)
  {
    hide HeadingText;
    assert DropWs(l) == "# a" by {
      assert l[..3] == "# a" && DropWs("# a") == "# a";
    }
    assert SkipWs(l) == l && Trimmed(l) == "# a";
    assert Repeats(l, c => '0' <= c <= '9') == 0;
    assert "# a"[1] == ' ' && ' ' in "# a";
  }
}
