/** The line tests of the Markdown renderer, held against the shapes that their regular expressions describe. */
module MarkdownLines {
  import opened Options
  import opened Markdown

  ghost predicate Blanks(s: string) {
    forall c :: c in s ==> IsWs(c)
  }

  /** The blanks of `\s`, by code point (sections 12.2 and 12.3 of ECMA-262), and those of them that end a line. */
  lemma BlankIs(c: char)
    ensures IsWs(c) <==> c as int in {0x09, 0x0A, 0x0B, 0x0C, 0x0D, 0x20, 0xA0, 0x1680, 0x2000, 0x2001, 0x2002, 0x2003,
      0x2004, 0x2005, 0x2006, 0x2007, 0x2008, 0x2009, 0x200A, 0x2028, 0x2029, 0x202F, 0x205F, 0x3000, 0xFEFF}
    ensures IsLineTerminator(c) <==> c as int in {0x0A, 0x0D, 0x2028, 0x2029}
  {
  }

  /** Does not start with a blank. */
  predicate Dense(s: string) {
    s == "" || !IsWs(s[0])
  }

  function Run(c: char, n: nat): string {
    seq(n, _ => c)
  }

  /** Blanks, a marker, at least one blank, and text after all the blanks. */
  ghost predicate Marked(l: string, marker: string, t: string) {
    Dense(t) && exists a, b :: Blanks(a) && Blanks(b) && b != "" && l == a + marker + b + t
  }

  /** `^\s*` takes all the blanks there are. */
  lemma {:induction false} SkipsBlanks(a: string, r: string)
    requires Blanks(a) && Dense(r)
    ensures SkipWs(a + r) == r
  {
    if a == "" {
      assert a + r == r;
    } else {
      assert (a + r)[1..] == a[1..] + r;
      SkipsBlanks(a[1..], r);
    }
  }

  lemma {:induction false} LeadingBlanks(l: string) returns (a: string)
    ensures Blanks(a) && Dense(SkipWs(l)) && l == a + SkipWs(l)
  {
    hide IsWs, Blanks, Dense;
    if l != "" && IsWs(l[0]) {
      var rest := LeadingBlanks(l[1..]);
      a := [l[0]] + rest;
      BlanksCons(l[0], rest);
      OneBlankMore(l, rest, SkipWs(l[1..]));
    } else {
      a := "";
      NoBlanks(l);
    }
  }

  lemma BlanksCons(c: char, rest: string)
    requires IsWs(c) && Blanks(rest)
    ensures Blanks([c] + rest)
  {
    hide IsWs;
  }

  lemma OneBlankMore(l: string, rest: string, tail: string)
    requires l != "" && l[1..] == rest + tail
    ensures l == [l[0]] + rest + tail
  {
  }

  lemma NoBlanks(l: string)
    requires l == "" || !IsWs(l[0])
    ensures Blanks("") && Dense(l) && l == "" + l
  {
  }

  /** One or more blanks after a marker, and the text after them. */
  lemma AfterBlanksIff(s: string, t: string)
    ensures AfterBlanks(s) == Some(t) <==> Dense(t) && exists b :: Blanks(b) && b != "" && s == b + t
  {
    if AfterBlanks(s) == Some(t) {
      var b := LeadingBlanks(s);
      assert b == "" ==> s == t;
    }
    if b :| Blanks(b) && b != "" && s == b + t && Dense(t) {
      SkipsBlanks(b, t);
      assert s[0] == b[0];
    }
  }

  /** Split after a marker that starts with no blank. */
  lemma MarkedIff(l: string, marker: string, t: string)
    requires marker != "" && !IsWs(marker[0])
    ensures Marked(l, marker, t) <==> marker <= SkipWs(l) && AfterBlanks(SkipWs(l)[|marker|..]) == Some(t)
  {
    hide SkipWs, AfterBlanks, IsWs;
    if Marked(l, marker, t) { MarkedIsFound(l, marker, t); }
    if marker <= SkipWs(l) && AfterBlanks(SkipWs(l)[|marker|..]) == Some(t) {
      var rest := SkipWs(l)[|marker|..];
      AfterBlanksIff(rest, t);
      var b :| Blanks(b) && b != "" && rest == b + t;
      var a := LeadingBlanks(l);
      assert l == a + marker + b + t by {
        assert SkipWs(l) == marker + rest;
        assert a + (marker + (b + t)) == a + marker + b + t;
      }
    }
  }

  lemma MarkedIsFound(l: string, marker: string, t: string)
    requires marker != "" && !IsWs(marker[0]) && Marked(l, marker, t)
    ensures marker <= SkipWs(l) && AfterBlanks(SkipWs(l)[|marker|..]) == Some(t)
  {
    hide SkipWs, AfterBlanks, IsWs;
    var a, b :| Blanks(a) && Blanks(b) && b != "" && l == a + marker + b + t;
    assert l == a + (marker + (b + t));
    SkipsBlanks(a, marker + (b + t));
    assert SkipWs(l)[|marker|..] == b + t;
    AfterBlanksIff(b + t, t);
  }

  lemma {:induction false} RepeatsIs(s: string, p: char -> bool, n: nat)
    requires n <= |s| && (forall k :: 0 <= k < n ==> p(s[k])) && (n < |s| ==> !p(s[n]))
    ensures Repeats(s, p) == n
  {
    if n > 0 { RepeatsIs(s[1..], p, n - 1); }
  }

  lemma {:induction false} RepeatsAll(s: string, p: char -> bool)
    ensures forall k :: 0 <= k < Repeats(s, p) ==> p(s[k])
    ensures Repeats(s, p) < |s| ==> !p(s[Repeats(s, p)])
  {
    if s != "" && p(s[0]) {
      RepeatsAll(s[1..], p);
      forall k | 0 <= k < Repeats(s, p) ensures p(s[k]) {
        if k > 0 { assert s[k] == s[1..][k - 1]; }
      }
    }
  }

  /** `^\s*(#{1,6})\s+(.*)$`: level and title of a heading. */
  lemma HeadingIff(l: string, n: nat, t: string)
    ensures HeadingText(l) == Some(t) && HeadingLevel(l) == n <==> 1 <= n <= 6 && Marked(l, Run('#', n), t)
  {
    hide Marked, AfterBlanks;
    var r := SkipWs(l);
    var isHash := (c: char) => c == '#';
    if HeadingText(l) == Some(t) && HeadingLevel(l) == n {
      RepeatsAll(r, isHash);
      assert r[..n] == Run('#', n);
      MarkedIff(l, Run('#', n), t);
    }
    if 1 <= n <= 6 && Marked(l, Run('#', n), t) {
      MarkedIff(l, Run('#', n), t);
      AfterBlanksIff(r[n..], t);
      var b :| Blanks(b) && b != "" && r[n..] == b + t;
      assert r[n] == b[0] && IsWs(b[0]);
      assert forall k :: 0 <= k < n ==> r[k] == Run('#', n)[k];
      RepeatsIs(r, isHash, n);
    }
  }

  predicate IsBullet(m: string) {
    m == "-" || m == "*" || m == "+"
  }

  ghost predicate IsNumber(m: string) {
    2 <= |m| <= 4 && m[|m| - 1] == '.' && forall k :: 0 <= k < |m| - 1 ==> '0' <= m[k] <= '9'
  }

  /** `^(\s*)([-*+]|\d{1,3}\.)\s+(.*)$`: the text of a list item. */
  lemma ItemIff(l: string, t: string)
    ensures ListText(l) == Some(t) <==> exists m :: (IsBullet(m) || IsNumber(m)) && Marked(l, m, t)
  {
    hide Marked, AfterBlanks;
    var r := SkipWs(l);
    var isDigit := (c: char) => '0' <= c <= '9';
    var n := Repeats(r, isDigit);
    if ListText(l) == Some(t) {
      if r[0] == '-' || r[0] == '*' || r[0] == '+' {
        assert [r[0]] <= r && IsBullet([r[0]]);
        MarkedIff(l, [r[0]], t);
      } else {
        RepeatsAll(r, isDigit);
        assert IsNumber(r[..n + 1]);
        MarkedIff(l, r[..n + 1], t);
      }
    }
    if m :| (IsBullet(m) || IsNumber(m)) && Marked(l, m, t) {
      MarkedIff(l, m, t);
      assert forall k :: 0 <= k < |m| ==> r[k] == m[k];
      if !IsBullet(m) { RepeatsIs(r, isDigit, |m| - 1); }
    }
  }

  /** `^\s*(```+|~~~+)`: a code fence and its character. */
  lemma FenceIff(l: string, c: char)
    ensures FenceMarker(l) == Some(c) <==>
      (c == '`' || c == '~') && exists a, rest :: Blanks(a) && l == a + Run(c, 3) + rest
  {
    var r := SkipWs(l);
    assert Run('`', 3) == "```" && Run('~', 3) == "~~~";
    if FenceMarker(l) == Some(c) {
      var a := LeadingBlanks(l);
      assert Run(c, 3) <= r && r == Run(c, 3) + r[3..];
      assert l == a + Run(c, 3) + r[3..];
    }
    if c == '`' || c == '~' {
      if a, rest :| Blanks(a) && l == a + Run(c, 3) + rest {
        assert l == a + (Run(c, 3) + rest);
        SkipsBlanks(a, Run(c, 3) + rest);
        assert r[0] == c && Run(c, 3) <= r;
      }
    }
  }

  /** Blanks, the marker, and one blank at most before the text. */
  ghost predicate Quotes(l: string, t: string) {
    exists a, b :: Blanks(a) && (if b == "" then Dense(t) else |b| == 1 && IsWs(b[0])) && l == a + ">" + b + t
  }

  lemma QuoteIsFound(l: string, t: string)
    requires Quotes(l, t)
    ensures IsQuote(l) && StripQuote(l) == t
  {
    var a, b :| Blanks(a) && (if b == "" then Dense(t) else |b| == 1 && IsWs(b[0])) && l == a + ">" + b + t;
    var rest := b + t;
    assert l == a + (">" + rest);
    SkipsBlanks(a, ">" + rest);
    hide SkipWs, Blanks, IsWs;
    assert SkipWs(l)[1..] == rest && rest[|b|..] == t;
  }

  lemma QuoteParts(a: string, rest: string)
    requires Blanks(a)
    ensures Quotes(a + ">" + rest, if rest != "" && IsWs(rest[0]) then rest[1..] else rest)
  {
    hide Blanks, IsWs;
    var b, t := "", rest;
    if rest != "" && IsWs(rest[0]) { b, t := [rest[0]], rest[1..]; }
    assert rest == b + t;
    assert a + ">" + rest == a + ">" + b + t;
  }

  /** `^\s*>\s?`: a quote line and what stands after its marker. */
  lemma QuoteIff(l: string, t: string)
    ensures IsQuote(l) && StripQuote(l) == t <==> Quotes(l, t)
  {
    if IsQuote(l) {
      var a := LeadingBlanks(l);
      assert SkipWs(l) == ">" + SkipWs(l)[1..] && l == a + ">" + SkipWs(l)[1..];
      QuoteParts(a, SkipWs(l)[1..]);
    }
    hide SkipWs, Blanks, IsWs;
    if Quotes(l, t) { QuoteIsFound(l, t); }
  }

  lemma {:induction false} TrailingBlanks(l: string) returns (b: string)
    ensures Blanks(b) && l == DropWs(l) + b && (DropWs(l) != "" ==> !IsWs(DropWs(l)[|DropWs(l)| - 1]))
  {
    if l != "" && IsWs(l[|l| - 1]) {
      var b' := TrailingBlanks(l[..|l| - 1]);
      b := b' + [l[|l| - 1]];
      assert l == l[..|l| - 1] + [l[|l| - 1]];
    } else {
      b := "";
    }
  }

  lemma {:induction false} DropsBlanks(r: string, b: string)
    requires Blanks(b) && (r == "" || !IsWs(r[|r| - 1]))
    ensures DropWs(r + b) == r
  {
    if b == "" {
      assert r + b == r;
    } else {
      assert (r + b)[..|r + b| - 1] == r + b[..|b| - 1];
      DropsBlanks(r, b[..|b| - 1]);
    }
  }

  lemma TrimmedParts(l: string) returns (a: string, b: string)
    ensures Blanks(a) && Blanks(b) && l == a + Trimmed(l) + b
  {
    a := LeadingBlanks(l);
    b := TrailingBlanks(SkipWs(l));
  }

  lemma TrimmedRun(a: string, c: char, n: nat, b: string)
    requires Blanks(a) && Blanks(b) && n > 0 && !IsWs(c)
    ensures Trimmed(a + Run(c, n) + b) == Run(c, n)
  {
    assert a + Run(c, n) + b == a + (Run(c, n) + b);
    SkipsBlanks(a, Run(c, n) + b);
    DropsBlanks(Run(c, n), b);
  }

  /** `^\s*(-{3,}|\*{3,}|_{3,})\s*$`: a rule. */
  lemma RuleIff(l: string)
    ensures IsHr(l) <==> exists c, n :: (c == '-' || c == '*' || c == '_') && n >= 3 && RuleOf(l, c, n)
  {
    hide Trimmed;
    var t := Trimmed(l);
    if IsHr(l) {
      var a, b := TrimmedParts(l);
      assert forall k :: 0 <= k < |t| ==> t[k] in t;
      assert t == Run(t[0], |t|);
      assert RuleOf(l, t[0], |t|);
    }
    if c, n :| (c == '-' || c == '*' || c == '_') && n >= 3 && RuleOf(l, c, n) {
      var a, b :| Blanks(a) && Blanks(b) && l == a + Run(c, n) + b;
      TrimmedRun(a, c, n, b);
    }
  }

  ghost predicate RuleOf(l: string, c: char, n: nat) {
    exists a, b :: Blanks(a) && Blanks(b) && l == a + Run(c, n) + b
  }

  /** Trimming takes the blanks at both ends, and nothing else. */
  lemma TrimmedIs(a: string, t: string, b: string)
    requires Blanks(a) && Blanks(b) && (t != "" ==> !IsWs(t[0]) && !IsWs(t[|t| - 1]))
    ensures Trimmed(a + t + b) == t
  {
    if t == "" {
      assert a + t + b == (a + b) + "";
      SkipsBlanks(a + b, "");
    } else {
      assert a + t + b == a + (t + b);
      SkipsBlanks(a, t + b);
      DropsBlanks(t, b);
    }
  }

  /** The block a line opens goes by the first of these tests that it passes. */
  lemma FirstTestWins(lines: seq<string>, i: nat)
    requires i < |lines| && NextBlock(lines, i).Some?
    ensures var l, node := lines[i], NextBlock(lines, i).value.node;
      if IsBlankLine(l) then node.Skipped?
      else if FenceMarker(l).Some? then node.Code?
      else if IsHr(l) then node.Rule?
      else if OpensHeading(l) then node.Heading?
      else if IsQuote(l) then node.Quote?
      else if IsTableRow(l) then node.Table?
      else if OpensItem(l) then node.Item?
      else node.Paragraph?
  {
    hide IsBlankLine, FenceMarker, IsHr, OpensHeading, IsQuote, TableCells, OpensItem, SpanEnd;
  }
}
