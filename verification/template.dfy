/** `{{param}}` templates of API connector tools. */
module Template {
  import opened Options
  import opened Text

  type Args = map<string, string>

  datatype Rendered = Ok(text: string) | Missing(name: string)

  /** A template is literal text and holes; a hole keeps the text between its braces. */
  datatype Piece = Literal(text: string) | Hole(raw: string)

  /** The template from its start to its end, cut at `{{` and the next `}}`. An unclosed `{{` is text. */
  function Pieces(t: string): seq<Piece>
    decreases |t|
  {
    match Find(t, "{{")
    case None => [Literal(t)]
    case Some(start) =>
      var after := t[start + 2..];
      match Find(after, "}}")
      case None => [Literal(t)]
      case Some(end) => [Literal(t[..start]), Hole(after[..end])] + Pieces(after[end + 2..])
  }

  /** The text the pieces were cut from. */
  function Source(pieces: seq<Piece>): string {
    if pieces == [] then ""
    else (match pieces[0] case Literal(s) => s case Hole(raw) => "{{" + raw + "}}") + Source(pieces[1..])
  }

  lemma {:induction false} PiecesAreTheTemplate(t: string)
    ensures Source(Pieces(t)) == t
    decreases |t|
  {
    match Find(t, "{{")
    case None => SourceOfOne(t);
    case Some(start) =>
      var after := t[start + 2..];
      match Find(after, "}}")
      case None => SourceOfOne(t);
      case Some(end) =>
        PiecesAreTheTemplate(after[end + 2..]);
        SourceOfTwo(t[..start], after[..end], Pieces(after[end + 2..]));
        Glue(t, start, end);
  }

  lemma Glue(t: string, start: nat, end: nat)
    requires OccursAt(t, "{{", start) && OccursAt(t[start + 2..], "}}", end)
    ensures var after := t[start + 2..]; t[..start] + "{{" + after[..end] + "}}" + after[end + 2..] == t
  {
    var after := t[start + 2..];
    CutAt(t, "{{", start);
    CutAt(after, "}}", end);
    assert t[..start] + "{{" + (after[..end] + "}}" + after[end + 2..]) ==
      t[..start] + "{{" + after[..end] + "}}" + after[end + 2..];
  }

  lemma CutAt(s: string, pat: string, i: nat)
    requires OccursAt(s, pat, i)
    ensures s[..i] + pat + s[i + |pat|..] == s
  {
    assert s[..i] + s[i..i + |pat|] == s[..i + |pat|];
  }

  lemma SourceOfOne(t: string)
    ensures Source([Literal(t)]) == t
  {
    assert [Literal(t)][1..] == [];
  }

  lemma SourceOfTwo(a: string, raw: string, rest: seq<Piece>)
    ensures Source([Literal(a), Hole(raw)] + rest) == a + "{{" + raw + "}}" + Source(rest)
  {
    assert ([Literal(a), Hole(raw)] + rest)[1..] == [Hole(raw)] + rest;
    assert ([Hole(raw)] + rest)[1..] == rest;
  }

  /** The names of the holes, in order. */
  function Names(pieces: seq<Piece>): seq<string> {
    if pieces == [] then []
    else (if pieces[0].Hole? then [Trim(pieces[0].raw)] else []) + Names(pieces[1..])
  }

  /** Literal text interleaved with argument values, left to right, up to the first name without one. */
  function Fill(pieces: seq<Piece>, args: Args): Rendered {
    if pieces == [] then Ok("")
    else
      match pieces[0]
      case Literal(s) => Append(s, Fill(pieces[1..], args))
      case Hole(raw) =>
        if Trim(raw) in args then Append(args[Trim(raw)], Fill(pieces[1..], args)) else Missing(Trim(raw))
  }

  function Append(s: string, r: Rendered): Rendered {
    match r
    case Ok(t) => Ok(s + t)
    case Missing(name) => r
  }

  lemma AppendTwice(a: string, b: string, r: Rendered)
    ensures Append(a, Append(b, r)) == Append(a + b, r)
  {
    if r.Ok? { assert a + (b + r.text) == (a + b) + r.text; }
  }

  lemma FillLiteral(s: string, args: Args)
    ensures Fill([Literal(s)], args) == Ok(s)
  {
    assert [Literal(s)][1..] == [] && s + "" == s;
  }

  lemma FillTwo(a: string, raw: string, rest: seq<Piece>, args: Args)
    ensures Fill([Literal(a), Hole(raw)] + rest, args) ==
      if Trim(raw) in args then Append(a + args[Trim(raw)], Fill(rest, args)) else Missing(Trim(raw))
  {
    assert ([Literal(a), Hole(raw)] + rest)[1..] == [Hole(raw)] + rest;
    assert ([Hole(raw)] + rest)[1..] == rest;
    if Trim(raw) in args { AppendTwice(a, args[Trim(raw)], Fill(rest, args)); }
  }

  lemma NamesOfTwo(a: string, raw: string, rest: seq<Piece>)
    ensures Names([Literal(a), Hole(raw)] + rest) == [Trim(raw)] + Names(rest)
  {
    assert ([Literal(a), Hole(raw)] + rest)[1..] == [Hole(raw)] + rest;
    assert ([Hole(raw)] + rest)[1..] == rest;
  }

  /** What one round of the loop does. */
  lemma FillStep(t: string, start: nat, end: nat, args: Args)
    requires Find(t, "{{") == Some(start) && Find(t[start + 2..], "}}") == Some(end)
    ensures var key := Trim(t[start + 2..][..end]);
      var rest := Fill(Pieces(t[start + 2..][end + 2..]), args);
      Fill(Pieces(t), args) == if key in args then Append(t[..start] + args[key], rest) else Missing(key)
  {
    hide Fill, Trim, Find;
    FillTwo(t[..start], t[start + 2..][..end], Pieces(t[start + 2..][end + 2..]), args);
  }

  lemma FillStepAfter(out: string, t: string, start: nat, end: nat, args: Args)
    requires Find(t, "{{") == Some(start) && Find(t[start + 2..], "}}") == Some(end)
    ensures var key := Trim(t[start + 2..][..end]);
      var rest := Fill(Pieces(t[start + 2..][end + 2..]), args);
      Append(out, Fill(Pieces(t), args)) ==
        if key in args then Append(out + t[..start] + args[key], rest) else Missing(key)
  {
    hide Fill, Trim, Find, Pieces;
    FillStep(t, start, end, args);
    var key := Trim(t[start + 2..][..end]);
    if key in args {
      AppendTwice(out, t[..start] + args[key], Fill(Pieces(t[start + 2..][end + 2..]), args));
      assert out + (t[..start] + args[key]) == out + t[..start] + args[key];
    }
  }

  lemma FillText(out: string, t: string, args: Args)
    requires Find(t, "{{").None? || Find(t[Find(t, "{{").value + 2..], "}}").None?
    ensures Append(out, Fill(Pieces(t), args)) == Ok(out + t)
  {
    FillLiteral(t, args);
  }

  method RenderTemplate(template: string, args: Args) returns (r: Rendered)
    ensures r == Fill(Pieces(template), args)
  {
    hide Fill, Pieces, Trim, Append;
    AppendNothing(Fill(Pieces(template), args));
    var out, rest := "", template;
    var open := Find(rest, "{{");
    while open.Some?
      invariant open == Find(rest, "{{")
      invariant Fill(Pieces(template), args) == Append(out, Fill(Pieces(rest), args))
      decreases |rest|
    {
      var start := open.value;
      var after := rest[start + 2..];
      var close := Find(after, "}}");
      if close.None? {
        FillText(out, rest, args);
        assert out + rest[..start] + rest[start..] == out + rest;
        return Ok(out + rest[..start] + rest[start..]);
      }
      var key := Trim(after[..close.value]);
      FillStepAfter(out, rest, start, close.value, args);
      if key !in args {
        return Missing(key);
      }
      out := out + rest[..start] + args[key];
      rest := after[close.value + 2..];
      open := Find(rest, "{{");
    }
    FillText(out, rest, args);
    return Ok(out + rest);
  }

  lemma AppendNothing(r: Rendered)
    ensures Append("", r) == r
  {
    if r.Ok? { assert "" + r.text == r.text; }
  }

  method TemplatePlaceholders(template: string) returns (names: seq<string>)
    ensures names == Names(Pieces(template))
  {
    names := [];
    var rest := template;
    var open := Find(rest, "{{");
    assert [] + Names(Pieces(template)) == Names(Pieces(template));
    while open.Some?
      invariant open == Find(rest, "{{")
      invariant Names(Pieces(template)) == names + Names(Pieces(rest))
      decreases |rest|
    {
      var after := rest[open.value + 2..];
      var close := Find(after, "}}");
      if close.None? {
        NamesOfText(rest);
        return names;
      }
      NamesOfTwo(rest[..open.value], after[..close.value], Pieces(after[close.value + 2..]));
      assert names + ([Trim(after[..close.value])] + Names(Pieces(after[close.value + 2..])))
          == (names + [Trim(after[..close.value])]) + Names(Pieces(after[close.value + 2..]));
      names := names + [Trim(after[..close.value])];
      rest := after[close.value + 2..];
      open := Find(rest, "{{");
    }
    NamesOfText(rest);
  }

  lemma NamesOfText(t: string)
    ensures Names([Literal(t)]) == []
  {
    assert [Literal(t)][1..] == [];
  }

  ghost predicate Covers(args: Args, names: seq<string>) {
    forall n :: n in names ==> n in args
  }

  /** The first name in the list without a value. */
  ghost predicate FirstWithout(names: seq<string>, args: Args, name: string) {
    exists k :: 0 <= k < |names| && names[k] == name && name !in args && Covers(args, names[..k])
  }

  /** Rendering succeeds exactly when every placeholder has a value; otherwise it names the first without. */
  lemma {:induction false} RendersIff(pieces: seq<Piece>, args: Args)
    ensures Fill(pieces, args).Ok? <==> Covers(args, Names(pieces))
    ensures Fill(pieces, args).Missing? ==> FirstWithout(Names(pieces), args, Fill(pieces, args).name)
  {
    hide Trim, FirstWithout, Covers;
    if pieces == [] {
      CoversAll(args, []);
    } else {
      RendersIff(pieces[1..], args);
      if pieces[0].Hole? {
        FirstWithoutCons(Trim(pieces[0].raw), Names(pieces[1..]), args);
      } else {
        assert Names(pieces) == Names(pieces[1..]);
      }
    }
  }

  lemma CoversAll(args: Args, names: seq<string>)
    requires names == []
    ensures Covers(args, names)
  {
  }

  lemma FirstWithoutCons(key: string, names: seq<string>, args: Args)
    ensures Covers(args, [key] + names) <==> key in args && Covers(args, names)
    ensures key !in args ==> FirstWithout([key] + names, args, key)
    ensures key in args ==> forall n :: FirstWithout(names, args, n) ==> FirstWithout([key] + names, args, n)
  {
    var all := [key] + names;
    assert key in all && forall n :: n in names ==> n in all;
    if key !in args {
      assert all[0] == key && Covers(args, all[..0]);
    } else {
      forall n | FirstWithout(names, args, n) ensures FirstWithout(all, args, n) {
        var k :| 0 <= k < |names| && names[k] == n && n !in args && Covers(args, names[..k]);
        assert all[k + 1] == n && all[..k + 1] == [key] + names[..k];
      }
    }
  }

  // ---- validation at save time ----

  datatype ApiTool = ApiTool(name: string, url: string, bodyTemplate: Option<string>, declared: seq<string>)

  datatype Validation = Valid | EmptyName | BadUrl | Undeclared(name: string)

  function AllNames(tool: ApiTool): seq<string> {
    Names(Pieces(tool.url)) + (if tool.bodyTemplate.Some? then Names(Pieces(tool.bodyTemplate.value)) else [])
  }

  predicate AllDeclared(tool: ApiTool) {
    forall n :: n in AllNames(tool) ==> n in tool.declared
  }

  method ValidateApiTool(tool: ApiTool) returns (v: Validation)
    ensures v == EmptyName <==> IsBlank(tool.name)
    ensures v == BadUrl <==> !IsBlank(tool.name) && !("http://" <= tool.url) && !("https://" <= tool.url)
    ensures v == Valid <==>
      !IsBlank(tool.name) && ("http://" <= tool.url || "https://" <= tool.url) && AllDeclared(tool)
    ensures v.Undeclared? ==> v.name in AllNames(tool) && v.name !in tool.declared
  {
    hide Trim, Names, Pieces;
    TrimBlank(tool.name);
    if Trim(tool.name) == "" { return EmptyName; }
    if !("http://" <= tool.url) && !("https://" <= tool.url) { return BadUrl; }
    var names := TemplatePlaceholders(tool.url);
    if tool.bodyTemplate.Some? {
      var more := TemplatePlaceholders(tool.bodyTemplate.value);
      names := names + more;
    }
    assert names == AllNames(tool);
    for k := 0 to |names|
      invariant forall j :: 0 <= j < k ==> names[j] in tool.declared
    {
      if names[k] !in tool.declared {
        assert names[k] in AllNames(tool);
        return Undeclared(names[k]);
      }
    }
    return Valid;
  }

  /** A tool that passed validation renders its URL and its body for any arguments that cover what it declares. */
  lemma ValidToolRenders(tool: ApiTool, args: Args)
    requires AllDeclared(tool) && Covers(args, tool.declared)
    ensures Fill(Pieces(tool.url), args).Ok?
    ensures tool.bodyTemplate.Some? ==> Fill(Pieces(tool.bodyTemplate.value), args).Ok?
  {
    hide Fill, Pieces, Names;
    RendersIff(Pieces(tool.url), args);
    assert Covers(args, AllNames(tool));
    if tool.bodyTemplate.Some? { RendersIff(Pieces(tool.bodyTemplate.value), args); }
  }

  // ---- what the cut means ----

  /** The pieces that scanning can give: a hole opens at the first `{{` and closes at the first `}}` after it. */
  predicate WellCut(pieces: seq<Piece>) {
    |pieces| > 0 && pieces[0].Literal? && (
      if |pieces| == 1 then Unopened(pieces[0].text)
      else
        && |pieces| > 2 && pieces[1].Hole? && Find(pieces[0].text + "{{", "{{") == Some(|pieces[0].text|)
        && Find(pieces[1].raw + "}}", "}}") == Some(|pieces[1].raw|) && WellCut(pieces[2..]))
  }

  predicate Unopened(t: string) {
    Find(t, "{{").None? || Find(t[Find(t, "{{").value + 2..], "}}").None?
  }

  lemma FindEarlier(s: string, pat: string, tail: string)
    requires Find(s + pat, pat) == Some(|s|)
    ensures Find(s + pat + tail, pat) == Some(|s|)
    ensures (s + pat + tail)[..|s|] == s && (s + pat + tail)[|s| + |pat|..] == tail
  {
    var t := s + pat + tail;
    forall i | 0 <= i < |s| ensures !OccursAt(t, pat, i) {
      assert !OccursAt(s + pat, pat, i);
      assert t[i..i + |pat|] == (s + pat)[i..i + |pat|];
    }
    assert t[|s|..|s| + |pat|] == pat;
    FindIs(t, pat, |s|);
  }

  lemma FindLater(t: string, pat: string, i: nat)
    requires Find(t, pat) == Some(i)
    ensures Find(t[..i] + pat, pat) == Some(i)
  {
    var s := t[..i] + pat;
    assert OccursAt(t, pat, i);
    assert s == t[..i + |pat|];
    forall j | 0 <= j < i ensures !OccursAt(s, pat, j) {
      assert !OccursAt(t, pat, j);
      assert s[j..j + |pat|] == t[j..j + |pat|];
    }
    FindIs(s, pat, i);
  }

  /** Cutting gives well-cut pieces, and well-cut pieces are what their text is cut into. */
  lemma {:induction false} PiecesAreWellCut(t: string)
    ensures WellCut(Pieces(t))
    decreases |t|
  {
    match Find(t, "{{")
    case None =>
    case Some(start) =>
      var after := t[start + 2..];
      match Find(after, "}}")
      case None =>
      case Some(end) =>
        var rest := Pieces(after[end + 2..]);
        PiecesAreWellCut(after[end + 2..]);
        FindLater(t, "{{", start);
        FindLater(after, "}}", end);
        assert ([Literal(t[..start]), Hole(after[..end])] + rest)[2..] == rest;
  }

  lemma PiecesOfTwo(a: string, raw: string, rest: string)
    requires Find(a + "{{", "{{") == Some(|a|) && Find(raw + "}}", "}}") == Some(|raw|)
    ensures Pieces(a + "{{" + raw + "}}" + rest) == [Literal(a), Hole(raw)] + Pieces(rest)
  {
    hide Find;
    var tail := raw + "}}" + rest;
    var t := a + "{{" + tail;
    assert a + "{{" + raw + "}}" + rest == t;
    FindEarlier(a, "{{", tail);
    FindEarlier(raw, "}}", rest);
  }

  lemma {:induction false} WellCutPiecesAreFound(pieces: seq<Piece>)
    requires WellCut(pieces)
    ensures Pieces(Source(pieces)) == pieces
    decreases |pieces|
  {
    hide Find;
    if |pieces| == 1 {
      assert pieces == [Literal(pieces[0].text)];
      SourceOfOne(pieces[0].text);
    } else {
      hide Pieces, Source;
      var a, raw, rest := pieces[0].text, pieces[1].raw, pieces[2..];
      assert pieces == [Literal(a), Hole(raw)] + rest;
      SourceOfTwo(a, raw, rest);
      WellCutPiecesAreFound(rest);
      PiecesOfTwo(a, raw, Source(rest));
    }
  }
}
