/** Names of connector tools in the tool registry. */
module ToolNames {
  import opened Options
  import opened Text

  const PREFIX: string := "connector_"

  predicate LegalChar(c: char) {
    'a' <= c <= 'z' || 'A' <= c <= 'Z' || '0' <= c <= '9' || c == '_' || c == '-'
  }

  /** What function names may be made of. */
  predicate Legal(name: string) {
    name != "" && forall c :: c in name ==> LegalChar(c)
  }

  function SanitizeToolName(name: string): string {
    if name == "" then "tool"
    else seq(|name|, i requires 0 <= i < |name| => if LegalChar(name[i]) then name[i] else '_')
  }

  function Take8(id: string): string {
    if |id| <= 8 then id else id[..8]
  }

  function GlobalToolName(id: string, tool: string): string {
    PREFIX + Take8(id) + "_" + SanitizeToolName(tool)
  }

  function Utf8Bytes(c: char): nat {
    if c as int < 0x80 then 1 else if c as int < 0x800 then 2 else if c as int < 0x10000 then 3 else 4
  }

  /** `str::len`: the length in bytes. */
  function Utf8Len(s: string): nat {
    if s == "" then 0 else Utf8Bytes(s[0]) + Utf8Len(s[1..])
  }

  datatype Parsed = Parsed(prefix: string, tool: string)

  function ParseGlobalToolName(global: string): Option<Parsed> {
    if !(PREFIX <= global) then None
    else
      var rest := global[|PREFIX|..];
      match Find(rest, "_")
      case None => None
      case Some(i) => if Utf8Len(rest[..i]) != 8 then None else Some(Parsed(rest[..i], rest[i + 1..]))
  }

  /** Sanitizing gives a legal name, and changes nothing else than illegal names. */
  lemma SanitizedIsLegal(name: string)
    ensures Legal(SanitizeToolName(name))
    ensures SanitizeToolName(name) == name <==> Legal(name)
  {
  }

  /** ASCII letters and digits, `_` and `-`, by their codes. */
  predicate Kept(c: char) {
    var n := c as int;
    0x61 <= n <= 0x7A || 0x41 <= n <= 0x5A || 0x30 <= n <= 0x39 || n == 0x5F || n == 0x2D
  }

  /** Character by character: what is kept stays, any other character becomes an underscore. */
  lemma SanitizedChars(name: string)
    requires name != ""
    ensures |SanitizeToolName(name)| == |name|
    ensures forall i :: 0 <= i < |name| ==> SanitizeToolName(name)[i] == if Kept(name[i]) then name[i] else '_'
  {
  }

  /** A global name is `connector_`, eight characters of the id or all it has, an underscore, and the sanitized name. */
  lemma GlobalNameIs(id: string, tool: string)
    ensures var n := if |id| < 8 then |id| else 8;
      GlobalToolName(id, tool) == "connector_" + id[..n] + "_" + if tool == "" then "tool" else SanitizeToolName(tool)
  {
    assert id[..|id|] == id;
  }

  lemma PlainWord()
    ensures Legal("get_weather")
  {
    var word := "get_weather";
    forall c | c in word ensures LegalChar(c) { var i :| 0 <= i < |word| && word[i] == c; }
  }

  lemma GlobalNameExample()
    ensures GlobalToolName("01234567-89ab-cdef-0123-456789abcdef", "get_weather") == "connector_01234567_get_weather"
  {
    hide Legal, SanitizeToolName;
    PlainWord();
    SanitizedIsLegal("get_weather");
    assert "01234567-89ab-cdef-0123-456789abcdef"[..8] == "01234567";
  }

  lemma FindUnderscore(prefix: string, tool: string)
    requires '_' !in prefix
    ensures Find(prefix + "_" + tool, "_") == Some(|prefix|)
  {
    var s := prefix + "_" + tool;
    forall i | 0 <= i < |prefix| ensures !OccursAt(s, "_", i) {
      assert s[i..i + 1][0] == prefix[i];
    }
    assert s[|prefix|..|prefix| + 1] == "_";
    FindIs(s, "_", |prefix|);
  }

  /** The encoding of a character is the shortest that its code point fits in (section 3 of RFC 3629). */
  lemma Utf8Is(c: char)
    ensures var n, limits := Utf8Bytes(c), [0x80, 0x800, 0x1_0000, 0x11_0000];
      1 <= n <= 4 && c as int < limits[n - 1] && (n > 1 ==> limits[n - 2] <= c as int)
  {
  }

  lemma PutTogether(prefix: string, tool: string)
    requires '_' !in prefix && Utf8Len(prefix) == 8
    ensures ParseGlobalToolName("connector_" + prefix + "_" + tool) == Some(Parsed(prefix, tool))
  {
    hide Utf8Len;
    FindUnderscore(prefix, tool);
    var rest := prefix + "_" + tool;
    assert PREFIX + rest == "connector_" + prefix + "_" + tool && (PREFIX + rest)[|PREFIX|..] == rest;
    assert rest[..|prefix|] == prefix && rest[|prefix| + 1..] == tool;
  }

  lemma TakenApart(global: string)
    requires ParseGlobalToolName(global).Some?
    ensures var p := ParseGlobalToolName(global).value;
      global == "connector_" + p.prefix + "_" + p.tool && '_' !in p.prefix && Utf8Len(p.prefix) == 8
  {
    hide Utf8Len;
    var rest, p := global[|PREFIX|..], ParseGlobalToolName(global).value;
    var n := |p.prefix|;
    assert global == PREFIX + rest && rest[n..n + 1] == "_";
    assert rest == p.prefix + "_" + p.tool;
    forall i | 0 <= i < n ensures p.prefix[i] != '_' {
      assert rest[i..i + 1] != "_" by { assert !OccursAt(rest, "_", i); }
      assert rest[i..i + 1] == [p.prefix[i]];
    }
    assert global == PREFIX + p.prefix + "_" + p.tool;
  }

  /** Any name parses exactly when it is put together like a global name, from a prefix of eight bytes. */
  lemma ParseIff(global: string, prefix: string, tool: string)
    ensures ParseGlobalToolName(global) == Some(Parsed(prefix, tool)) <==>
      global == "connector_" + prefix + "_" + tool && '_' !in prefix && Utf8Len(prefix) == 8
  {
    if ParseGlobalToolName(global).Some? { TakenApart(global); }
    if '_' !in prefix && Utf8Len(prefix) == 8 { PutTogether(prefix, tool); }
    hide ParseGlobalToolName, Utf8Len;
  }

  /** The exact ids whose global names parse back to the id's prefix and the sanitized name. */
  lemma ParseBack(id: string, tool: string)
    ensures ParseGlobalToolName(GlobalToolName(id, tool)) == Some(Parsed(Take8(id), SanitizeToolName(tool)))
      <==> '_' !in Take8(id) && Utf8Len(Take8(id)) == 8
  {
    hide SanitizeToolName, Take8, Utf8Len;
    var p, t := Take8(id), SanitizeToolName(tool);
    var rest := p + "_" + t;
    assert GlobalToolName(id, tool) == PREFIX + rest;
    assert (PREFIX + rest)[|PREFIX|..] == rest;
    if '_' !in p {
      FindUnderscore(p, t);
      assert rest[..|p|] == p && rest[|p| + 1..] == t;
    } else {
      FindInside(p, t);
    }
  }

  lemma FindInside(prefix: string, tool: string)
    requires '_' in prefix
    ensures var r := Find(prefix + "_" + tool, "_"); r.Some? && r.value < |prefix|
  {
    var s := prefix + "_" + tool;
    var j :| 0 <= j < |prefix| && prefix[j] == '_';
    assert s[j..j + 1] == "_";
    assert OccursAt(s, "_", j);
  }

  lemma LongName(id: string, tool: string)
    requires |id| >= 8
    ensures var name := GlobalToolName(id, tool);
      |name| >= 19 && name[10..18] == id[..8] && name[19..] == SanitizeToolName(tool)
    ensures GlobalToolName(id, tool) == PREFIX + id[..8] + "_" + SanitizeToolName(tool)
  {
    hide SanitizeToolName;
    assert Take8(id) == id[..8];
    assert GlobalToolName(id, tool)[10..18] == id[..8];
  }

  /** For ids of eight characters or more, two tools share a name exactly when both parts agree. */
  lemma CollideIff(id: string, tool: string, id': string, tool': string)
    requires |id| >= 8 && |id'| >= 8
    ensures GlobalToolName(id, tool) == GlobalToolName(id', tool')
      <==> id[..8] == id'[..8] && SanitizeToolName(tool) == SanitizeToolName(tool')
  {
    hide GlobalToolName, SanitizeToolName;
    LongName(id, tool);
    LongName(id', tool');
  }
}
