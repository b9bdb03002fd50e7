/** The string operations of the Rust and JavaScript standard libraries that the models share. */
module Text {
  import opened Options

  /** Unicode White_Space, as `char::is_whitespace` has it. */
  predicate IsSpace(c: char) {
    || '\U{0009}' <= c <= '\U{000D}' || c == ' ' || c == '\U{0085}' || c == '\U{00A0}' || c == '\U{1680}'
    || '\U{2000}' <= c <= '\U{200A}' || c == '\U{2028}' || c == '\U{2029}' || c == '\U{202F}' || c == '\U{205F}'
    || c == '\U{3000}'
  }

  /** The same by code point, as the Unicode property lists them. */
  lemma SpaceIs(c: char)
    ensures IsSpace(c) <==> c as int in {0x09, 0x0A, 0x0B, 0x0C, 0x0D, 0x20, 0x85, 0xA0, 0x1680, 0x2000, 0x2001, 0x2002,
      0x2003, 0x2004, 0x2005, 0x2006, 0x2007, 0x2008, 0x2009, 0x200A, 0x2028, 0x2029, 0x202F, 0x205F, 0x3000}
  {
  }

  function TrimStart(s: string): string {
    if s != [] && IsSpace(s[0]) then TrimStart(s[1..]) else s
  }

  function TrimEnd(s: string): string {
    if s != [] && IsSpace(s[|s| - 1]) then TrimEnd(s[..|s| - 1]) else s
  }

  /** `str::trim`. */
  function Trim(s: string): string {
    TrimEnd(TrimStart(s))
  }

  /** `s.trim().is_empty()`. */
  predicate IsBlank(s: string) {
    forall c :: c in s ==> IsSpace(c)
  }

  lemma {:induction false} TrimEndBlank(s: string)
    ensures TrimEnd(s) == "" <==> IsBlank(s)
  {
    if s != [] && IsSpace(s[|s| - 1]) {
      TrimEndBlank(s[..|s| - 1]);
      assert s == s[..|s| - 1] + [s[|s| - 1]];
    }
  }

  /** The blank strings are those that trim to nothing. */
  lemma {:induction false} TrimBlank(s: string)
    ensures Trim(s) == "" <==> IsBlank(s)
  {
    if s != [] && IsSpace(s[0]) {
      TrimBlank(s[1..]);
      assert s == [s[0]] + s[1..];
    } else {
      TrimEndBlank(s);
    }
  }

  /** `str::split` at a character. */
  function Split(s: string, c: char): (pieces: seq<string>)
    ensures |pieces| > 0
  {
    if s == [] then [""]
    else
      var rest := Split(s[1..], c);
      if s[0] == c then [""] + rest else [[s[0]] + rest[0]] + rest[1..]
  }

  /** `slice::join`. */
  function Join(pieces: seq<string>, sep: string): string {
    if |pieces| == 0 then ""
    else if |pieces| == 1 then pieces[0]
    else pieces[0] + sep + Join(pieces[1..], sep)
  }

  lemma {:induction false} SplitFree(s: string, c: char)
    requires c !in s
    ensures Split(s, c) == [s]
  {
    if s != [] {
      assert s[0] in s && s == [s[0]] + s[1..];
      SplitFree(s[1..], c);
    }
  }

  /** Two lists of pieces laid end to end, the seam closed. */
  function Fuse(a: seq<string>, b: seq<string>): seq<string>
    requires |a| > 0 && |b| > 0
  {
    a[..|a| - 1] + [a[|a| - 1] + b[0]] + b[1..]
  }

  lemma FuseEmpty(pieces: seq<string>)
    requires |pieces| > 0
    ensures Fuse([""], pieces) == pieces
  {
    assert "" + pieces[0] == pieces[0];
    assert pieces == [pieces[0]] + pieces[1..];
  }

  lemma FuseCons(h: string, a: seq<string>, b: seq<string>)
    requires |a| > 0 && |b| > 0
    ensures Fuse([h] + a, b) == [h] + Fuse(a, b)
  {
  }

  lemma FuseHead(x: char, a: seq<string>, b: seq<string>)
    requires |a| > 0 && |b| > 0
    ensures Fuse([[x] + a[0]] + a[1..], b) == [[x] + Fuse(a, b)[0]] + Fuse(a, b)[1..]
  {
    if |a| == 1 {
      assert [x] + (a[0] + b[0]) == ([x] + a[0]) + b[0];
    } else {
      FuseCons([x] + a[0], a[1..], b);
      FuseCons(a[0], a[1..], b);
      assert [a[0]] + a[1..] == a;
    }
  }

  /** Splitting is local: the pieces of `a + b` are those of `a` and of `b`, with the two at the seam fused. */
  lemma {:induction false} SplitConcat(a: string, b: string, c: char)
    ensures Split(a + b, c) == Fuse(Split(a, c), Split(b, c))
  {
    if a == [] {
      assert a + b == b;
      FuseEmpty(Split(b, c));
    } else {
      assert (a + b)[1..] == a[1..] + b;
      SplitConcat(a[1..], b, c);
      if a[0] == c {
        FuseCons("", Split(a[1..], c), Split(b, c));
      } else {
        FuseHead(a[0], Split(a[1..], c), Split(b, c));
      }
    }
  }

  lemma {:induction false} SplitJoin(pieces: seq<string>, c: char)
    requires |pieces| > 0 && forall p :: p in pieces ==> c !in p
    ensures Split(Join(pieces, [c]), c) == pieces
  {
    SplitFree(pieces[0], c);
    if |pieces| > 1 {
      SplitJoin(pieces[1..], c);
      var tail := Join(pieces[1..], [c]);
      assert pieces[0] + [c] + tail == pieces[0] + ([c] + tail);
      assert ([c] + tail)[1..] == tail;
      assert Split([c] + tail, c) == [""] + pieces[1..];
      SplitConcat(pieces[0], [c] + tail, c);
      assert pieces[0] + "" == pieces[0];
      assert Fuse([pieces[0]], [""] + pieces[1..]) == pieces;
    }
  }

  lemma {:induction false} SplitPiecesFree(s: string, c: char)
    ensures forall p :: p in Split(s, c) ==> c !in p && forall x :: x in p ==> x in s
  {
    if s != [] {
      SplitPiecesFree(s[1..], c);
      var rest := Split(s[1..], c);
      assert rest[0] in rest;
    }
  }

  predicate OccursAt(s: string, pat: string, i: int) {
    0 <= i <= |s| - |pat| && s[i..i + |pat|] == pat
  }

  function FindFrom(s: string, pat: string, i: nat): (r: Option<nat>)
    ensures r.Some? ==> i <= r.value && OccursAt(s, pat, r.value) && forall j :: i <= j < r.value ==>
      !OccursAt(s, pat, j)
    ensures r.None? ==> forall j :: i <= j ==> !OccursAt(s, pat, j)
    decreases |s| - i
  {
    if i + |pat| > |s| then None
    else if OccursAt(s, pat, i) then Some(i)
    else FindFrom(s, pat, i + 1)
  }

  /** `str::find`: the first occurrence. */
  function Find(s: string, pat: string): (r: Option<nat>)
    ensures r.Some? ==> OccursAt(s, pat, r.value) && forall j :: 0 <= j < r.value ==> !OccursAt(s, pat, j)
    ensures r.None? ==> forall j :: !OccursAt(s, pat, j)
  {
    FindFrom(s, pat, 0)
  }

  lemma FindIs(s: string, pat: string, i: nat)
    requires OccursAt(s, pat, i) && forall j :: 0 <= j < i ==> !OccursAt(s, pat, j)
    ensures Find(s, pat) == Some(i)
  {
  }

  predicate IsDigit(c: char) {
    '0' <= c <= '9'
  }

  predicate AllDigits(s: string) {
    forall c :: c in s ==> IsDigit(c)
  }

  function DigitsValue(s: string): (n: nat)
    requires AllDigits(s)
  {
    if s == [] then 0
    else
      assert s[|s| - 1] in s;
      assert IsDigit(s[|s| - 1]);
      10 * DigitsValue(s[..|s| - 1]) + (s[|s| - 1] as int - '0' as int)
  }

  const U32_LIMIT: int := 0x1_0000_0000

  /** `str::parse::<u32>`: an optional plus sign and decimal digits, below 2^32. */
  function ParseU32(s: string): Option<nat> {
    var digits := if s != [] && s[0] == '+' then s[1..] else s;
    if digits != [] && AllDigits(digits) && DigitsValue(digits) < U32_LIMIT then Some(DigitsValue(digits)) else None
  }

  /** What parses, and as what: decimal digits, at least one, with a plus sign before them or not, below 2^32. */
  lemma ParseU32Iff(s: string, n: nat)
    ensures ParseU32(s) == Some(n) <==>
      n < 0x1_0000_0000 && exists d :: d != "" && AllDigits(d) && (s == d || s == "+" + d) && DigitsValue(d) == n
  {
    var digits := if s != [] && s[0] == '+' then s[1..] else s;
    if ParseU32(s) == Some(n) {
      assert s == digits || s == "+" + digits;
    }
    if d :| d != "" && AllDigits(d) && (s == d || s == "+" + d) && DigitsValue(d) == n && n < U32_LIMIT {
      assert d[0] in d && IsDigit(d[0]);
      assert ("+" + d)[1..] == d;
      assert digits == d;
    }
  }

  /** `u32::to_string`. */
  function ToDecimal(n: nat): (s: string)
    ensures |s| > 0 && AllDigits(s)
  {
    var last := [('0' as int + n % 10) as char];
    if n < 10 then last else ToDecimal(n / 10) + last
  }

  lemma {:induction false} ParseDecimal(n: nat)
    ensures DigitsValue(ToDecimal(n)) == n
    ensures n < U32_LIMIT ==> ParseU32(ToDecimal(n)) == Some(n)
  {
    var last := [('0' as int + n % 10) as char];
    if n >= 10 {
      ParseDecimal(n / 10);
      assert (ToDecimal(n / 10) + last)[..|ToDecimal(n / 10)|] == ToDecimal(n / 10);
    } else {
      assert DigitsValue(last[..0]) == 0;
    }
    assert ToDecimal(n)[0] in ToDecimal(n);
  }

  function UpperChar(c: char): char {
    if 'a' <= c <= 'z' then (c as int - 32) as char else c
  }

  /** `str::to_uppercase`, on ASCII. */
  function ToUpper(s: string): (r: string)
    ensures |r| == |s|
  {
    seq(|s|, i requires 0 <= i < |s| => UpperChar(s[i]))
  }

  /** Character by character: the small ASCII letters become capitals, any other character stays. */
  lemma UpperIs(s: string, i: nat)
    requires i < |s|
    ensures ToUpper(s)[i] as int == s[i] as int - if 0x61 <= s[i] as int <= 0x7A then 0x20 else 0
  {
  }
}
