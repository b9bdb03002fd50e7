/** Translating a five-field cron expression, and what its day-of-week field denotes before and after. */
module Dow {
  import opened Options
  import opened Text

  // ---- the translation ----

  function RemapValue(val: string): string {
    match ParseU32(val)
    case Some(n) => ToDecimal((n + 1) % U32_LIMIT)
    case None => ToUpper(val)
  }

  function RemapItem(item: string): string {
    var parts := Split(item, '-');
    if '-' in item && |parts| == 2 then RemapValue(Trim(parts[0])) + "-" + RemapValue(Trim(parts[1]))
    else RemapValue(item)
  }

  function RemapItems(items: seq<string>): (r: seq<string>)
    ensures |r| == |items|
  {
    seq(|items|, i requires 0 <= i < |items| => RemapItem(Trim(items[i])))
  }

  /** The text before the first `/`, and the rest from that `/` on. */
  function AtSlash(s: string): (string, string) {
    match Find(s, "/")
    case Some(i) => (s[..i], s[i..])
    case None => (s, "")
  }

  function RemapDow(dow: string): string {
    if dow == "*" then "*"
    else
      var (rangePart, stepPart) := AtSlash(dow);
      Join(RemapItems(Split(rangePart, ',')), ",") + stepPart
  }

  function SplitWhitespace(s: string): seq<string> {
    if s == "" then []
    else if IsSpace(s[0]) then SplitWhitespace(s[1..])
    else
      var n := WordLength(s);
      [s[..n]] + SplitWhitespace(s[n..])
  }

  function WordLength(s: string): (n: nat)
    ensures n <= |s| && (s != "" && !IsSpace(s[0]) ==> n > 0)
    ensures forall c :: c in s[..n] ==> !IsSpace(c)
    ensures n < |s| ==> IsSpace(s[n])
  {
    if s == "" || IsSpace(s[0]) then 0
    else
      var n := WordLength(s[1..]);
      assert s[..n + 1] == [s[0]] + s[1..][..n];
      n + 1
  }

  function Convert5To7(expr: string): string {
    var parts := SplitWhitespace(expr);
    if |parts| != 5 then expr
    else Join(["0", parts[0], parts[1], parts[2], parts[3], RemapDow(parts[4]), "*"], " ")
  }

  // ---- what a day-of-week field denotes ----

  function NameIndex(name: string): Option<int> {
    if name == "SUN" then Some(0)
    else if name == "MON" then Some(1)
    else if name == "TUE" then Some(2)
    else if name == "WED" then Some(3)
    else if name == "THU" then Some(4)
    else if name == "FRI" then Some(5)
    else if name == "SAT" then Some(6)
    else None
  }

  /** A weekday by number or by name, where Sunday is number `base`. */
  function Weekday(tok: string, base: int): Option<int> {
    match ParseU32(tok)
    case Some(n) => if base <= n <= base + 6 then Some(n) else None
    case None =>
      match NameIndex(ToUpper(tok))
      case Some(i) => Some(base + i)
      case None => None
  }

  datatype DaySpan = Whole | Range(lo: int, hi: int) | Single(day: int)

  /** `*`, `a-b` or `d`. */
  function ParseSpan(body: string, base: int): Option<DaySpan> {
    var parts := Split(body, '-');
    if body == "*" then Some(Whole)
    else if |parts| == 2 then
      match (Weekday(parts[0], base), Weekday(parts[1], base))
      case (Some(a), Some(b)) => if a <= b then Some(Range(a, b)) else None
      case _ => None
    else
      match Weekday(body, base)
      case Some(d) => Some(Single(d))
      case None => None
  }

  predicate OnStep(d: int, lo: int, step: int)
    requires step > 0
  {
    (d - lo) % step == 0
  }

  function Every(lo: int, hi: int, step: int): set<int>
    requires step > 0
  {
    set d | lo <= d <= hi && OnStep(d, lo, step)
  }

  /** The days of a span, every `step`-th one; a step after a single day runs to the end of the week. */
  function SpanDays(span: DaySpan, step: Option<nat>, base: int): set<int>
    requires step.Some? ==> step.value > 0
  {
    match span
    case Whole => Every(base, base + 6, if step.Some? then step.value else 1)
    case Range(lo, hi) => Every(lo, hi, if step.Some? then step.value else 1)
    case Single(d) => if step.Some? then Every(d, base + 6, step.value) else {d}
  }

  function ItemDays(item: string, base: int): Option<set<int>> {
    var (body, step) := AtSlash(item);
    match ParseSpan(body, base)
    case None => None
    case Some(span) =>
      if step == "" then Some(SpanDays(span, None, base))
      else
        match ParseU32(step[1..])
        case Some(k) => if k == 0 then None else Some(SpanDays(span, Some(k), base))
        case None => None
  }

  function ListDays(items: seq<string>, base: int): Option<set<int>> {
    if items == [] then Some({}) else Union(ItemDays(items[0], base), ListDays(items[1..], base))
  }

  function Union(a: Option<set<int>>, b: Option<set<int>>): Option<set<int>> {
    if a.Some? && b.Some? then Some(a.value + b.value) else None
  }

  /** The weekdays of a field, with Sunday as day `base`; None for a malformed field. */
  function FieldDays(field: string, base: int): Option<set<int>> {
    ListDays(Split(field, ','), base)
  }

  function Shift(days: set<int>): set<int> {
    set d | d in days :: d + 1
  }

  // ---- tokens ----

  ghost predicate Plain(s: string) {
    s != "" && s != "*" && forall c :: c in s ==> c != ',' && c != '/' && c != '-' && !IsSpace(c)
  }

  lemma NamesArePlain(s: string)
    requires NameIndex(s).Some?
    ensures Plain(s) && ParseU32(s) == None && ToUpper(s) == s
  {
    assert !IsDigit(s[0]) && s[0] != '+' && s[0] in s;
  }

  lemma WeekdayShift(tok: string)
    requires Weekday(tok, 0).Some?
    ensures Plain(RemapValue(tok))
    ensures Weekday(RemapValue(tok), 1) == Some(Weekday(tok, 0).value + 1)
  {
    match ParseU32(tok)
    case Some(n) =>
      ParseDecimal(n + 1);
    case None =>
      NamesArePlain(ToUpper(tok));
  }

  lemma TrimNone(s: string)
    requires forall c :: c in s ==> !IsSpace(c)
    ensures Trim(s) == s
  {
  }

  // ---- items ----

  ghost predicate NoSpace(s: string) {
    forall c :: c in s ==> !IsSpace(c)
  }

  lemma {:induction false} DashSplit(s: string, c: char)
    ensures |Split(s, c)| > 1 <==> c in s
  {
    if s != "" {
      DashSplit(s[1..], c);
      assert s == [s[0]] + s[1..];
    }
  }

  function ShiftSpan(span: DaySpan): DaySpan {
    match span
    case Whole => Whole
    case Range(lo, hi) => Range(lo + 1, hi + 1)
    case Single(d) => Single(d + 1)
  }

  lemma DashedPair(a: string, b: string)
    requires Plain(a) && Plain(b)
    ensures Split(a + "-" + b, '-') == [a, b]
    ensures '-' in a + "-" + b && a + "-" + b != "*" && ',' !in a + "-" + b && '/' !in a + "-" + b
  {
    assert Join([a, b], "-") == a + "-" + b;
    SplitJoin([a, b], '-');
    assert (a + "-" + b)[|a|] == '-';
  }

  /** The two ends of a range item are weekdays. */
  lemma RangeEnds(body: string) returns (a: string, b: string)
    requires NoSpace(body) && body != "*" && |Split(body, '-')| == 2 && ParseSpan(body, 0).Some?
    ensures Weekday(a, 0).Some? && Weekday(b, 0).Some? && Weekday(a, 0).value <= Weekday(b, 0).value
    ensures ParseSpan(body, 0) == Some(Range(Weekday(a, 0).value, Weekday(b, 0).value))
    ensures RemapItem(body) == RemapValue(a) + "-" + RemapValue(b)
  {
    var parts := Split(body, '-');
    a, b := parts[0], parts[1];
    DashSplit(body, '-');
    SplitPiecesFree(body, '-');
    assert a in parts && b in parts;
    TrimNone(a);
    TrimNone(b);
  }

  lemma ParsePair(a: string, b: string, r: string, base: int)
    requires Plain(a) && Plain(b) && Weekday(a, base).Some? && Weekday(b, base).Some?
    requires Weekday(a, base).value <= Weekday(b, base).value && r == a + "-" + b
    ensures ParseSpan(r, base) == Some(Range(Weekday(a, base).value, Weekday(b, base).value))
    ensures ',' !in r && '/' !in r
  {
    DashedPair(a, b);
  }

  lemma RangeRemapped(body: string) returns (a: string, b: string, lo: int, hi: int)
    requires NoSpace(body) && body != "*" && |Split(body, '-')| == 2 && ParseSpan(body, 0).Some?
    ensures Plain(a) && Plain(b) && Weekday(a, 1) == Some(lo + 1) && Weekday(b, 1) == Some(hi + 1) && lo <= hi
    ensures RemapItem(body) == a + "-" + b && ParseSpan(body, 0) == Some(Range(lo, hi))
  {
    hide RemapItem, RemapValue, Weekday, ParseSpan;
    var x, y := RangeEnds(body);
    WeekdayShift(x);
    WeekdayShift(y);
    a, b, lo, hi := RemapValue(x), RemapValue(y), Weekday(x, 0).value, Weekday(y, 0).value;
  }

  lemma RangeShift(body: string)
    requires NoSpace(body) && body != "*" && |Split(body, '-')| == 2 && ParseSpan(body, 0).Some?
    ensures ParseSpan(RemapItem(body), 1) == Some(ShiftSpan(ParseSpan(body, 0).value))
    ensures ',' !in RemapItem(body) && '/' !in RemapItem(body)
  {
    hide RemapItem, Weekday;
    var a, b, lo, hi := RangeRemapped(body);
    ParsePair(a, b, RemapItem(body), 1);
  }

  lemma SingleShift(body: string)
    requires NoSpace(body) && body != "*" && |Split(body, '-')| != 2 && ParseSpan(body, 0).Some?
    ensures ParseSpan(RemapItem(body), 1) == Some(ShiftSpan(ParseSpan(body, 0).value))
    ensures ',' !in RemapItem(body) && '/' !in RemapItem(body)
  {
    WeekdayShift(body);
    SplitFree(RemapValue(body), '-');
  }

  lemma StarShift()
    ensures RemapItem("*") == "*"
  {
  }

  lemma SpanShift(body: string)
    requires NoSpace(body) && ParseSpan(body, 0).Some?
    ensures ParseSpan(RemapItem(body), 1) == Some(ShiftSpan(ParseSpan(body, 0).value))
    ensures ',' !in RemapItem(body) && '/' !in RemapItem(body)
  {
    if body == "*" { StarShift(); }
    else if |Split(body, '-')| == 2 { RangeShift(body); }
    else { SingleShift(body); }
  }

  lemma SlashAfterBody(body: string, step: string)
    requires '/' !in body && (step == "" || step[0] == '/')
    ensures AtSlash(body + step) == (body, step)
  {
    var s := body + step;
    if step == "" {
      assert s == body;
      forall i | 0 <= i < |s| ensures !OccursAt(s, "/", i) {
        assert s[i..i + 1] == [body[i]];
        assert body[i] in body;
      }
    } else {
      assert OccursAt(s, "/", |body|) by { assert s[|body|..|body| + 1] == [step[0]]; }
      forall i | 0 <= i < |body| ensures !OccursAt(s, "/", i) {
        assert s[i..i + 1] == [body[i]];
        assert body[i] in body;
      }
    }
  }

  lemma EveryShift(lo: int, hi: int, k: int)
    requires k > 0
    ensures Every(lo + 1, hi + 1, k) == Shift(Every(lo, hi, k))
  {
    forall d | d in Every(lo + 1, hi + 1, k)
      ensures d in Shift(Every(lo, hi, k))
    {
      assert OnStep(d - 1, lo, k);
      assert d - 1 in Every(lo, hi, k);
    }
  }

  lemma SpanDaysShift(span: DaySpan, step: Option<nat>)
    requires step.Some? ==> step.value > 0
    ensures SpanDays(ShiftSpan(span), step, 1) == Shift(SpanDays(span, step, 0))
  {
    var k := if step.Some? then step.value else 1;
    match span
    case Whole => EveryShift(0, 6, k);
    case Range(lo, hi) => EveryShift(lo, hi, k);
    case Single(d) => EveryShift(d, 6, k);
  }

  /** One list item, its body remapped and its step kept, denotes the shifted days. */
  lemma ItemShift(body: string, step: string)
    requires NoSpace(body) && '/' !in body && (step == "" || step[0] == '/')
    requires ItemDays(body + step, 0).Some?
    ensures ItemDays(RemapItem(Trim(body)) + step, 1) == Some(Shift(ItemDays(body + step, 0).value))
    ensures ',' !in RemapItem(Trim(body))
  {
    TrimNone(body);
    SlashAfterBody(body, step);
    SpanShift(body);
    SlashAfterBody(RemapItem(body), step);
    SpanDaysShift(ParseSpan(body, 0).value, if step == "" then None else ParseU32(step[1..]));
  }

  // ---- the whole field ----

  lemma {:induction false} ListDaysConcat(a: seq<string>, b: seq<string>, base: int)
    ensures ListDays(a + b, base) == Union(ListDays(a, base), ListDays(b, base))
  {
    if a == [] {
      assert a + b == b;
      UnionEmpty(ListDays(b, base));
    } else {
      assert (a + b)[1..] == a[1..] + b;
      ListDaysConcat(a[1..], b, base);
      UnionAssociates(ItemDays(a[0], base), ListDays(a[1..], base), ListDays(b, base));
    }
  }

  lemma UnionEmpty(a: Option<set<int>>)
    ensures Union(Some({}), a) == a && Union(a, Some({})) == a
  {
    if a.Some? {
      assert {} + a.value == a.value && a.value + {} == a.value;
    }
  }

  lemma UnionAssociates(a: Option<set<int>>, b: Option<set<int>>, c: Option<set<int>>)
    ensures Union(a, Union(b, c)) == Union(Union(a, b), c)
  {
    if a.Some? && b.Some? && c.Some? {
      assert a.value + (b.value + c.value) == (a.value + b.value) + c.value;
    }
  }

  ghost predicate Bodies(items: seq<string>) {
    forall p :: p in items ==> NoSpace(p) && '/' !in p
  }

  /** A list whose only step, if any, is on its last item. */
  lemma {:induction false} ListShift(bodies: seq<string>, step: string)
    requires |bodies| > 0 && Bodies(bodies) && (step == "" || step[0] == '/')
    requires ListDays(Fuse(bodies, [step]), 0).Some?
    ensures ListDays(Fuse(RemapItems(bodies), [step]), 1) == Some(Shift(ListDays(Fuse(bodies, [step]), 0).value))
    ensures forall p :: p in RemapItems(bodies) ==> ',' !in p
  {
    var body := bodies[0];
    if |bodies| == 1 {
      ItemShift(body, step);
      assert Fuse(bodies, [step]) == [body + step];
      assert Fuse(RemapItems(bodies), [step]) == [RemapItem(Trim(body)) + step];
      UnionEmpty(ItemDays(body + step, 0));
      UnionEmpty(ItemDays(RemapItem(Trim(body)) + step, 1));
    } else {
      FuseRest(bodies, step);
      ListShift(bodies[1..], step);
      ItemShift(body, "");
      ShiftUnion(ItemDays(body, 0).value, ListDays(Fuse(bodies[1..], [step]), 0).value);
    }
  }

  lemma FuseRest(bodies: seq<string>, step: string)
    requires |bodies| > 1
    ensures Fuse(bodies, [step]) == [bodies[0]] + Fuse(bodies[1..], [step])
    ensures Fuse(RemapItems(bodies), [step]) == [RemapItem(Trim(bodies[0]))] + Fuse(RemapItems(bodies[1..]), [step])
    ensures RemapItems(bodies) == [RemapItem(Trim(bodies[0]))] + RemapItems(bodies[1..])
    ensures bodies[0] + "" == bodies[0] && RemapItem(Trim(bodies[0])) + "" == RemapItem(Trim(bodies[0]))
  {
    FuseCons(bodies[0], bodies[1..], [step]);
    assert bodies == [bodies[0]] + bodies[1..];
    assert RemapItems(bodies) == [RemapItem(Trim(bodies[0]))] + RemapItems(bodies[1..]);
    FuseCons(RemapItem(Trim(bodies[0])), RemapItems(bodies[1..]), [step]);
  }

  lemma ShiftUnion(a: set<int>, b: set<int>)
    ensures Shift(a + b) == Shift(a) + Shift(b)
  {
  }

  /** The items up to the first step, that step included, and the items after it. */
  function Head(field: string): seq<string> {
    var (rangePart, stepPart) := AtSlash(field);
    Fuse(Split(rangePart, ','), [Split(stepPart, ',')[0]])
  }

  function Tail(field: string): seq<string> {
    Split(AtSlash(field).1, ',')[1..]
  }

  lemma SlashParts(field: string)
    requires NoSpace(field)
    ensures var (r, t) := AtSlash(field); field == r + t && NoSpace(r) && '/' !in r && (t == "" || t[0] == '/')
  {
    var (r, t) := AtSlash(field);
    forall i | 0 <= i < |r| ensures r[i] != '/' {
      assert !OccursAt(field, "/", i);
      assert field[i..i + 1] == [r[i]];
    }
    if t != "" {
      assert OccursAt(field, "/", |r|);
      assert field[|r|..|r| + 1][0] == '/';
    }
  }

  lemma FuseSplit(a: seq<string>, b: seq<string>)
    requires |a| > 0 && |b| > 0
    ensures Fuse(a, b) == Fuse(a, [b[0]]) + b[1..]
  {
  }

  /** The days of the field before and after: the head is shifted, the tail is read as it stands. */
  lemma RemapMeaning(field: string)
    requires NoSpace(field) && ListDays(Head(field), 0).Some?
    ensures FieldDays(field, 0) == Union(ListDays(Head(field), 0), ListDays(Tail(field), 0))
    ensures FieldDays(RemapDow(field), 1) ==
      Union(Some(Shift(ListDays(Head(field), 0).value)), ListDays(Tail(field), 1))
  {
    SlashParts(field);
    var (r, t) := AtSlash(field);
    var bodies, rest := Split(r, ','), Split(t, ',');
    SplitPiecesFree(r, ',');
    SplitHead(t);
    ListShift(bodies, rest[0]);
    SplitConcat(r, t, ',');
    FuseSplit(bodies, rest);
    ListDaysConcat(Head(field), Tail(field), 0);
    var mapped := RemapItems(bodies);
    SplitJoin(mapped, ',');
    SplitConcat(Join(mapped, ","), t, ',');
    FuseSplit(mapped, rest);
    ListDaysConcat(Fuse(mapped, [rest[0]]), Tail(field), 1);
    StarField(field);
  }

  lemma SplitHead(t: string)
    requires t == "" || t[0] == '/'
    ensures Split(t, ',')[0] == "" || Split(t, ',')[0][0] == '/'
  {
  }

  lemma StarField(field: string)
    ensures RemapDow(field) == Join(RemapItems(Split(AtSlash(field).0, ',')), ",") + AtSlash(field).1
  {
    if field == "*" {
      assert "*" == "*" + "";
      SlashAfterBody("*", "");
      SplitFree("*", ',');
      TrimNone("*");
      StarShift();
    }
  }

  /** With a step on the last item at most, the converted field denotes the same weekdays, counted from 1. */
  lemma ConversionPreservesDays(field: string)
    requires NoSpace(field) && ',' !in AtSlash(field).1 && FieldDays(field, 0).Some?
    ensures FieldDays(RemapDow(field), 1) == Some(Shift(FieldDays(field, 0).value))
  {
    ConversionExactly(field);
    SplitFree(AtSlash(field).1, ',');
  }

  /** The items after the first step are copied unshifted; they do no harm when the days they gain
      or lose by that are among the head's. */
  ghost predicate TailHarmless(field: string)
    requires ListDays(Head(field), 0).Some? && ListDays(Tail(field), 0).Some?
  {
    && ListDays(Tail(field), 1).Some?
    && forall d :: d !in Shift(ListDays(Head(field), 0).value) ==>
         (d in ListDays(Tail(field), 1).value <==> d in Shift(ListDays(Tail(field), 0).value))
  }

  lemma HeadAndTailDays(field: string)
    requires NoSpace(field) && FieldDays(field, 0).Some?
    ensures ListDays(Head(field), 0).Some? && ListDays(Tail(field), 0).Some?
    ensures FieldDays(field, 0) == Some(ListDays(Head(field), 0).value + ListDays(Tail(field), 0).value)
  {
    SlashParts(field);
    var (r, t) := AtSlash(field);
    SplitConcat(r, t, ',');
    FuseSplit(Split(r, ','), Split(t, ','));
    ListDaysConcat(Head(field), Tail(field), 0);
  }

  lemma ConversionExactly(field: string)
    requires NoSpace(field) && FieldDays(field, 0).Some?
    ensures ListDays(Head(field), 0).Some? && ListDays(Tail(field), 0).Some?
    ensures FieldDays(RemapDow(field), 1) == Some(Shift(FieldDays(field, 0).value)) <==> TailHarmless(field)
    ensures Tail(field) == [] ==> TailHarmless(field)
  {
    HeadAndTailDays(field);
    RemapMeaning(field);
    var h, t := ListDays(Head(field), 0).value, ListDays(Tail(field), 0).value;
    ShiftUnion(h, t);
    var after := ListDays(Tail(field), 1);
    if after.Some? {
      UnionAgrees(Shift(h), after.value, Shift(t));
    }
  }

  lemma UnionAgrees(h: set<int>, a: set<int>, b: set<int>)
    ensures h + a == h + b <==> forall d :: d !in h ==> (d in a <==> d in b)
  {
    if h + a == h + b {
      forall d | d !in h ensures d in a <==> d in b {
        assert d in a <==> d in h + a;
      }
    } else if forall d :: d !in h ==> (d in a <==> d in b) {
      assert forall d :: d in h + a <==> d in h + b;
    }
  }

  lemma DigitToken(d: int)
    requires 0 <= d <= 9
    ensures ParseU32([('0' as int + d) as char]) == Some(d)
  {
    ParseDecimal(d);
    assert ToDecimal(d) == [('0' as int + d) as char];
  }

  /** A field that is one digit. */
  lemma OneDigit(d: int, base: int)
    requires 0 <= d < 10
    ensures var s := ToDecimal(d);
      && FieldDays(s, base) == ListDays([s], base)
      && ItemDays(s, base) == (if base <= d <= base + 6 then Some({d}) else None)
  {
    var s := ToDecimal(d);
    DigitToken(d);
    assert s == s + "";
    SlashAfterBody(s, "");
    SplitFree(s, ',');
    SplitFree(s, '-');
    assert s != "*" by { assert s[0] in s && IsDigit(s[0]); }
  }

  lemma EverySeventh(base: int)
    requires base == 0 || base == 1
    ensures ItemDays("*/7", base) == Some({base})
  {
    DigitToken(7);
    assert "*/7" == "*" + "/7";
    SlashAfterBody("*", "/7");
    assert "/7"[1..] == "7";
    assert Every(base, base + 6, 7) == {base} by {
      assert forall d :: base <= d <= base + 6 ==> (OnStep(d, base, 7) <==> d == base);
    }
  }

  lemma ItsItems()
    ensures Split("*/7,3", ',') == ["*/7", "3"]
  {
    var items := ["*/7", "3"];
    assert items[1..] == ["3"];
    assert Join(items, ",") == "*/7,3";
    SplitJoin(items, ',');
  }

  lemma JustThree(base: int)
    requires base == 0 || base == 1
    ensures ItemDays("3", base) == Some({3})
  {
    hide *;
    OneDigit(3, base);
    Digits();
  }

  lemma StarEverySeventhThenThree(base: int)
    requires base == 0 || base == 1
    ensures FieldDays("*/7,3", base) == Some({base} + {3})
  {
    hide ItemDays, Split, ListDays;
    ItsItems();
    EverySeventh(base);
    JustThree(base);
    ListOfTwo("*/7", "3", base);
  }

  lemma ListOfTwo(a: string, b: string, base: int)
    ensures ListDays([a, b], base) == Union(ItemDays(a, base), ItemDays(b, base))
  {
    assert [a, b][1..] == [b] && [b][1..] == [];
    assert ListDays([b], base) == Union(ItemDays(b, base), ListDays([], base));
    UnionEmpty(ItemDays(b, base));
  }

  lemma StarStaysAsItIs()
    ensures RemapDow("*/7,3") == "*/7,3"
  {
    assert "*/7,3" == "*" + "/7,3";
    SlashAfterBody("*", "/7,3");
    SplitFree("*", ',');
    TrimNone("*");
    StarShift();
    assert RemapItems(["*"]) == ["*"];
  }

  /** A step before the last item: "every seventh day, and Wednesday" turns into Sunday and Tuesday,
      because the 3 is copied as it stands. */
  lemma StepBeforeTheLastItem()
    ensures RemapDow("*/7,3") == "*/7,3"
    ensures FieldDays("*/7,3", 0) == Some({0, 3}) && FieldDays(RemapDow("*/7,3"), 1) == Some({1, 3})
    ensures Shift({0, 3}) == {1, 4}
  {
    hide *;
    StarStaysAsItIs();
    StarEverySeventhThenThree(0);
    StarEverySeventhThenThree(1);
    ShiftPair(0, 3);
    assert {0} + {3} == {0, 3} && {1} + {3} == {1, 3};
  }

  lemma ShiftPair(a: int, b: int)
    ensures Shift({a, b}) == {a + 1, b + 1}
  {
  }

  /** Sunday may not be written as 7: the 7 turns into 8, which is no weekday; a 7 after translation is Saturday. */
  lemma SevenIsNotSunday()
    ensures FieldDays("7", 0) == None
    ensures RemapDow("7") == "8" && FieldDays(RemapDow("7"), 1) == None
    ensures FieldDays("7", 1) == Some({7}) && RemapDow("6") == "7" && FieldDays("6", 0) == Some({6})
  {
    hide *;
    OneItem(7, 0);
    OneItem(8, 1);
    OneItem(7, 1);
    OneItem(6, 0);
    DigitRemapped(7);
    DigitRemapped(6);
    Digits();
  }

  lemma Digits()
    ensures ToDecimal(3) == "3" && ToDecimal(6) == "6" && ToDecimal(7) == "7" && ToDecimal(8) == "8"
  {
  }

  lemma OneItem(d: int, base: int)
    requires 0 <= d < 10
    ensures FieldDays(ToDecimal(d), base) == (if base <= d <= base + 6 then Some({d}) else None)
  {
    OneDigit(d, base);
    hide ItemDays, ToDecimal;
    var s := ToDecimal(d);
    assert [s][1..] == [];
    UnionEmpty(ItemDays(s, base));
  }

  lemma DigitRemapped(d: int)
    requires 0 <= d < 9
    ensures RemapDow(ToDecimal(d)) == ToDecimal(d + 1)
  {
    var s := ToDecimal(d);
    DigitToken(d);
    ParseDecimal(d);
    assert s == s + "";
    SlashAfterBody(s, "");
    SplitFree(s, ',');
    assert s[0] in s && IsDigit(s[0]);
    assert s != "*";
    TrimNone(s);
    hide ToDecimal, ParseU32;
    assert RemapItems([s]) == [RemapItem(s)];
    assert RemapItem(s) + "" == RemapItem(s);
  }

  // ---- the whole expression ----

  ghost predicate Word(s: string) {
    s != "" && NoSpace(s)
  }

  lemma {:induction false} WordsOf(s: string)
    ensures forall w :: w in SplitWhitespace(s) ==> Word(w)
    decreases |s|
  {
    if s != "" {
      if IsSpace(s[0]) { WordsOf(s[1..]); }
      else { WordsOf(s[WordLength(s)..]); }
    }
  }

  lemma {:induction false} WordLengthIs(w: string, rest: string)
    requires NoSpace(w) && (rest == "" || IsSpace(rest[0]))
    ensures WordLength(w + rest) == |w|
  {
    if w == "" {
      assert w + rest == rest;
    } else {
      assert w[0] in w && (w + rest)[1..] == w[1..] + rest;
      WordLengthIs(w[1..], rest);
    }
  }

  lemma FirstWord(w: string, rest: string)
    requires Word(w)
    ensures SplitWhitespace(w + " " + rest) == [w] + SplitWhitespace(rest)
  {
    var s := w + " " + rest;
    assert s == w + (" " + rest) && w[0] in w;
    WordLengthIs(w, " " + rest);
    assert s[..|w|] == w && s[|w|..] == " " + rest && (" " + rest)[1..] == rest;
  }

  lemma {:induction false} JoinNoSpace(pieces: seq<string>)
    requires forall p :: p in pieces ==> NoSpace(p)
    ensures NoSpace(Join(pieces, ","))
    ensures |pieces| > 1 ==> Join(pieces, ",") != ""
  {
    assert !IsSpace(',');
    if |pieces| > 0 { assert pieces[0] in pieces; }
    if |pieces| > 1 { JoinNoSpace(pieces[1..]); }
  }

  lemma RemapValueWord(v: string)
    requires NoSpace(v)
    ensures NoSpace(RemapValue(v)) && (v != "" ==> RemapValue(v) != "")
  {
  }

  lemma RemapItemWord(item: string)
    requires NoSpace(item)
    ensures NoSpace(RemapItem(item)) && (item != "" ==> RemapItem(item) != "")
  {
    SplitPiecesFree(item, '-');
    RemapValueWord(item);
    var parts := Split(item, '-');
    if |parts| == 2 {
      assert parts[0] in parts && parts[1] in parts;
      TrimNone(parts[0]);
      TrimNone(parts[1]);
      RemapValueWord(parts[0]);
      RemapValueWord(parts[1]);
    }
  }

  lemma RemapDowWord(field: string)
    requires Word(field)
    ensures Word(RemapDow(field))
  {
    SlashParts(field);
    StarField(field);
    var (r, t) := AtSlash(field);
    SplitPiecesFree(r, ',');
    var pieces := Split(r, ',');
    forall i | 0 <= i < |pieces|
      ensures NoSpace(RemapItems(pieces)[i]) && (pieces[i] != "" ==> RemapItems(pieces)[i] != "")
    {
      assert pieces[i] in pieces;
      TrimNone(pieces[i]);
      RemapItemWord(pieces[i]);
    }
    JoinNoSpace(RemapItems(pieces));
    if ',' !in r { SplitFree(r, ','); } else { DashSplit(r, ','); }
  }

  lemma OneWord(w: string)
    requires Word(w)
    ensures SplitWhitespace(w) == [w]
  {
    assert w + "" == w && w[0] in w;
    WordLengthIs(w, "");
    assert w[|w|..] == "" && w[..|w|] == w;
    assert SplitWhitespace("") == [];
  }

  lemma {:induction false} WordsJoined(words: seq<string>)
    requires |words| > 0 && forall w :: w in words ==> Word(w)
    ensures SplitWhitespace(Join(words, " ")) == words
  {
    if |words| == 1 {
      assert Word(words[0]);
      OneWord(words[0]);
      assert words == [words[0]];
    } else {
      WordsJoined(words[1..]);
      FirstWord(words[0], Join(words[1..], " "));
    }
  }

  /** The seven fields: seconds pinned to 0, the day of week remapped, the year left open. */
  lemma ConvertFields(expr: string)
    requires |SplitWhitespace(expr)| == 5
    ensures var p := SplitWhitespace(expr);
      SplitWhitespace(Convert5To7(expr)) == ["0", p[0], p[1], p[2], p[3], RemapDow(p[4]), "*"]
  {
    hide RemapDow;
    var p := SplitWhitespace(expr);
    WordsOf(expr);
    assert p[0] in p && p[1] in p && p[2] in p && p[3] in p && p[4] in p;
    RemapDowWord(p[4]);
    WordsJoined(["0", p[0], p[1], p[2], p[3], RemapDow(p[4]), "*"]);
  }
}
