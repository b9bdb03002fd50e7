/** What a day-of-week field denotes, from how it is written. */
module DowFields {
  import opened Options
  import opened Text
  import opened Dow

  /** A way to write weekday `d`. */
  ghost predicate Writes(tok: string, d: int, base: int) {
    Plain(tok) && Weekday(tok, base) == Some(d)
  }

  /** The week has seven days, numbered from `base`. */
  lemma NumberIsDay(d: int, base: int)
    requires 0 <= base <= 1 && base <= d < base + 7
    ensures Writes(ToDecimal(d), d, base)
  {
    DigitToken(d);
    ParseDecimal(d);
  }

  /** In capitals or not, a weekday may be written by its first three letters, from Sunday on. */
  lemma NameIsDay(name: string, i: int, base: int)
    requires 0 <= i < 7 && ToUpper(name) == ["SUN", "MON", "TUE", "WED", "THU", "FRI", "SAT"][i]
    ensures Writes(name, base + i, base)
  {
    forall k | 0 <= k < |name| ensures 'A' <= UpperChar(name[k]) <= 'Z' {
      assert ToUpper(name)[k] == UpperChar(name[k]);
    }
    LettersArePlain(name);
  }

  lemma LettersArePlain(name: string)
    requires name != "" && forall k :: 0 <= k < |name| ==> 'A' <= UpperChar(name[k]) <= 'Z'
    ensures Plain(name) && ParseU32(name) == None
  {
    assert !IsDigit(name[0]) && name[0] != '+' && name[0] in name;
  }

  /** A field of one item. */
  lemma OneItemField(item: string, base: int)
    requires ',' !in item
    ensures FieldDays(item, base) == ItemDays(item, base)
  {
    SplitFree(item, ',');
    hide ItemDays;
    assert [item][1..] == [];
    UnionEmpty(ItemDays(item, base));
    assert ListDays([item], base) == Union(ItemDays(item, base), ListDays([], base));
  }

  lemma SpanField(body: string, span: DaySpan, k: nat, base: int)
    requires ',' !in body && '/' !in body && ParseSpan(body, base) == Some(span) && 0 < k < U32_LIMIT
    ensures FieldDays(body, base) == Some(SpanDays(span, None, base))
    ensures FieldDays(body + "/" + ToDecimal(k), base) == Some(SpanDays(span, Some(k), base))
  {
    hide ParseSpan, SpanDays, FieldDays;
    var step := "/" + ToDecimal(k);
    ParseDecimal(k);
    assert step[1..] == ToDecimal(k) && body + "/" + ToDecimal(k) == body + step && body + "" == body;
    SlashAfterBody(body, "");
    SlashAfterBody(body, step);
    OneItemField(body, base);
    NoComma(k);
    OneItemField(body + step, base);
  }

  lemma NoComma(k: nat)
    ensures ',' !in "/" + ToDecimal(k)
  {
    assert AllDigits(ToDecimal(k));
  }

  /** The field denotes every `k`-th day from `lo` up to `hi`. */
  ghost predicate Denotes(field: string, lo: int, hi: int, k: nat, base: int)
    requires k > 0
  {
    var days := FieldDays(field, base);
    days.Some? && forall n :: n in days.value <==> lo <= n <= hi && (n - lo) % k == 0
  }

  lemma EveryDay(lo: int, hi: int, k: nat)
    requires k > 0
    ensures forall n :: n in Every(lo, hi, k) <==> lo <= n <= hi && (n - lo) % k == 0
  {
  }

  /** A star is the whole week, with a step every `k`-th day from its first. */
  lemma StarMeans(k: nat, base: int)
    requires 0 < k < U32_LIMIT
    ensures Denotes("*", base, base + 6, 1, base) && Denotes("*/" + ToDecimal(k), base, base + 6, k, base)
  {
    SpanField("*", Whole, k, base);
    assert "*" + "/" + ToDecimal(k) == "*/" + ToDecimal(k);
    hide FieldDays;
    EveryDay(base, base + 6, 1);
    EveryDay(base, base + 6, k);
  }

  /** A range is its days, with a step every `k`-th from the first. */
  lemma RangeMeans(a: string, lo: int, b: string, hi: int, k: nat, base: int)
    requires Writes(a, lo, base) && Writes(b, hi, base) && lo <= hi && 0 < k < U32_LIMIT
    ensures Denotes(a + "-" + b, lo, hi, 1, base) && Denotes(a + "-" + b + "/" + ToDecimal(k), lo, hi, k, base)
  {
    ParsePair(a, b, a + "-" + b, base);
    SpanField(a + "-" + b, Range(lo, hi), k, base);
    hide FieldDays;
    EveryDay(lo, hi, 1);
    EveryDay(lo, hi, k);
  }

  /** A day is itself, and with a step every `k`-th day from it to the end of the week. */
  lemma DayMeans(a: string, d: int, k: nat, base: int)
    requires Writes(a, d, base) && 0 < k < U32_LIMIT
    ensures Denotes(a, d, d, 1, base) && Denotes(a + "/" + ToDecimal(k), d, base + 6, k, base)
  {
    SplitFree(a, '-');
    SpanField(a, Single(d), k, base);
    hide FieldDays;
    EveryDay(d, base + 6, k);
  }

  /** A list is the days of its items together, and malformed when one of them is. */
  lemma ListMeans(item: string, rest: string, base: int)
    requires ',' !in item
    ensures FieldDays(item + "," + rest, base) ==
      match (FieldDays(item, base), FieldDays(rest, base))
      case (Some(a), Some(b)) => Some(a + b)
      case _ => None
  {
    OneItemField(item, base);
    hide ItemDays;
    assert item + "," + rest == item + ("," + rest) && ("," + rest)[1..] == rest;
    SplitConcat(item, "," + rest, ',');
    SplitFree(item, ',');
    assert item + "" == item;
    assert Split(item + "," + rest, ',') == [item] + Split(rest, ',');
    assert ([item] + Split(rest, ','))[1..] == Split(rest, ',');
  }
}
