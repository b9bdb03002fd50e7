/** What follows the at signs of a text, and what removing `@name` from the text does to it. */
module NameRemoval {
  import opened Text

  predicate Contains(s: string, token: string) {
    exists i :: 0 <= i <= |s| && OccursAt(s, token, i)
  }

  /** `str::replace(token, "")`: left to right, each match consumed. */
  function RemoveAll(s: string, token: string): string
    requires token != ""
  {
    if s == "" then ""
    else if token <= s then RemoveAll(s[|token|..], token)
    else [s[0]] + RemoveAll(s[1..], token)
  }

  predicate PlainName(name: string) {
    name != "" && '@' !in name && forall c :: c in name ==> !IsSpace(c)
  }

  /** The longest prefix without at sign and whitespace. */
  function Segment(s: string): (g: string)
    ensures g <= s
  {
    if s == "" || IsSpace(s[0]) || s[0] == '@' then "" else [s[0]] + Segment(s[1..])
  }

  /** The segments after the at signs, in order. */
  function Segments(s: string): seq<string> {
    if s == "" then [] else (if s[0] == '@' then [Segment(s[1..])] else []) + Segments(s[1..])
  }

  /** The same, a list for each stretch of the text without whitespace. */
  function Runs(s: string): (runs: seq<seq<string>>)
    ensures |runs| > 0
  {
    if s == "" then [[]]
    else
      var rest := Runs(s[1..]);
      if IsSpace(s[0]) then [[]] + rest
      else if s[0] == '@' then [[Segment(s[1..])] + rest[0]] + rest[1..]
      else rest
  }

  function Flatten(runs: seq<seq<string>>): seq<string> {
    if runs == [] then [] else runs[0] + Flatten(runs[1..])
  }

  lemma FlattenCons(run: seq<string>, runs: seq<seq<string>>)
    ensures Flatten([run] + runs) == run + Flatten(runs)
  {
    assert ([run] + runs)[1..] == runs;
  }

  lemma FlattenFirst(g: string, run: seq<string>, runs: seq<seq<string>>)
    ensures Flatten([[g] + run] + runs) == [g] + Flatten([run] + runs)
  {
    hide Flatten;
    FlattenCons([g] + run, runs);
    FlattenCons(run, runs);
    assert ([g] + run) + Flatten(runs) == [g] + (run + Flatten(runs));
  }

  lemma FirstAndRest(runs: seq<seq<string>>)
    requires |runs| > 0
    ensures [runs[0]] + runs[1..] == runs
  {
  }

  lemma {:induction false} SegmentsAreRuns(s: string)
    ensures Segments(s) == Flatten(Runs(s))
  {
    hide Flatten, IsSpace;
    if s == "" {
      FlattenCons([], []);
      FlattenNothing();
      assert Runs(s) == [[]] + [];
    } else {
      SegmentsAreRuns(s[1..]);
      var rest := Runs(s[1..]);
      if IsSpace(s[0]) {
        FlattenCons([], rest);
        assert s[0] != '@' by { AtIsNoSpace(); }
      } else if s[0] == '@' {
        FirstAndRest(rest);
        FlattenFirst(Segment(s[1..]), rest[0], rest[1..]);
      }
    }
  }

  lemma AtIsNoSpace()
    ensures !IsSpace('@')
  {
  }

  lemma FlattenNothing()
    ensures Flatten([]) == []
  {
  }

  lemma {:induction false} SegmentsArePositions(s: string, w: string)
    ensures w in Segments(s) <==> exists i :: 0 <= i < |s| && s[i] == '@' && w == Segment(s[i + 1..])
  {
    if s != "" {
      var t := s[1..];
      SegmentsArePositions(t, w);
      if w in Segments(t) {
        var i :| 0 <= i < |t| && t[i] == '@' && w == Segment(t[i + 1..]);
        assert s[i + 1] == '@' && s[i + 1 + 1..] == t[i + 1..];
      }
      if j :| 0 < j < |s| && s[j] == '@' && w == Segment(s[j + 1..]) {
        assert t[j - 1] == '@' && t[j - 1 + 1..] == s[j + 1..];
      }
    }
  }

  /** A plain name starts a text when it starts its first segment. */
  lemma {:induction false} PrefixOfSegment(name: string, s: string)
    requires '@' !in name && forall c :: c in name ==> !IsSpace(c)
    ensures name <= s <==> name <= Segment(s)
  {
    if name != "" && s != "" && name[0] == s[0] {
      assert name[0] in name && forall c :: c in name[1..] ==> c in name;
      PrefixOfSegment(name[1..], s[1..]);
      assert name == [name[0]] + name[1..] && s == [s[0]] + s[1..];
    }
  }

  // ---- a text contains `@name` when the name starts a segment ----

  predicate Starts(name: string, segments: seq<string>) {
    exists w :: w in segments && name <= w
  }

  lemma OccursLater(s: string, token: string, i: int)
    requires s != "" && i > 0
    ensures OccursAt(s, token, i) <==> OccursAt(s[1..], token, i - 1)
  {
    if i + |token| <= |s| {
      var t := s[1..];
      assert t[i - 1..i - 1 + |token|] == s[i..i + |token|];
    }
  }

  lemma ContainsCons(s: string, token: string)
    requires s != "" && token != ""
    ensures Contains(s, token) <==> token <= s || Contains(s[1..], token)
  {
    if i :| 0 <= i <= |s| && OccursAt(s, token, i) {
      if i > 0 { OccursLater(s, token, i); }
    }
    if token <= s { assert OccursAt(s, token, 0); }
    if i :| 0 <= i <= |s[1..]| && OccursAt(s[1..], token, i) {
      OccursLater(s, token, i + 1);
    }
  }

  lemma StartsCons(w: string, segments: seq<string>, name: string)
    ensures Starts(name, [w] + segments) <==> name <= w || Starts(name, segments)
  {
    if name <= w { assert w in [w] + segments; }
    if v :| v in segments && name <= v { assert v in [w] + segments; }
  }

  lemma PrefixOfToken(name: string, s: string)
    requires s != ""
    ensures "@" + name <= s <==> s[0] == '@' && name <= s[1..]
  {
    assert ("@" + name)[1..] == name;
    if s[0] == '@' && name <= s[1..] { assert s == "@" + s[1..]; }
  }

  lemma {:induction false} ContainsIsStart(s: string, name: string)
    requires PlainName(name)
    ensures Contains(s, "@" + name) <==> Starts(name, Segments(s))
  {
    hide Contains, Starts, Segment;
    if s == "" {
      NothingInNothing(name);
    } else {
      ContainsIsStart(s[1..], name);
      ContainsCons(s, "@" + name);
      PrefixOfToken(name, s);
      PrefixOfSegment(name, s[1..]);
      StartsCons(Segment(s[1..]), Segments(s[1..]), name);
      assert s[0] != '@' ==> Segments(s) == Segments(s[1..]);
    }
  }

  lemma NothingInNothing(name: string)
    ensures !Contains("", "@" + name) && !Starts(name, [])
  {
  }

  lemma {:induction false} NothingToRemove(s: string, token: string)
    requires token != "" && !Contains(s, token)
    ensures RemoveAll(s, token) == s
  {
    hide Contains;
    if s != "" {
      ContainsCons(s, token);
      NothingToRemove(s[1..], token);
      assert s == [s[0]] + s[1..];
    }
  }

  // ---- one removal, run by run ----

  /** What removing `@name` leaves of a run: a segment that stays gets what is left over of those taken after it. */
  function Left(run: seq<string>, name: string): seq<string> {
    if run == [] then []
    else if name <= run[0] then Left(run[1..], name)
    else [run[0] + LeftOver(run[1..], name)] + Left(run[1..], name)
  }

  /** What is left over of the segments taken at the front of a run. */
  function LeftOver(run: seq<string>, name: string): string {
    if run == [] || !(name <= run[0]) then "" else run[0][|name|..] + LeftOver(run[1..], name)
  }

  function LeftAll(runs: seq<seq<string>>, name: string): seq<seq<string>> {
    seq(|runs|, i requires 0 <= i < |runs| => Left(runs[i], name))
  }

  lemma {:induction false} NameHasNoSegments(name: string, rest: string)
    requires '@' !in name && forall c :: c in name ==> !IsSpace(c)
    ensures Segment(name + rest) == name + Segment(rest) && Runs(name + rest) == Runs(rest)
  {
    if name == "" {
      assert name + rest == rest;
    } else {
      assert name[0] in name && (name + rest)[0] == name[0];
      assert (name + rest)[1..] == name[1..] + rest;
      assert forall c :: c in name[1..] ==> c in name;
      NameHasNoSegments(name[1..], rest);
      assert name == [name[0]] + name[1..];
    }
  }

  ghost predicate RemovesFrom(s: string, s': string, name: string) {
    Runs(s') == LeftAll(Runs(s), name) && Segment(s') == Segment(s) + LeftOver(Runs(s)[0], name)
  }

  /** Removing a name from a text is removing it from each run. */
  lemma {:induction false} RemovalOnRuns(s: string, name: string)
    requires PlainName(name)
    ensures RemovesFrom(s, RemoveAll(s, "@" + name), name)
    decreases |s|
  {
    hide RemovesFrom, Runs, Segment, LeftAll;
    var token := "@" + name;
    if s == "" {
      RemovesNothing(name);
    } else if token <= s {
      PrefixOfToken(name, s);
      RemovalOnRuns(s[|token|..], name);
      RemovesToken(s, RemoveAll(s[|token|..], token), name);
    } else {
      RemovalOnRuns(s[1..], name);
      if s[0] == '@' {
        PrefixOfToken(name, s);
        KeepsAt(s, RemoveAll(s[1..], token), name);
      } else {
        KeepsChar(s, RemoveAll(s[1..], token), name);
      }
    }
  }

  lemma RemovesNothing(name: string)
    ensures RemovesFrom("", "", name)
  {
    assert LeftAll([[]], name) == [[]];
  }

  lemma LeftAllCons(run: seq<string>, runs: seq<seq<string>>, name: string)
    ensures LeftAll([run] + runs, name) == [Left(run, name)] + LeftAll(runs, name)
  {
    var all := [run] + runs;
    forall i | 0 < i < |all| ensures LeftAll(all, name)[i] == LeftAll(runs, name)[i - 1] {
      assert all[i] == runs[i - 1];
    }
  }

  lemma RunsOfAt(s: string)
    requires s != "" && s[0] == '@'
    ensures var rest := Runs(s[1..]); Runs(s) == [[Segment(s[1..])] + rest[0]] + rest[1..] && Segment(s) == ""
  {
  }

  lemma FirstRun(runs: seq<seq<string>>, name: string)
    requires |runs| > 0
    ensures LeftAll(runs, name)[0] == Left(runs[0], name) && LeftAll(runs, name)[1..] == LeftAll(runs[1..], name)
  {
    LeftAllCons(runs[0], runs[1..], name);
    assert runs == [runs[0]] + runs[1..];
  }

  lemma RemovesToken(s: string, r: string, name: string)
    requires PlainName(name) && s != "" && s[0] == '@' && name <= s[1..]
    requires RemovesFrom(s[1 + |name|..], r, name)
    ensures RemovesFrom(s, r, name)
  {
    hide Runs, Segment, LeftAll, PlainName;
    var rest := s[1 + |name|..];
    assert s[1..] == name + rest;
    assert PlainParts(name) by { IsPlain(name); }
    NameHasNoSegments(name, rest);
    RunsOfAt(s);
    var runs, g := Runs(rest), Segment(s[1..]);
    LeftAllCons([g] + runs[0], runs[1..], name);
    FirstRun(runs, name);
    assert ([g] + runs[0])[1..] == runs[0];
    assert g[|name|..] == Segment(rest);
    assert LeftAll(runs, name) == [Left(runs[0], name)] + LeftAll(runs[1..], name);
  }

  ghost predicate PlainParts(name: string) {
    '@' !in name && forall c :: c in name ==> !IsSpace(c)
  }

  lemma IsPlain(name: string)
    requires PlainName(name)
    ensures PlainParts(name)
  {
  }

  lemma KeepsAt(s: string, r: string, name: string)
    requires PlainName(name) && s != "" && s[0] == '@' && !(name <= s[1..]) && RemovesFrom(s[1..], r, name)
    ensures RemovesFrom(s, [s[0]] + r, name)
  {
    PrefixOfSegment(name, s[1..]);
    hide Runs, Segment, LeftAll, PlainName;
    var s' := [s[0]] + r;
    assert s'[1..] == r;
    RunsOfAt(s);
    RunsOfAt(s');
    var runs, g := Runs(s[1..]), Segment(s[1..]);
    LeftAllCons([g] + runs[0], runs[1..], name);
    FirstRun(runs, name);
    assert ([g] + runs[0])[1..] == runs[0];
  }

  lemma KeepsChar(s: string, r: string, name: string)
    requires s != "" && s[0] != '@' && RemovesFrom(s[1..], r, name)
    ensures RemovesFrom(s, [s[0]] + r, name)
  {
    hide LeftAll;
    var s' := [s[0]] + r;
    assert s'[1..] == r;
    if IsSpace(s[0]) {
      LeftAllCons([], Runs(s[1..]), name);
    }
  }

  // ---- all the names, one after the other ----

  /** What is left of the text after some names have been removed. */
  function Remaining(text: string, names: seq<string>): string {
    if names == [] then text
    else
      var before, token := Remaining(text, names[..|names| - 1]), "@" + names[|names| - 1];
      if Contains(before, token) then RemoveAll(before, token) else before
  }

  ghost predicate AllPlain(names: seq<string>) {
    forall n :: n in names ==> PlainName(n)
  }

  ghost predicate Claimed(names: seq<string>, w: string) {
    exists n :: n in names && n <= w
  }

  /** The segments that none of the names starts. */
  ghost function Unclaimed(segments: seq<string>, names: seq<string>): seq<string> {
    if segments == [] then []
    else (if Claimed(names, segments[0]) then [] else [segments[0]]) + Unclaimed(segments[1..], names)
  }

  ghost function UnclaimedAll(runs: seq<seq<string>>, names: seq<string>): seq<seq<string>> {
    seq(|runs|, i requires 0 <= i < |runs| => Unclaimed(runs[i], names))
  }

  /** The `k`-th name is the first that starts the segment. */
  ghost predicate FirstToStart(names: seq<string>, k: nat, w: string)
    requires k < |names|
  {
    names[k] <= w && !Claimed(names[..k], w)
  }

  /** The `k`-th name leaves part of a segment over, while a segment before it in the run is still there. */
  ghost predicate RunGlues(run: seq<string>, names: seq<string>, k: nat)
    requires k < |names|
  {
    exists q, p :: 0 <= q < p < |run| && FirstToStart(names, k, run[p]) && |names[k]| < |run[p]|
      && !Claimed(names[..k + 1], run[q])
  }

  ghost predicate Glues(text: string, names: seq<string>) {
    exists run, k :: run in Runs(text) && 0 <= k < |names| && RunGlues(run, names, k)
  }

  /** A removal that leaves over part of a segment after one that stays. */
  ghost predicate Smears(run: seq<string>, name: string) {
    exists q, p :: 0 <= q < p < |run| && name <= run[p] && |name| < |run[p]| && !(name <= run[q])
  }

  /** Something taken further on in the run is left over in part. */
  ghost predicate Spills(run: seq<string>, name: string) {
    exists p :: 0 <= p < |run| && name <= run[p] && |name| < |run[p]|
  }

  lemma SmearsCons(g: string, run: seq<string>, name: string)
    ensures Smears([g] + run, name) <==> if name <= g then Smears(run, name) else Spills(run, name)
  {
    var all := [g] + run;
    if q, p :| 0 <= q < p < |run| && name <= run[p] && |name| < |run[p]| && !(name <= run[q]) {
      assert all[q + 1] == run[q] && all[p + 1] == run[p];
    }
    if p :| 0 <= p < |run| && name <= run[p] && |name| < |run[p]| {
      assert all[p + 1] == run[p] && all[0] == g;
    }
    if q, p :| 0 <= q < p < |all| && name <= all[p] && |name| < |all[p]| && !(name <= all[q]) {
      assert run[p - 1] == all[p];
      assert q > 0 ==> run[q - 1] == all[q];
    }
  }

  /** A spill is left over at the front, or smeared over a segment further on. */
  lemma {:induction false} SpillsIff(run: seq<string>, name: string)
    ensures Spills(run, name) <==> LeftOver(run, name) != "" || Smears(run, name)
  {
    if run != [] {
      SpillsIff(run[1..], name);
      assert run == [run[0]] + run[1..];
      SmearsCons(run[0], run[1..], name);
      hide Smears;
      SpillsCons(run[0], run[1..], name);
      hide Spills;
    }
  }

  lemma SpillsCons(g: string, run: seq<string>, name: string)
    ensures Spills([g] + run, name) <==> (name <= g && |name| < |g|) || Spills(run, name)
  {
    var all := [g] + run;
    if p :| 0 <= p < |run| && name <= run[p] && |name| < |run[p]| { assert all[p + 1] == run[p]; }
    if name <= g && |name| < |g| { assert all[0] == g; }
    if p :| 0 <= p < |all| && name <= all[p] && |name| < |all[p]| { assert p > 0 ==> run[p - 1] == all[p]; }
  }

  /** One removal takes out exactly the segments that the name starts, unless it smears. */
  lemma {:induction false} LeftIff(run: seq<string>, name: string)
    ensures |Left(run, name)| == |Unclaimed(run, [name])|
    ensures Left(run, name) == Unclaimed(run, [name]) <==> !Smears(run, name)
  {
    assert forall w :: Claimed([name], w) <==> name <= w by { assert name in [name]; }
    if run != [] {
      var rest := run[1..];
      LeftIff(rest, name);
      assert run == [run[0]] + rest;
      SmearsCons(run[0], rest, name);
      SpillsIff(rest, name);
      hide Smears, Spills, LeftOver, Claimed;
      if !(name <= run[0]) {
        assert run[0] + LeftOver(rest, name) == run[0] <==> LeftOver(rest, name) == "";
        ConsEqual(run[0] + LeftOver(rest, name), Left(rest, name), run[0], Unclaimed(rest, [name]));
      }
    }
  }

  lemma ConsEqual(a: string, s: seq<string>, b: string, t: seq<string>)
    ensures [a] + s == [b] + t <==> a == b && s == t
  {
    if [a] + s == [b] + t { assert s == ([a] + s)[1..] == ([b] + t)[1..] == t && a == ([a] + s)[0] == ([b] + t)[0]; }
  }

  lemma ClaimedSnoc(names: seq<string>, n: string, w: string)
    ensures Claimed(names + [n], w) <==> Claimed(names, w) || n <= w
  {
    if n <= w { assert n in names + [n]; }
    if v :| v in names && v <= w { assert v in names + [n]; }
  }

  lemma {:induction false} UnclaimedSnoc(segments: seq<string>, names: seq<string>, n: string)
    ensures Unclaimed(segments, names + [n]) == Unclaimed(Unclaimed(segments, names), [n])
  {
    if segments != [] {
      var w, rest := segments[0], Unclaimed(segments[1..], names);
      UnclaimedSnoc(segments[1..], names, n);
      ClaimedSnoc(names, n, w);
      ClaimedSnoc([], n, w);
      assert [] + [n] == [n];
      assert ([w] + rest)[1..] == rest && [] + rest == rest;
    }
  }

  lemma {:induction false} UnclaimedByNone(segments: seq<string>)
    ensures Unclaimed(segments, []) == segments
  {
    if segments != [] {
      UnclaimedByNone(segments[1..]);
      assert segments == [segments[0]] + segments[1..];
    }
  }

  /** Among the segments that `names` leave, one that `name` takes in part, and one that it lets be. */
  ghost predicate TakesPart(names: seq<string>, name: string, w: string) {
    !Claimed(names, w) && name <= w && |name| < |w|
  }

  ghost predicate LetsBe(names: seq<string>, name: string, w: string) {
    !Claimed(names, w) && !(name <= w)
  }

  ghost predicate SpillsAmong(run: seq<string>, names: seq<string>, name: string) {
    exists p :: 0 <= p < |run| && TakesPart(names, name, run[p])
  }

  ghost predicate SmearsAmong(run: seq<string>, names: seq<string>, name: string) {
    exists q, p :: 0 <= q < p < |run| && TakesPart(names, name, run[p]) && LetsBe(names, name, run[q])
  }

  lemma SpillsAmongCons(g: string, run: seq<string>, names: seq<string>, name: string)
    ensures SpillsAmong([g] + run, names, name) <==> TakesPart(names, name, g) || SpillsAmong(run, names, name)
  {
    hide TakesPart;
    var all := [g] + run;
    if p :| 0 <= p < |run| && TakesPart(names, name, run[p]) { assert all[p + 1] == run[p]; }
    if TakesPart(names, name, g) { assert all[0] == g; }
    if p :| 0 <= p < |all| && TakesPart(names, name, all[p]) { assert p > 0 ==> run[p - 1] == all[p]; }
  }

  lemma SmearsAmongCons(g: string, run: seq<string>, names: seq<string>, name: string)
    ensures SmearsAmong([g] + run, names, name) <==>
      SmearsAmong(run, names, name) || (LetsBe(names, name, g) && SpillsAmong(run, names, name))
  {
    hide TakesPart, LetsBe;
    var all := [g] + run;
    if q, p :| 0 <= q < p < |run| && TakesPart(names, name, run[p]) && LetsBe(names, name, run[q]) {
      assert all[q + 1] == run[q] && all[p + 1] == run[p];
    }
    if p :| 0 <= p < |run| && TakesPart(names, name, run[p]) {
      assert all[p + 1] == run[p] && all[0] == g;
    }
    if q, p :| 0 <= q < p < |all| && TakesPart(names, name, all[p]) && LetsBe(names, name, all[q]) {
      assert run[p - 1] == all[p];
      assert q > 0 ==> run[q - 1] == all[q];
    }
  }

  lemma {:induction false} UnclaimedSpills(run: seq<string>, names: seq<string>, name: string)
    ensures Spills(Unclaimed(run, names), name) <==> SpillsAmong(run, names, name)
  {
    if run != [] {
      var g, rest := run[0], Unclaimed(run[1..], names);
      UnclaimedSpills(run[1..], names, name);
      assert run == [g] + run[1..] && [] + rest == rest;
      SpillsCons(g, rest, name);
      SpillsAmongCons(g, run[1..], names, name);
      hide Claimed, Spills, SpillsAmong;
    }
  }

  lemma {:induction false} UnclaimedSmears(run: seq<string>, names: seq<string>, name: string)
    ensures Smears(Unclaimed(run, names), name) <==> SmearsAmong(run, names, name)
  {
    if run != [] {
      var g, rest := run[0], Unclaimed(run[1..], names);
      UnclaimedSmears(run[1..], names, name);
      UnclaimedSpills(run[1..], names, name);
      assert run == [g] + run[1..] && [] + rest == rest;
      SmearsCons(g, rest, name);
      SmearsAmongCons(g, run[1..], names, name);
      SmearsSpills(rest, name);
      hide Claimed, Smears, SmearsAmong, Spills;
    }
  }

  lemma SmearsSpills(run: seq<string>, name: string)
    ensures Smears(run, name) ==> Spills(run, name)
  {
  }

  lemma RunGluesIff(run: seq<string>, names: seq<string>, k: nat)
    requires k < |names|
    ensures RunGlues(run, names, k) <==> Smears(Unclaimed(run, names[..k]), names[k])
  {
    UnclaimedSmears(run, names[..k], names[k]);
    assert names[..k + 1] == names[..k] + [names[k]];
    forall w ensures Claimed(names[..k + 1], w) <==> Claimed(names[..k], w) || names[k] <= w {
      ClaimedSnoc(names[..k], names[k], w);
    }
    hide Claimed, Smears, Unclaimed;
  }

  // ---- the iff ----

  lemma RemainingStep(text: string, names: seq<string>, k: nat)
    requires k < |names| && AllPlain(names)
    ensures Runs(Remaining(text, names[..k + 1])) == LeftAll(Runs(Remaining(text, names[..k])), names[k])
  {
    hide Contains, RemoveAll, Runs, LeftAll;
    var before, name := Remaining(text, names[..k]), names[k];
    assert names[..k + 1][..k] == names[..k] && names[..k + 1][k] == name && PlainName(name);
    RemovalOnRuns(before, name);
    if !Contains(before, "@" + name) { NothingToRemove(before, "@" + name); }
  }

  lemma UnclaimedStep(runs: seq<seq<string>>, names: seq<string>, k: nat)
    requires k < |names|
    ensures UnclaimedAll(runs, names[..k + 1]) == UnclaimedAll(UnclaimedAll(runs, names[..k]), [names[k]])
  {
    assert names[..k + 1] == names[..k] + [names[k]];
    forall i | 0 <= i < |runs|
      ensures UnclaimedAll(runs, names[..k + 1])[i] == UnclaimedAll(UnclaimedAll(runs, names[..k]), [names[k]])[i]
    {
      UnclaimedSnoc(runs[i], names[..k], names[k]);
    }
  }

  /** The text after `k` names, run by run, is the text without the segments they start. */
  ghost predicate InStep(text: string, names: seq<string>, k: nat)
    requires k <= |names|
  {
    Runs(Remaining(text, names[..k])) == UnclaimedAll(Runs(text), names[..k])
  }

  /** From a text in step, one removal stays in step exactly when it glues nothing. */
  lemma InStepIff(text: string, names: seq<string>, k: nat)
    requires k < |names| && AllPlain(names) && InStep(text, names, k)
    ensures InStep(text, names, k + 1) <==> forall run :: run in Runs(text) ==> !RunGlues(run, names, k)
    ensures SameShape(Runs(Remaining(text, names[..k + 1])), UnclaimedAll(Runs(text), names[..k + 1]))
  {
    RemainingStep(text, names, k);
    UnclaimedStep(Runs(text), names, k);
    hide Remaining, Runs, RunGlues, AllPlain;
    var runs, now := Runs(text), UnclaimedAll(Runs(text), names[..k]);
    var after, wanted := LeftAll(now, names[k]), UnclaimedAll(now, [names[k]]);
    forall i | 0 <= i < |runs|
      ensures |after[i]| == |wanted[i]| && (after[i] == wanted[i] <==> !RunGlues(runs[i], names, k))
    {
      LeftIff(now[i], names[k]);
      RunGluesIff(runs[i], names, k);
    }
    hide LeftAll, UnclaimedAll;
    assert |after| == |wanted| == |runs| by { Lengths(now, names[k]); }
    if after == wanted {
      forall run | run in runs ensures !RunGlues(run, names, k) {
        var i :| 0 <= i < |runs| && runs[i] == run;
      }
    }
  }

  lemma Lengths(runs: seq<seq<string>>, name: string)
    ensures |LeftAll(runs, name)| == |UnclaimedAll(runs, [name])| == |runs|
  {
  }

  ghost predicate SameShape(a: seq<seq<string>>, b: seq<seq<string>>) {
    |a| == |b| && forall i :: 0 <= i < |a| ==> |a[i]| == |b[i]|
  }

  lemma {:induction false} SameShapeSameRuns(a: seq<seq<string>>, b: seq<seq<string>>)
    requires SameShape(a, b) && Flatten(a) == Flatten(b)
    ensures a == b
  {
    if a != [] {
      var n := |a[0]|;
      assert a[0] == Flatten(a)[..n] && b[0] == Flatten(b)[..n];
      assert Flatten(a[1..]) == Flatten(a)[n..] && Flatten(b[1..]) == Flatten(b)[n..];
      SameShapeSameRuns(a[1..], b[1..]);
      assert a == [a[0]] + a[1..] && b == [b[0]] + b[1..];
    }
  }

  lemma {:induction false} UnclaimedConcat(a: seq<string>, b: seq<string>, names: seq<string>)
    ensures Unclaimed(a + b, names) == Unclaimed(a, names) + Unclaimed(b, names)
  {
    if a == [] {
      assert a + b == b;
    } else {
      assert (a + b)[1..] == a[1..] + b;
      UnclaimedConcat(a[1..], b, names);
    }
  }

  lemma {:induction false} FlattenUnclaimed(runs: seq<seq<string>>, names: seq<string>)
    ensures Flatten(UnclaimedAll(runs, names)) == Unclaimed(Flatten(runs), names)
  {
    if runs != [] {
      FlattenUnclaimed(runs[1..], names);
      UnclaimedConcat(runs[0], Flatten(runs[1..]), names);
      assert UnclaimedAll(runs, names)[1..] == UnclaimedAll(runs[1..], names);
    }
  }

  /** The segments left after `k` names are, in order, those of the text that none of these names starts. */
  ghost predicate KeepsSegments(text: string, names: seq<string>, k: nat)
    requires k <= |names|
  {
    Segments(Remaining(text, names[..k])) == Unclaimed(Segments(text), names[..k])
  }

  lemma InStepKeepsSegments(text: string, names: seq<string>, k: nat)
    requires k <= |names|
    ensures InStep(text, names, k) ==> KeepsSegments(text, names, k)
    ensures SameShape(Runs(Remaining(text, names[..k])), UnclaimedAll(Runs(text), names[..k])) ==>
      (KeepsSegments(text, names, k) ==> InStep(text, names, k))
  {
    hide Remaining, Runs, Segments, Unclaimed, UnclaimedAll, SameShape;
    var now, wanted := Runs(Remaining(text, names[..k])), UnclaimedAll(Runs(text), names[..k]);
    SegmentsAreRuns(text);
    SegmentsAreRuns(Remaining(text, names[..k]));
    FlattenUnclaimed(Runs(text), names[..k]);
    if SameShape(now, wanted) && Flatten(now) == Flatten(wanted) { SameShapeSameRuns(now, wanted); }
  }

  lemma InStepAtFirst(text: string, names: seq<string>)
    ensures InStep(text, names, 0)
  {
    assert names[..0] == [];
    forall run | run in Runs(text) ensures Unclaimed(run, []) == run { UnclaimedByNone(run); }
    assert UnclaimedAll(Runs(text), []) == Runs(text);
  }

  lemma {:induction false} NoGlueInStep(text: string, names: seq<string>, k: nat)
    requires k <= |names| && AllPlain(names) && !Glues(text, names)
    ensures InStep(text, names, k)
  {
    hide InStep, RunGlues, AllPlain;
    if k == 0 {
      InStepAtFirst(text, names);
    } else {
      NoGlueInStep(text, names, k - 1);
      InStepIff(text, names, k - 1);
    }
  }

  lemma {:induction false} KeepingInStep(text: string, names: seq<string>, k: nat)
    requires k <= |names| && AllPlain(names) && forall j :: 0 <= j <= |names| ==> KeepsSegments(text, names, j)
    ensures InStep(text, names, k)
  {
    hide InStep, AllPlain, KeepsSegments, SameShape;
    if k == 0 {
      InStepAtFirst(text, names);
    } else {
      KeepingInStep(text, names, k - 1);
      InStepIff(text, names, k - 1);
      InStepKeepsSegments(text, names, k);
    }
  }

  /**
   * For every text and every list of plain names: the scan keeps, after each name, exactly the segments that no
   * name so far starts, exactly when the text does not glue: no name leaves part of a segment over while an
   * earlier segment of the same run is still there.
   */
  lemma KeepsSegmentsIff(text: string, names: seq<string>)
    requires AllPlain(names)
    ensures (forall k :: 0 <= k <= |names| ==> KeepsSegments(text, names, k)) <==> !Glues(text, names)
  {
    hide InStep, AllPlain, KeepsSegments, RunGlues;
    if !Glues(text, names) {
      forall k | 0 <= k <= |names| ensures KeepsSegments(text, names, k) {
        NoGlueInStep(text, names, k);
        InStepKeepsSegments(text, names, k);
      }
    }
    if forall k :: 0 <= k <= |names| ==> KeepsSegments(text, names, k) {
      forall run, k | run in Runs(text) && 0 <= k < |names| ensures !RunGlues(run, names, k) {
        KeepingInStep(text, names, k);
        KeepingInStep(text, names, k + 1);
        InStepIff(text, names, k);
      }
    }
  }

  // ---- texts that never glue ----

  /** Each `@` starts the text or follows whitespace. */
  predicate Spaced(s: string) {
    forall i :: 0 < i < |s| && s[i] == '@' ==> IsSpace(s[i - 1])
  }

  lemma {:induction false} SpacedRuns(s: string)
    requires Spaced(s)
    ensures forall run :: run in Runs(s) ==> |run| <= 1
    ensures s != "" && s[0] != '@' && !IsSpace(s[0]) ==> Runs(s)[0] == []
  {
    if s != "" {
      assert forall i :: 0 < i < |s[1..]| ==> s[1..][i] == s[i + 1] && s[1..][i - 1] == s[i];
      SpacedRuns(s[1..]);
      var rest := Runs(s[1..]);
      assert rest[0] in rest;
      if s[0] == '@' && |s| > 1 { assert IsSpace(s[1]) ==> Runs(s[1..])[0] == []; }
      if |s| == 1 { assert s[1..] == ""; }
    }
  }

  /** A text in which every `@` starts the text or follows whitespace glues nothing, whatever the names. */
  lemma SpacedNeverGlues(text: string, names: seq<string>)
    requires Spaced(text)
    ensures !Glues(text, names)
  {
    SpacedRuns(text);
  }
}
