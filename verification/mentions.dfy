/** Which public accounts a message mentions. */
module Mentions {
  import opened Text
  import opened NameRemoval

  datatype User = User(id: string, name: string)

  // ---- longest names first ----

  /** Where a stable sort by falling length puts `u`, coming before all of `rest`. */
  function Insert(u: User, rest: seq<User>): seq<User> {
    if rest != [] && |rest[0].name| > |u.name| then [rest[0]] + Insert(u, rest[1..]) else [u] + rest
  }

  function ByLength(users: seq<User>): seq<User> {
    if users == [] then [] else Insert(users[0], ByLength(users[1..]))
  }

  ghost predicate LongestFirst(users: seq<User>) {
    forall i, j :: 0 <= i < j < |users| ==> |users[i].name| >= |users[j].name|
  }

  function OfLength(users: seq<User>, n: nat): seq<User> {
    if users == [] then [] else (if |users[0].name| == n then [users[0]] else []) + OfLength(users[1..], n)
  }

  /** The users of one length: these and no others, in their order. */
  lemma {:induction false} OfLengthKeeps(a: seq<User>, u: User, n: nat)
    ensures OfLength([], n) == []
    ensures OfLength(a + [u], n) == OfLength(a, n) + if |u.name| == n then [u] else []
  {
    if a == [] {
      assert [] + [u] == [u] && [u][1..] == [];
    } else {
      assert (a + [u])[1..] == a[1..] + [u];
      OfLengthKeeps(a[1..], u, n);
    }
  }

  lemma {:induction false} InsertKeepsUsers(u: User, rest: seq<User>)
    ensures multiset(Insert(u, rest)) == multiset([u] + rest)
  {
    if rest != [] && |rest[0].name| > |u.name| {
      InsertKeepsUsers(u, rest[1..]);
      assert rest == [rest[0]] + rest[1..];
    }
  }

  lemma LongestBefore(u: User, rest: seq<User>)
    requires LongestFirst(rest) && forall v :: v in rest ==> |v.name| <= |u.name|
    ensures LongestFirst([u] + rest)
  {
  }

  lemma {:induction false} InsertKeepsOrder(u: User, rest: seq<User>)
    requires LongestFirst(rest)
    ensures LongestFirst(Insert(u, rest))
  {
    if rest != [] && |rest[0].name| > |u.name| {
      var tail := Insert(u, rest[1..]);
      InsertKeepsOrder(u, rest[1..]);
      InsertKeepsUsers(u, rest[1..]);
      forall v | v in tail ensures |v.name| <= |rest[0].name| {
        assert v in multiset(tail);
        assert v == u || v in rest[1..];
      }
      hide LongestFirst;
      LongestBefore(rest[0], tail);
    } else {
      LongestBefore(u, rest);
    }
  }

  lemma {:induction false} InsertIsStable(u: User, rest: seq<User>, n: nat)
    ensures OfLength(Insert(u, rest), n) == OfLength([u] + rest, n)
  {
    assert ([u] + rest)[1..] == rest;
    if rest != [] && |rest[0].name| > |u.name| {
      var tail := Insert(u, rest[1..]);
      InsertIsStable(u, rest[1..], n);
      assert ([rest[0]] + tail)[1..] == tail && ([u] + rest[1..])[1..] == rest[1..];
    }
  }

  /** A stable sort, longest name first. */
  lemma {:induction false} ByLengthSorts(users: seq<User>, n: nat)
    ensures LongestFirst(ByLength(users)) && multiset(ByLength(users)) == multiset(users)
    ensures OfLength(ByLength(users), n) == OfLength(users, n)
  {
    if users != [] {
      ByLengthSorts(users[1..], n);
      InsertKeepsOrder(users[0], ByLength(users[1..]));
      InsertKeepsUsers(users[0], ByLength(users[1..]));
      InsertIsStable(users[0], ByLength(users[1..]), n);
      assert users == [users[0]] + users[1..];
    }
  }

  predicate Listed(mentions: seq<User>, id: string) {
    exists m :: m in mentions && m.id == id
  }

  function Names(users: seq<User>): seq<string> {
    seq(|users|, i requires 0 <= i < |users| => users[i].name)
  }

  /** What is left of the text after the first `k` names have been looked for. */
  function TextAfter(text: string, sorted: seq<User>, k: nat): string
    requires k <= |sorted|
  {
    Remaining(text, Names(sorted)[..k])
  }

  predicate Found(text: string, sorted: seq<User>, k: nat)
    requires k < |sorted|
  {
    Contains(TextAfter(text, sorted, k), "@" + sorted[k].name)
  }

  ghost predicate PlainNames(users: seq<User>) {
    forall u :: u in users ==> PlainName(u.name)
  }

  ghost predicate DistinctNames(users: seq<User>) {
    forall i, j :: 0 <= i < j < |users| ==> users[i].name != users[j].name
  }

  /** A public name is mentioned when it is the longest one that starts what follows some `@`. */
  ghost predicate LongestAt(users: seq<User>, u: User, rest: string) {
    u.name <= rest && forall v :: v in users && v.name <= rest ==> |v.name| <= |u.name|
  }

  ghost predicate Mentioned(text: string, users: seq<User>, u: User) {
    exists i :: 0 <= i < |text| && text[i] == '@' && LongestAt(users, u, text[i + 1..])
  }

  lemma MentionedIsASegment(text: string, users: seq<User>, u: User)
    requires PlainNames(users) && u in users
    ensures Mentioned(text, users, u) <==> exists w :: w in Segments(text) && LongestAt(users, u, w)
  {
    forall rest ensures LongestAt(users, u, rest) <==> LongestAt(users, u, Segment(rest)) {
      forall v | v in users ensures v.name <= rest <==> v.name <= Segment(rest) { PrefixOfSegment(v.name, rest); }
    }
    forall w
      ensures w in Segments(text) <==> exists i :: 0 <= i < |text| && text[i] == '@' && w == Segment(text[i + 1..])
    {
      SegmentsArePositions(text, w);
    }
    hide Segments, Segment;
    if i :| 0 <= i < |text| && text[i] == '@' && LongestAt(users, u, text[i + 1..]) {
      assert Segment(text[i + 1..]) in Segments(text);
    }
  }

  lemma ClaimedByEarlier(users: seq<User>, k: nat, w: string)
    requires k <= |users|
    ensures Claimed(Names(users)[..k], w) <==> exists i :: 0 <= i < k && users[i].name <= w
  {
    var names := Names(users);
    if i :| 0 <= i < k && users[i].name <= w {
      assert names[..k][i] == users[i].name;
      assert users[i].name in names[..k] && Claimed(names[..k], w);
    }
    if n :| n in names[..k] && n <= w {
      var i :| 0 <= i < k && names[i] == n;
      assert users[i].name <= w;
    }
  }

  /** In the sorted list, the longest name at a segment is the first that starts it. */
  lemma LongestIsFirst(sorted: seq<User>, k: nat, w: string)
    requires k < |sorted| && LongestFirst(sorted) && DistinctNames(sorted)
    ensures LongestAt(sorted, sorted[k], w) <==> FirstToStart(Names(sorted), k, w)
  {
    ClaimedByEarlier(sorted, k, w);
    hide Claimed;
    var u := sorted[k];
    forall v | v in sorted ensures |v.name| <= |u.name| || exists i :: 0 <= i < k && sorted[i] == v {
      var i :| 0 <= i < |sorted| && sorted[i] == v;
    }
    forall i | 0 <= i < k ensures sorted[i] in sorted && |sorted[i].name| >= |u.name| && sorted[i].name != u.name {}
    assert forall a, b :: a <= w && b <= w && |a| == |b| ==> a == b;
  }

  lemma {:induction false} UnclaimedAre(segments: seq<string>, names: seq<string>)
    ensures forall w :: w in Unclaimed(segments, names) <==> w in segments && !Claimed(names, w)
  {
    hide Claimed;
    if segments != [] {
      UnclaimedAre(segments[1..], names);
      assert segments == [segments[0]] + segments[1..];
    }
  }

  lemma NamesArePlain(users: seq<User>)
    requires PlainNames(users)
    ensures AllPlain(Names(users))
  {
    forall n | n in Names(users) ensures PlainName(n) {
      var i :| 0 <= i < |users| && users[i].name == n;
      assert users[i] in users;
    }
  }

  /** In a text that glues nothing, the scan finds a user exactly when the text mentions it. */
  lemma FoundIffMentioned(text: string, sorted: seq<User>, k: nat)
    requires k < |sorted| && !Glues(text, Names(sorted))
    requires PlainNames(sorted) && LongestFirst(sorted) && DistinctNames(sorted)
    ensures Found(text, sorted, k) <==> Mentioned(text, sorted, sorted[k])
  {
    var names := Names(sorted);
    NamesArePlain(sorted);
    assert PlainName(sorted[k].name);
    hide Segments, Glues, Remaining, PlainName, LongestFirst, DistinctNames, LongestAt, Contains, Mentioned;
    hide FirstToStart, Unclaimed, AllPlain, PlainNames;
    KeepsSegmentsIff(text, names);
    assert KeepsSegments(text, names, k);
    ContainsIsStart(TextAfter(text, sorted, k), sorted[k].name);
    UnclaimedAre(Segments(text), names[..k]);
    MentionedIsASegment(text, sorted, sorted[k]);
    forall w ensures LongestAt(sorted, sorted[k], w) <==> sorted[k].name <= w && !Claimed(names[..k], w) {
      LongestIsFirst(sorted, k, w);
      assert FirstToStart(names, k, w) <==> names[k] <= w && !Claimed(names[..k], w) by { FirstIs(names, k, w); }
    }
  }

  lemma FirstIs(names: seq<string>, k: nat, w: string)
    requires k < |names|
    ensures FirstToStart(names, k, w) <==> names[k] <= w && !Claimed(names[..k], w)
  {
  }

  // ---- extract_public_mentions ----

  ghost predicate DistinctIds(users: seq<User>) {
    forall i, j :: 0 <= i < j < |users| ==> users[i].id != users[j].id
  }

  /** The users listed after the first names, each id once. */
  function Notes(text: string, sorted: seq<User>, k: nat): seq<User>
    requires k <= |sorted|
  {
    if k == 0 then []
    else
      var before := Notes(text, sorted, k - 1);
      if Found(text, sorted, k - 1) && !Listed(before, sorted[k - 1].id) then before + [sorted[k - 1]] else before
  }

  method ExtractPublicMentions(text: string, users: seq<User>) returns (mentions: seq<User>)
    ensures |ByLength(users)| == |users| && mentions == Notes(text, ByLength(users), |users|)
  {
    hide Contains, Listed, ByLength, RemoveAll;
    var sorted := ByLength(users);
    ByLengthSorts(users, 0);
    assert |multiset(sorted)| == |multiset(users)|;
    var remaining := text;
    mentions := [];
    for k := 0 to |sorted|
      invariant remaining == TextAfter(text, sorted, k)
      invariant mentions == Notes(text, sorted, k)
    {
      var token := "@" + sorted[k].name;
      assert Names(sorted)[..k + 1][..k] == Names(sorted)[..k];
      if Contains(remaining, token) {
        remaining := RemoveAll(remaining, token);
        if !Listed(mentions, sorted[k].id) { mentions := mentions + [sorted[k]]; }
      }
    }
  }

  lemma {:induction false} NotesAreFound(text: string, sorted: seq<User>, k: nat)
    requires k <= |sorted|
    ensures DistinctIds(Notes(text, sorted, k))
    ensures forall m :: m in Notes(text, sorted, k) ==>
      exists j :: 0 <= j < k && sorted[j] == m && Found(text, sorted, j)
    ensures forall j :: 0 <= j < k && Found(text, sorted, j) ==> Listed(Notes(text, sorted, k), sorted[j].id)
  {
    hide Found;
    if k > 0 {
      var before, now := Notes(text, sorted, k - 1), Notes(text, sorted, k);
      NotesAreFound(text, sorted, k - 1);
      forall id | Listed(before, id) ensures Listed(now, id) {
        var m :| m in before && m.id == id;
        assert m in now;
      }
      if Found(text, sorted, k - 1) && !Listed(before, sorted[k - 1].id) {
        assert sorted[k - 1] in now;
        forall m | m in before ensures m.id != sorted[k - 1].id { assert Listed(before, m.id); }
      }
    }
  }

  /**
   * In a text that glues nothing, the users listed are those mentioned by the longest public name at some `@`,
   * each id once.
   */
  lemma MentionsAreLongest(text: string, users: seq<User>)
    requires PlainNames(users) && DistinctNames(users) && !Glues(text, Names(ByLength(users)))
    ensures |ByLength(users)| == |users|
    ensures var r := Notes(text, ByLength(users), |users|);
      && DistinctIds(r) && (forall u :: u in r ==> u in users && Mentioned(text, users, u))
      && (forall u :: u in users && Mentioned(text, users, u) ==> Listed(r, u.id))
  {
    hide Glues, PlainName, Notes, Found, LongestAt, ByLength, LongestFirst;
    var sorted := ByLength(users);
    ByLengthSorts(users, 0);
    assert |multiset(sorted)| == |multiset(users)|;
    SameUsers(users, sorted);
    NotesAreFound(text, sorted, |sorted|);
    forall k | 0 <= k < |sorted| ensures Found(text, sorted, k) <==> Mentioned(text, users, sorted[k]) {
      FoundIffMentioned(text, sorted, k);
      SameMentions(text, users, sorted, sorted[k]);
    }
  }

  lemma SameMentions(text: string, users: seq<User>, sorted: seq<User>, u: User)
    requires forall v :: v in users <==> v in sorted
    ensures Mentioned(text, users, u) <==> Mentioned(text, sorted, u)
  {
  }

  lemma SameUsers(users: seq<User>, sorted: seq<User>)
    requires multiset(sorted) == multiset(users) && DistinctNames(users)
    ensures forall u :: u in users <==> u in sorted
    ensures DistinctNames(sorted)
  {
    forall u ensures u in users <==> u in sorted { assert u in users <==> u in multiset(users); }
    forall i, j | 0 <= i < j < |sorted| ensures sorted[i].name != sorted[j].name {
      if sorted[i].name == sorted[j].name {
        assert sorted[i] in users && sorted[j] in users;
        assert sorted[i] == sorted[j];
        TwiceInMultiset(sorted, i, j);
        OnceInMultiset(users, sorted[i]);
        assert false;
      }
    }
  }

  lemma TwiceInMultiset(s: seq<User>, i: nat, j: nat)
    requires i < j < |s| && s[i] == s[j]
    ensures multiset(s)[s[i]] >= 2
  {
    assert s == s[..i] + [s[i]] + s[i + 1..j] + [s[j]] + s[j + 1..];
  }

  lemma {:induction false} OnceInMultiset(s: seq<User>, u: User)
    requires DistinctNames(s)
    ensures multiset(s)[u] <= 1
  {
    if s != [] {
      assert s == [s[0]] + s[1..];
      OnceInMultiset(s[1..], u);
    }
  }

  const BB := User("1", "bb")
  const AC := User("2", "ac")

  /** An `@` inside a word does no harm by itself: an address glues nothing. */
  lemma AddressGluesNothing()
    ensures !Spaced("x@bb") && !Glues("x@bb", ["bb"])
  {
    var s := "x@bb";
    assert s[1] == '@' && s[1..] == "@bb" && s[1..][1..] == "bb" && "bb"[1..] == "b" && "b"[1..] == "";
    assert Runs("b") == [[]] && Runs("bb") == [[]];
    assert |Runs("@bb")| == 1 && |Runs("@bb")[0]| == 1;
    assert Runs(s) == Runs("@bb");
  }

  /** But a name taken in part after another can put a new one together: `@a@bbc` turns into `@ac`. */
  lemma GluedMention()
    ensures PlainNames([BB, AC]) && DistinctNames([BB, AC]) && ByLength([BB, AC]) == [BB, AC]
    ensures Glues("@a@bbc", Names([BB, AC]))
    ensures Notes("@a@bbc", [BB, AC], 2) == [BB, AC] && !Mentioned("@a@bbc", [BB, AC], AC)
  {
    hide Notes, Mentioned, Glues;
    GluedNotes();
    GluedIsNotMentioned([BB, AC]);
    GluedOrder();
    assert AC in [BB, AC];
    if !Glues("@a@bbc", Names([BB, AC])) { MentionsAreLongest("@a@bbc", [BB, AC]); }
  }

  lemma GluedOrder()
    ensures ByLength([BB, AC]) == [BB, AC]
  {
    assert [BB, AC][1..] == [AC] && [AC][1..] == [];
    assert ByLength([AC]) == [AC];
    assert Insert(BB, [AC]) == [BB, AC];
  }

  lemma GluedIsNotMentioned(users: seq<User>)
    ensures !Mentioned("@a@bbc", users, AC)
  {
    assert "@a@bbc"[1..][1] == '@' && "@a@bbc"[3..][0] == 'b';
  }

  lemma GluedNotes()
    ensures Notes("@a@bbc", [BB, AC], 2) == [BB, AC]
  {
    hide Contains, RemoveAll;
    var users, t := [BB, AC], "@a@bbc";
    var names := Names(users);
    GluedText();
    assert names[..0] == [] && names[..1] == ["bb"] && names[..1][..0] == [];
    assert Found(t, users, 0) && !Listed([], "1");
    assert Notes(t, users, 1) == [BB];
    assert Found(t, users, 1) && !Listed([BB], "2");
  }

  lemma GluedText()
    ensures Contains("@a@bbc", "@" + "bb") && RemoveAll("@a@bbc", "@" + "bb") == "@ac" && Contains("@ac", "@" + "ac")
  {
    var token := "@bb";
    assert "@" + "bb" == token && "@" + "ac" == "@ac";
    assert OccursAt("@a@bbc", token, 2) && OccursAt("@ac", "@ac", 0);
    var s := "@a@bbc";
    assert s[1..] == "a@bbc" && "a@bbc"[1..] == "@bbc" && "@bbc"[3..] == "c" && "c"[1..] == "";
    assert RemoveAll("c", token) == "c";
    assert RemoveAll("@bbc", token) == "c";
    assert RemoveAll("a@bbc", token) == "ac";
  }
}
