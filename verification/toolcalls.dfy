/** From the fragments of a stream to the tool calls of a turn: the parser's buffers put out deltas,
    the agent's accumulator puts them together again. */
module ToolCalls {
  import opened Options
  import opened Text
  import opened Folds
  import opened SseStream

  datatype Call = Call(id: string, name: string, arguments: string)

  type Accumulator = map<string, Call>

  /** The agent's side: one entry per call id, the latest non-blank name, the arguments in order. */
  function Accumulate(acc: Accumulator, id: string, name: string, args: string): Accumulator {
    var entry := if id in acc then acc[id] else Call(id, "", "");
    var named := if Trim(name) != "" then entry.(name := name) else entry;
    acc[id := named.(arguments := named.arguments + args)]
  }

  function AccumulateOutput(acc: Accumulator, o: Output): Accumulator {
    if o.Ok? && o.chunk.ToolCallDelta? then Accumulate(acc, o.chunk.id, o.chunk.name, o.chunk.args) else acc
  }

  function AccumulateAll(acc: Accumulator, outputs: seq<Output>): Accumulator {
    if outputs == [] then acc
    else AccumulateOutput(AccumulateAll(acc, outputs[..|outputs| - 1]), outputs[|outputs| - 1])
  }

  // ---- what the fragments of one index say, in order ----

  function Last(fs: seq<Fragment>): Fragment
    requires fs != []
  {
    fs[|fs| - 1]
  }

  function Init(fs: seq<Fragment>): seq<Fragment>
    requires fs != []
  {
    fs[..|fs| - 1]
  }

  function IdOf(fs: seq<Fragment>, i: int): string {
    if fs == [] then ""
    else if Index(Last(fs)) == i && OrEmpty(Last(fs).id) != "" then OrEmpty(Last(fs).id)
    else IdOf(Init(fs), i)
  }

  function NameOf(fs: seq<Fragment>, i: int): string {
    if fs == [] then "" else NameOf(Init(fs), i) + (if Index(Last(fs)) == i then OrEmpty(Last(fs).name) else "")
  }

  function ArgsOf(fs: seq<Fragment>, i: int): string {
    if fs == [] then "" else ArgsOf(Init(fs), i) + (if Index(Last(fs)) == i then OrEmpty(Last(fs).args) else "")
  }

  predicate Known(fs: seq<Fragment>, i: int) {
    IdOf(fs, i) != "" && NameOf(fs, i) != ""
  }

  /** How much of the arguments is out: all of them once id and name are known, none before. */
  function EmittedLen(fs: seq<Fragment>, i: int): nat {
    if Known(fs, i) then |ArgsOf(fs, i)| else 0
  }

  /** The last fragment makes the parser put out a delta for its index. */
  predicate Emits(fs: seq<Fragment>, i: int) {
    fs != [] && Index(Last(fs)) == i && Known(fs, i) && EmittedLen(Init(fs), i) < |ArgsOf(fs, i)|
  }

  /** The name as the latest delta that had a non-blank one carried it. */
  function EmittedName(fs: seq<Fragment>, i: int): string {
    if fs == [] then ""
    else if Emits(fs, i) && Trim(NameOf(fs, i)) != "" then NameOf(fs, i)
    else EmittedName(Init(fs), i)
  }

  /** Fragments carry the same id exactly when they carry the same index. */
  ghost predicate SameIndexSameId(fs: seq<Fragment>) {
    forall f, g :: f in fs && g in fs && OrEmpty(f.id) != "" && OrEmpty(g.id) != "" ==>
      (Index(f) == Index(g) <==> OrEmpty(f.id) == OrEmpty(g.id))
  }

  lemma {:induction false} IdComesFrom(fs: seq<Fragment>, i: int)
    requires IdOf(fs, i) != ""
    ensures exists f :: f in fs && Index(f) == i && OrEmpty(f.id) == IdOf(fs, i)
  {
    if !(Index(Last(fs)) == i && OrEmpty(Last(fs).id) != "") {
      IdComesFrom(Init(fs), i);
      var f :| f in Init(fs) && Index(f) == i && OrEmpty(f.id) == IdOf(Init(fs), i);
      assert f in fs;
    } else {
      assert Last(fs) in fs;
    }
  }

  lemma IdsDiffer(fs: seq<Fragment>, i: int, j: int)
    requires SameIndexSameId(fs) && IdOf(fs, i) != "" && IdOf(fs, j) != ""
    ensures IdOf(fs, i) == IdOf(fs, j) <==> i == j
  {
    IdComesFrom(fs, i);
    IdComesFrom(fs, j);
  }

  /** An index keeps its id from its first one on. */
  lemma IdIsStable(fs: seq<Fragment>, i: int)
    requires fs != [] && SameIndexSameId(fs) && IdOf(Init(fs), i) != ""
    ensures IdOf(fs, i) == IdOf(Init(fs), i)
  {
    IdComesFrom(Init(fs), i);
    assert Last(fs) in fs;
  }

  // ---- the parser's buffers and the accumulator, both as functions of the fragments ----

  ghost predicate BuffersAre(calls: Calls, fs: seq<Fragment>) {
    && (forall i :: i in calls ==>
          calls[i] == ToolCallBuffer(IdOf(fs, i), NameOf(fs, i), ArgsOf(fs, i), EmittedLen(fs, i)))
    && (forall i :: i !in calls ==> IdOf(fs, i) == NameOf(fs, i) == ArgsOf(fs, i) == "")
  }

  function CallOf(fs: seq<Fragment>, i: int): Call {
    Call(IdOf(fs, i), EmittedName(fs, i), ArgsOf(fs, i))
  }

  /** An index has something out. */
  predicate Out(fs: seq<Fragment>, i: int) {
    EmittedLen(fs, i) > 0
  }

  ghost predicate AccumulatorIs(acc: Accumulator, fs: seq<Fragment>) {
    && (forall i :: Out(fs, i) ==> IdOf(fs, i) in acc && acc[IdOf(fs, i)] == CallOf(fs, i))
    && (forall id :: id in acc ==> exists i :: Out(fs, i) && IdOf(fs, i) == id)
  }

  lemma OtherIndex(fs: seq<Fragment>, i: int)
    requires fs != [] && Index(Last(fs)) != i
    ensures IdOf(fs, i) == IdOf(Init(fs), i) && NameOf(fs, i) == NameOf(Init(fs), i)
    ensures ArgsOf(fs, i) == ArgsOf(Init(fs), i)
    ensures EmittedLen(fs, i) == EmittedLen(Init(fs), i) && EmittedName(fs, i) == EmittedName(Init(fs), i)
  {
  }

  /** One fragment through the parser. */
  lemma ParserStep(calls: Calls, fs: seq<Fragment>)
    requires fs != [] && BuffersAre(calls, Init(fs))
    ensures var (calls', out) := FragmentStep(calls, Last(fs)); var i := Index(Last(fs));
      && BuffersAre(calls', fs)
      && out ==
           if Emits(fs, i)
           then [Ok(ToolCallDelta(IdOf(fs, i), NameOf(fs, i), ArgsOf(fs, i)[EmittedLen(Init(fs), i)..]))]
           else []
  {
    var i := Index(Last(fs));
    var entry := Merge(if i in calls then calls[i] else EMPTY_BUFFER, Last(fs));
    assert entry == ToolCallBuffer(IdOf(fs, i), NameOf(fs, i), ArgsOf(fs, i), EmittedLen(Init(fs), i));
    var calls' := FragmentStep(calls, Last(fs)).0;
    forall j | j != i
      ensures j in calls' ==> calls'[j] == ToolCallBuffer(IdOf(fs, j), NameOf(fs, j), ArgsOf(fs, j), EmittedLen(fs, j))
      ensures j !in calls' ==> IdOf(fs, j) == NameOf(fs, j) == ArgsOf(fs, j) == ""
    {
      OtherIndex(fs, j);
    }
  }

  /** A delta of index `i` reaches the accumulator. */
  lemma EmitStep(acc: Accumulator, fs: seq<Fragment>, i: int)
    requires fs != [] && SameIndexSameId(fs) && i == Index(Last(fs)) && Emits(fs, i)
    requires AccumulatorIs(acc, Init(fs))
    ensures AccumulatorIs(Accumulate(acc, IdOf(fs, i), NameOf(fs, i), ArgsOf(fs, i)[EmittedLen(Init(fs), i)..]), fs)
  {
    var id := IdOf(fs, i);
    var acc' := Accumulate(acc, id, NameOf(fs, i), ArgsOf(fs, i)[EmittedLen(Init(fs), i)..]);
    if Out(Init(fs), i) {
      IdIsStable(fs, i);
    } else {
      NothingOutYet(acc, fs, i);
    }
    assert acc'[id] == CallOf(fs, i);
    forall j | Out(fs, j) && j != i
      ensures IdOf(fs, j) in acc' && acc'[IdOf(fs, j)] == CallOf(fs, j)
    {
      OtherIndex(fs, j);
      IdsDiffer(fs, i, j);
    }
    forall k | k in acc'
      ensures exists j :: Out(fs, j) && IdOf(fs, j) == k
    {
      if k == id {
        assert Out(fs, i);
      } else {
        var j :| Out(Init(fs), j) && IdOf(Init(fs), j) == k;
        if j == i { IdIsStable(fs, i); }
        OtherIndex(fs, j);
      }
    }
  }

  /** An index with nothing out has no accumulator entry under the id it has now. */
  lemma NothingOutYet(acc: Accumulator, fs: seq<Fragment>, i: int)
    requires fs != [] && SameIndexSameId(fs) && i == Index(Last(fs)) && !Out(Init(fs), i) && Known(fs, i)
    requires AccumulatorIs(acc, Init(fs))
    ensures IdOf(fs, i) !in acc && EmittedName(Init(fs), i) == "" && EmittedLen(Init(fs), i) == 0
  {
    NoNameBeforeOutput(Init(fs), i);
    if IdOf(fs, i) in acc {
      var j :| Out(Init(fs), j) && IdOf(Init(fs), j) == IdOf(fs, i);
      OtherIndex(fs, j);
      IdsDiffer(fs, i, j);
    }
  }

  lemma {:induction false} NoNameBeforeOutput(fs: seq<Fragment>, i: int)
    requires !Out(fs, i)
    ensures EmittedName(fs, i) == ""
  {
    if fs != [] {
      StaysOut(fs, i);
      NoNameBeforeOutput(Init(fs), i);
    }
  }

  lemma StaysOut(fs: seq<Fragment>, i: int)
    requires fs != []
    ensures Out(Init(fs), i) ==> Out(fs, i)
  {
  }

  /** A fragment that puts nothing out leaves the accumulator as it should be. */
  lemma SilentStep(acc: Accumulator, fs: seq<Fragment>)
    requires fs != [] && SameIndexSameId(fs) && AccumulatorIs(acc, Init(fs)) && !Emits(fs, Index(Last(fs)))
    ensures AccumulatorIs(acc, fs)
  {
    var i := Index(Last(fs));
    forall j
      ensures Out(fs, j) <==> Out(Init(fs), j)
      ensures Out(fs, j) ==> IdOf(fs, j) == IdOf(Init(fs), j) && CallOf(fs, j) == CallOf(Init(fs), j)
    {
      if j != i {
        OtherIndex(fs, j);
      } else if Out(Init(fs), i) {
        IdIsStable(fs, i);
      }
    }
  }

  lemma InitInside(fs: seq<Fragment>)
    requires fs != [] && SameIndexSameId(fs)
    ensures SameIndexSameId(Init(fs))
  {
  }

  lemma AccumulateLast(acc: Accumulator, outputs: seq<Output>, out: seq<Output>)
    requires |out| <= 1
    ensures AccumulateAll(acc, outputs + out) == AccumulateAll(AccumulateAll(acc, outputs), out)
  {
    if out == [] {
      assert outputs + out == outputs;
    } else {
      assert (outputs + out)[..|outputs|] == outputs && out[..0] == [];
    }
  }

  lemma PipelineStep(calls: Calls, acc: Accumulator, fs: seq<Fragment>)
    requires fs != [] && SameIndexSameId(fs) && BuffersAre(calls, Init(fs)) && AccumulatorIs(acc, Init(fs))
    ensures var (calls', out) := FragmentStep(calls, Last(fs));
      BuffersAre(calls', fs) && |out| <= 1 && AccumulatorIs(AccumulateAll(acc, out), fs)
  {
    ParserStep(calls, fs);
    var i, out := Index(Last(fs)), FragmentStep(calls, Last(fs)).1;
    if Emits(fs, i) {
      EmitStep(acc, fs, i);
      assert out[..0] == [];
    } else {
      SilentStep(acc, fs);
    }
  }

  lemma PipelineStart()
    ensures BuffersAre(NO_CALLS, []) && AccumulatorIs(map[], [])
  {
  }

  /** Parser and accumulator, run over the fragments of one stream. */
  lemma {:induction false} PipelineState(fs: seq<Fragment>)
    requires SameIndexSameId(fs)
    ensures var (calls, outputs) := Fold(FragmentStep, NO_CALLS, fs);
      BuffersAre(calls, fs) && AccumulatorIs(AccumulateAll(map[], outputs), fs)
  {
    hide FragmentStep, BuffersAre, AccumulatorIs, SameIndexSameId;
    if fs == [] {
      PipelineStart();
    } else {
      InitInside(fs);
      PipelineState(Init(fs));
      var (calls, outputs) := Fold(FragmentStep, NO_CALLS, Init(fs));
      assert fs == Init(fs) + [Last(fs)];
      FoldSnoc(FragmentStep, NO_CALLS, Init(fs), Last(fs));
      PipelineStep(calls, AccumulateAll(map[], outputs), fs);
      AccumulateLast(map[], outputs, FragmentStep(calls, Last(fs)).1);
    }
  }

  /** An index with an id, a name and arguments. */
  predicate Complete(fs: seq<Fragment>, i: int) {
    Known(fs, i) && ArgsOf(fs, i) != ""
  }

  /** One call for each complete index, and nothing else. */
  ghost predicate CallsAre(calls: Accumulator, fs: seq<Fragment>) {
    && (forall i :: Complete(fs, i) ==> IdOf(fs, i) in calls && calls[IdOf(fs, i)] == CallOf(fs, i))
    && (forall id :: id in calls ==> exists i :: Complete(fs, i) && IdOf(fs, i) == id)
  }

  /**
   * End to end, whatever order id, name and arguments arrive in: one call for each index that has an id, a name and
   * arguments, with that id and all the arguments, under the name as it was when last put out; nothing else.
   */
  lemma OneCallPerIndex(fs: seq<Fragment>, calls: Accumulator)
    requires SameIndexSameId(fs) && calls == AccumulateAll(map[], Fold(FragmentStep, NO_CALLS, fs).1)
    ensures CallsAre(calls, fs)
  {
    PipelineState(fs);
    hide SameIndexSameId, CallOf, ArgsOf, NameOf, IdOf;
    forall i ensures Complete(fs, i) <==> Out(fs, i) {}
  }

  // ---- when the name is whole ----

  /** No more of the name comes from fragment `n` on. */
  predicate NameDone(fs: seq<Fragment>, i: int, n: nat)
    requires n <= |fs|
  {
    forall k :: n <= k < |fs| && Index(fs[k]) == i ==> OrEmpty(fs[k].name) == ""
  }

  /** Some arguments are put out with or after the last part of the name. */
  ghost predicate NameInTime(fs: seq<Fragment>, i: int) {
    exists n :: 0 < n <= |fs| && Emits(fs[..n], i) && NameDone(fs, i, n)
  }

  lemma NameInTimeSnoc(fs: seq<Fragment>, i: int)
    requires fs != []
    ensures NameInTime(fs, i) <==>
      Emits(fs, i) || (NameInTime(Init(fs), i) && (Index(Last(fs)) == i ==> OrEmpty(Last(fs).name) == ""))
  {
    hide Emits, Index;
    assert fs[..|fs|] == fs;
    if Emits(fs, i) { assert NameDone(fs, i, |fs|) && Emits(fs[..|fs|], i); }
    if n :| 0 < n <= |fs| && Emits(fs[..n], i) && NameDone(fs, i, n) {
      if n < |fs| {
        assert fs[..n] == Init(fs)[..n] && NameDone(Init(fs), i, n);
        assert Last(fs) == fs[|fs| - 1];
      }
    }
    if NameInTime(Init(fs), i) && (Index(Last(fs)) == i ==> OrEmpty(Last(fs).name) == "") {
      var n :| 0 < n <= |Init(fs)| && Emits(Init(fs)[..n], i) && NameDone(Init(fs), i, n);
      assert fs[..n] == Init(fs)[..n];
      assert NameDone(fs, i, n);
    }
  }

  lemma {:induction false} NoLongerThanTheName(fs: seq<Fragment>, i: int)
    ensures |EmittedName(fs, i)| <= |NameOf(fs, i)|
    ensures IsBlank(NameOf(fs, i)) ==> EmittedName(fs, i) == ""
  {
    if fs != [] {
      NoLongerThanTheName(Init(fs), i);
      TrimBlank(NameOf(fs, i));
      hide Emits;
      assert forall c :: c in NameOf(Init(fs), i) ==> c in NameOf(fs, i);
    }
  }

  lemma NameStep(fs: seq<Fragment>, i: int)
    requires fs != []
    ensures NameOf(fs, i) ==
      if Index(Last(fs)) == i then NameOf(Init(fs), i) + OrEmpty(Last(fs).name) else NameOf(Init(fs), i)
  {
    assert NameOf(Init(fs), i) + "" == NameOf(Init(fs), i);
  }

  lemma EmittedStep(fs: seq<Fragment>, i: int)
    requires fs != []
    ensures EmittedName(fs, i) ==
      if Emits(fs, i) && Trim(NameOf(fs, i)) != "" then NameOf(fs, i) else EmittedName(Init(fs), i)
  {
  }

  /** A call carries the whole name exactly when some arguments were put out with or after the last part of it. */
  lemma {:induction false} WholeNameIff(fs: seq<Fragment>, i: int)
    requires NameOf(fs, i) != ""
    ensures EmittedName(fs, i) == NameOf(fs, i) <==> NameInTime(fs, i) && Trim(NameOf(fs, i)) != ""
  {
    NoLongerThanTheName(Init(fs), i);
    NoLongerThanTheName(fs, i);
    TrimBlank(NameOf(fs, i));
    NameInTimeSnoc(fs, i);
    NameStep(fs, i);
    EmittedStep(fs, i);
    hide NameInTime, Emits, IsBlank, Trim, Index, EmittedName, NameOf;
    if Index(Last(fs)) != i || OrEmpty(Last(fs).name) == "" {
      assert NameOf(fs, i) == NameOf(Init(fs), i);
      WholeNameIff(Init(fs), i);
    }
  }
}
