/** From the bytes of one model response to the tool calls that the turn dispatches. */
module Response {
  import opened Options
  import opened Text
  import opened Folds
  import opened SseStream
  import opened Chunking
  import opened ToolCalls
  import opened Pipeline
  import opened Turn
  import opened History

  /** The parser's outputs, as the turn reads them from the stream. */
  function ItemsOf(outputs: seq<Output>): seq<StreamItem> {
    seq(|outputs|, i requires 0 <= i < |outputs| =>
      match outputs[i] case Ok(chunk) => Item(chunk) case Err(message) => ItemError(message))
  }

  lemma {:induction false} CallsOfItems(outputs: seq<Output>)
    ensures CallsOf(ItemsOf(outputs)) == AccumulateAll(map[], outputs)
  {
    if outputs != [] {
      var before := outputs[..|outputs| - 1];
      CallsOfItems(before);
      assert ItemsOf(outputs)[..|outputs| - 1] == ItemsOf(before);
    }
  }

  /** The items of a response that arrives in the given pieces. */
  function ItemsOfResponse(json: string -> Payload, texts: seq<string>): seq<StreamItem> {
    ItemsOf(Fold(ChunkStep(json), ParserState("", NO_CALLS), AsChunks(texts)).1)
  }

  /** Every complete index has some arguments put out with or after the last part of its name. */
  ghost predicate NamesInTime(fs: seq<Fragment>) {
    forall i :: Complete(fs, i) ==> NameInTime(fs, i) && Trim(NameOf(fs, i)) != ""
  }

  /**
   * Whatever the pieces and whatever the order of the hash map, the calls of the turn are exactly those of the
   * complete indexes, each once, with its id and all its arguments; and all of them have their whole names exactly
   * when the names came in time.
   */
  lemma TurnGetsTheCalls(json: string -> Payload, texts: seq<string>, calls: seq<Call>)
    requires SameIndexSameId(TextFragments(json, Concat(texts)))
    requires Lists(calls, CallsOf(ItemsOfResponse(json, texts)))
    ensures DistinctIds(calls)
    ensures var fs := TextFragments(json, Concat(texts));
      && (forall c :: c in calls <==> exists i :: Complete(fs, i) && c == CallOf(fs, i))
      && ((forall i :: Complete(fs, i) ==> CallOf(fs, i) == Call(IdOf(fs, i), NameOf(fs, i), ArgsOf(fs, i)))
          <==> NamesInTime(fs))
  {
    hide TextFragments, Concat, StreamCalls, SameIndexSameId, CallsOf, ItemsOf;
    var fs, acc := TextFragments(json, Concat(texts)), StreamCalls(json, texts);
    assert CallsOf(ItemsOfResponse(json, texts)) == acc by { ItemsGiveStreamCalls(json, texts); }
    StreamGivesOneCallPerIndex(json, texts);
    CallsListed(fs, acc, calls);
    WholeNames(fs);
    hide NamesInTime, CallOf, Complete;
  }

  lemma CallsListed(fs: seq<Fragment>, acc: Accumulator, calls: seq<Call>)
    requires CallsAre(acc, fs) && Lists(calls, acc)
    ensures forall c :: c in calls <==> exists i :: Complete(fs, i) && c == CallOf(fs, i)
  {
    hide Complete, IdOf, NameOf, ArgsOf, EmittedName;
    forall c | c in calls ensures exists i :: Complete(fs, i) && c == CallOf(fs, i) {
      var i :| Complete(fs, i) && IdOf(fs, i) == c.id;
      assert acc[c.id] == CallOf(fs, i);
    }
    forall i | Complete(fs, i) ensures CallOf(fs, i) in calls {
      assert acc[IdOf(fs, i)] in calls;
    }
  }

  lemma WholeNames(fs: seq<Fragment>)
    ensures (forall i :: Complete(fs, i) ==> CallOf(fs, i) == Call(IdOf(fs, i), NameOf(fs, i), ArgsOf(fs, i)))
      <==> NamesInTime(fs)
  {
    forall i | Complete(fs, i)
      ensures CallOf(fs, i) == Call(IdOf(fs, i), NameOf(fs, i), ArgsOf(fs, i))
        <==> NameInTime(fs, i) && Trim(NameOf(fs, i)) != ""
    {
      WholeNameIff(fs, i);
    }
    hide Complete, NameInTime, CallOf, Trim, NameOf, IdOf, ArgsOf;
  }

  lemma ItemsGiveStreamCalls(json: string -> Payload, texts: seq<string>)
    ensures CallsOf(ItemsOfResponse(json, texts)) == StreamCalls(json, texts)
  {
    CallsOfItems(Fold(ChunkStep(json), ParserState("", NO_CALLS), AsChunks(texts)).1);
  }
}
