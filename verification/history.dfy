/** Conversation histories, and when a provider accepts them. */
module History {
  import opened Options
  import opened ToolCalls

  datatype Role = System | User | Assistant | Tool

  datatype ChatMessage = ChatMessage(
    role: Role, content: string, toolCalls: Option<seq<Call>>, toolCallId: Option<string>, reasoning: Option<string>)

  function TextMessage(role: Role, content: string): ChatMessage {
    ChatMessage(role, content, None, None, None)
  }

  function ToolResult(call: Call, content: string): ChatMessage {
    ChatMessage(Tool, content, None, Some(call.id), None)
  }

  /** Neither asks for tools nor answers a request for one. */
  predicate Plain(m: ChatMessage) {
    m.role != Tool && m.toolCalls == None && m.toolCallId == None
  }

  predicate Answers(m: ChatMessage, call: Call) {
    m.role == Tool && m.toolCalls == None && m.toolCallId == Some(call.id)
  }

  predicate Asks(m: ChatMessage) {
    m.role == Assistant && m.toolCalls.Some? && m.toolCalls.value != [] && m.toolCallId == None
  }

  ghost predicate DistinctIds(calls: seq<Call>) {
    forall i, j :: 0 <= i < j < |calls| ==> calls[i].id != calls[j].id
  }

  ghost predicate Answered(calls: seq<Call>, results: seq<ChatMessage>) {
    |results| == |calls| && forall i :: 0 <= i < |calls| ==> Answers(results[i], calls[i])
  }

  /** Every message that asks for tools is followed by exactly one result per call, in order, under
      distinct ids, and no result stands anywhere else. */
  ghost predicate WellPaired(h: seq<ChatMessage>) {
    h == []
    || (Plain(h[0]) && WellPaired(h[1..]))
    || (Asks(h[0]) && DistinctIds(h[0].toolCalls.value) && |h| > |h[0].toolCalls.value|
        && Answered(h[0].toolCalls.value, h[1..1 + |h[0].toolCalls.value|])
        && WellPaired(h[1 + |h[0].toolCalls.value|..]))
  }

  lemma {:induction false} WellPairedConcat(a: seq<ChatMessage>, b: seq<ChatMessage>)
    requires WellPaired(a) && WellPaired(b)
    ensures WellPaired(a + b)
    decreases |a|
  {
    if a == [] {
      assert a + b == b;
    } else if Plain(a[0]) {
      assert (a + b)[1..] == a[1..] + b;
      WellPairedConcat(a[1..], b);
    } else {
      var n := 1 + |a[0].toolCalls.value|;
      assert (a + b)[n..] == a[n..] + b && (a + b)[1..n] == a[1..n];
      WellPairedConcat(a[n..], b);
    }
  }

  lemma WellPairedPlain(m: ChatMessage)
    requires Plain(m)
    ensures WellPaired([m])
  {
  }

  /** A request and all its results, as one turn of the loop appends them. */
  lemma WellPairedRound(h: seq<ChatMessage>, ask: ChatMessage, results: seq<ChatMessage>)
    requires WellPaired(h) && Asks(ask) && DistinctIds(ask.toolCalls.value) && Answered(ask.toolCalls.value, results)
    ensures WellPaired(h + [ask] + results)
  {
    var r := [ask] + results;
    var n := 1 + |results|;
    assert r[1..n] == results && r[n..] == [];
    WellPairedConcat(h, r);
    assert h + [ask] + results == h + r;
  }

  /** The context message goes in after the system prompt. */
  function WithContext(h: seq<ChatMessage>, preContext: Option<ChatMessage>): seq<ChatMessage> {
    if preContext.Some? && |h| >= 1 then [h[0], preContext.value] + h[1..] else h
  }

  /** A history that opens with a plain message and a plain context message stays well paired. */
  lemma WithContextPaired(h: seq<ChatMessage>, preContext: Option<ChatMessage>)
    requires WellPaired(h) && (h != [] ==> Plain(h[0])) && (preContext.Some? ==> Plain(preContext.value))
    ensures WellPaired(WithContext(h, preContext))
  {
  }
}
