/** Well-formed conversations: every tool call is followed by exactly its results, in order. */
module Transcripts {
  import opened Prelude
  import opened Messages
  import opened BoundedHistory

  predicate UniqueIds(calls: seq<ToolCall>) {
    forall i, j :: 0 <= i < j < |calls| ==> calls[i].id != calls[j].id
  }

  predicate Answers(m: ModelMessage, call: ToolCall) {
    m.ToolResult? && m.callId == call.id && m.name == ToolName(call)
  }

  /** `messages` starts with the results of all `calls`, in order. */
  predicate AnswersAll(messages: seq<ModelMessage>, calls: seq<ToolCall>) {
    |calls| <= |messages| && forall i :: 0 <= i < |calls| ==> Answers(messages[i], calls[i])
  }

  /** The calls requested by one entry. */
  function CallsOf(m: ModelMessage): seq<ToolCall> {
    match m
    case AssistantToolCall(call) => [call]
    case AssistantToolCalls(calls) => calls
    case _ => []
  }

  /** The first entry is complete: no stray result, and its calls are answered at once. */
  ghost predicate StartsWell(messages: seq<ModelMessage>)
    requires messages != []
  {
    && !messages[0].ToolResult?
    && (messages[0].AssistantToolCalls? ==> messages[0].calls != [] && UniqueIds(messages[0].calls))
    && AnswersAll(messages[1..], CallsOf(messages[0]))
  }

  /** Length of the first entry together with its results. */
  function FirstLength(messages: seq<ModelMessage>): (n: nat)
    requires messages != []
    ensures n > 0
  {
    1 + |CallsOf(messages[0])|
  }

  ghost predicate WellFormed(messages: seq<ModelMessage>)
    decreases |messages|
  {
    messages == []
    || (&& StartsWell(messages)
        && FirstLength(messages) <= |messages|
        && WellFormed(messages[FirstLength(messages)..]))
  }

  function Flat(turns: seq<Turn>): seq<ModelMessage> {
    if turns == [] then [] else turns[0] + Flat(turns[1..])
  }

  function ResultsFor(calls: seq<ToolCall>, contents: seq<string>): (results: seq<ModelMessage>)
    requires |calls| == |contents|
    ensures |results| == |calls| && AnswersAll(results, calls)
    ensures forall i :: 0 <= i < |calls| ==> results[i].content == contents[i]
  {
    seq(|calls|, i requires 0 <= i < |calls| => ToolResult(calls[i].id, contents[i], ToolName(calls[i])))
  }

  lemma {:induction false} StartsWellConcat(a: seq<ModelMessage>, b: seq<ModelMessage>)
    requires a != [] && StartsWell(a)
    ensures StartsWell(a + b) && FirstLength(a + b) == FirstLength(a) <= |a|
  {
    assert (a + b)[1..] == a[1..] + b;
  }

  lemma {:induction false} WellFormedConcat(a: seq<ModelMessage>, b: seq<ModelMessage>)
    requires WellFormed(a) && WellFormed(b)
    ensures WellFormed(a + b)
    decreases |a|
  {
    hide StartsWell, FirstLength;
    if a == [] {
      assert a + b == b;
    } else {
      var n := FirstLength(a);
      WellFormedConcat(a[n..], b);
      StartsWellConcat(a, b);
      assert (a + b)[n..] == a[n..] + b;
    }
  }

  lemma {:induction false} PlainIsWellFormed(m: ModelMessage)
    requires !m.ToolResult? && CallsOf(m) == [] && !m.AssistantToolCalls?
    ensures WellFormed([m])
  {
    assert [m][1..] == [];
  }

  lemma {:induction false} ExchangeIsWellFormed(m: ModelMessage, results: seq<ModelMessage>)
    requires (m.AssistantToolCall? || m.AssistantToolCalls?)
    requires m.AssistantToolCalls? ==> m.calls != [] && UniqueIds(m.calls)
    requires |results| == |CallsOf(m)| && AnswersAll(results, CallsOf(m))
    ensures WellFormed([m] + results)
  {
    var all := [m] + results;
    assert all[1..] == results;
    assert all[1 + |CallsOf(m)|..] == [];
  }

  lemma {:induction false} FlatIsWellFormed(turns: seq<Turn>)
    requires forall i :: 0 <= i < |turns| ==> WellFormed(turns[i])
    ensures WellFormed(Flat(turns))
  {
    if turns != [] {
      FlatIsWellFormed(turns[1..]);
      WellFormedConcat(turns[0], Flat(turns[1..]));
    }
  }

  /** A request: optional system prompt, whole retained turns, then the new user message. */
  function Opening(system: Option<string>, turns: seq<Turn>, input: TurnInput): seq<ModelMessage> {
    (if system.Some? then [System(system.value)] else []) + Flat(turns) + [UserMessage(input)]
  }

  /** Messages of the first `i` turns. */
  function Offset(turns: seq<Turn>, i: nat): nat
    requires i <= |turns|
  {
    if i == 0 then 0 else Offset(turns, i - 1) + |turns[i - 1]|
  }

  /** Flattening keeps every turn, in order and unbroken. */
  lemma {:induction false} FlatAt(turns: seq<Turn>, i: nat)
    requires i < |turns|
    ensures Offset(turns, i) + |turns[i]| <= |Flat(turns)|
    ensures Flat(turns)[Offset(turns, i)..Offset(turns, i) + |turns[i]|] == turns[i]
    ensures |Flat(turns)| == Offset(turns, |turns|)
  {
    FlatLength(turns);
    var first, rest := turns[0], turns[1..];
    if i > 0 {
      FlatAt(rest, i - 1);
      OffsetTail(turns, i);
      var at := Offset(rest, i - 1);
      SliceInside(first, Flat(rest), [], at, at + |turns[i]|);
      assert first + Flat(rest) + [] == Flat(turns);
    }
  }

  lemma {:induction false} OffsetTail(turns: seq<Turn>, i: nat)
    requires 0 < |turns| && i <= |turns|
    ensures i > 0 ==> Offset(turns, i) == |turns[0]| + Offset(turns[1..], i - 1)
  {
    if i > 1 {
      OffsetTail(turns, i - 1);
    }
  }

  lemma {:induction false} FlatLength(turns: seq<Turn>)
    ensures |Flat(turns)| == Offset(turns, |turns|)
  {
    if turns != [] {
      FlatLength(turns[1..]);
      OffsetTail(turns, |turns|);
    }
  }

  lemma {:induction false} SliceInside(
    before: seq<ModelMessage>, middle: seq<ModelMessage>, after: seq<ModelMessage>, a: nat, b: nat)
    requires a <= b <= |middle|
    ensures (before + middle + after)[|before| + a..|before| + b] == middle[a..b]
  {
  }

  /** A request by position: the system prompt first if there is one, every retained turn in order, the input last. */
  lemma {:induction false} OpeningAt(system: Option<string>, turns: seq<Turn>, input: TurnInput)
    ensures var opening, start := Opening(system, turns, input), if system.Some? then 1 else 0;
            && |opening| == start + Offset(turns, |turns|) + 1
            && (system.Some? ==> opening[0] == System(system.value))
            && opening[|opening| - 1] == UserMessage(input)
            && forall i :: 0 <= i < |turns| ==>
                 && start + Offset(turns, i) + |turns[i]| < |opening|
                 && opening[start + Offset(turns, i)..start + Offset(turns, i) + |turns[i]|] == turns[i]
  {
    hide Flat, UserMessage, Offset;
    FlatLength(turns);
    var opening, start := Opening(system, turns, input), if system.Some? then 1 else 0;
    forall i | 0 <= i < |turns|
      ensures start + Offset(turns, i) + |turns[i]| < |opening|
      ensures opening[start + Offset(turns, i)..start + Offset(turns, i) + |turns[i]|] == turns[i]
    {
      FlatAt(turns, i);
      var at := Offset(turns, i);
      SliceInside(if system.Some? then [System(system.value)] else [], Flat(turns), [UserMessage(input)],
                  at, at + |turns[i]|);
    }
  }

  /** Evicting whole turns keeps every request well formed. */
  lemma {:induction false} OpeningIsWellFormed(system: Option<string>, turns: seq<Turn>, budget: nat, input: TurnInput)
    requires forall i :: 0 <= i < |turns| ==> WellFormed(turns[i])
    ensures WellFormed(Opening(system, Replay(turns, budget), input))
  {
    hide WellFormed, Replay;
    var k := ReplayFits(turns, budget);
    var kept := Replay(turns, budget);
    assert kept == turns[k..];
    FlatIsWellFormed(kept);
    PlainIsWellFormed(UserMessage(input));
    WellFormedConcat(Flat(kept), [UserMessage(input)]);
    if system.Some? {
      PlainIsWellFormed(System(system.value));
      WellFormedConcat([System(system.value)], Flat(kept) + [UserMessage(input)]);
      assert Opening(system, kept, input) == [System(system.value)] + (Flat(kept) + [UserMessage(input)]);
    } else {
      assert Opening(system, kept, input) == Flat(kept) + [UserMessage(input)];
    }
  }
}
