/** The model and tool loop of one turn. */
module Engine {
  import opened Prelude
  import opened Messages
  import opened Transcripts

  datatype Request = Request(messages: seq<ModelMessage>, session: Option<string>)

  datatype Response = Output(text: string) | Call(call: ToolCall) | Calls(calls: seq<ToolCall>)

  datatype ModelError = ResumeUnavailable | MissingToolCall | DuplicateToolCallId | OtherModelError

  /** One provider attempt, output validation included. */
  datatype Attempt =
    | Responded(response: Response, session: Option<string>, reasoning: Option<string>)
    | Refused(error: ModelError)

  datatype TurnError =
    | ModelFailed(error: ModelError)
    | NativeResumeFailed(error: ModelError)
    | ReplayFailed(error: ModelError)
    | ToolDenied
    | ToolCallLimit
    | ToolFailed

  /** Any provider and any tools: answers may depend on the request and on everything sent before. */
  type Provider = (Request, nat) -> Attempt
  type Tools = (ToolCall, nat) -> Result<string, TurnError>

  datatype Options = Options(readAllowed: bool, writeAllowed: bool, maxToolCalls: nat)

  datatype Completed = Completed(
    response: Response, session: Option<string>, resumeRejected: bool, reasoning: Option<string>)

  datatype Outcome = Outcome(output: string, messages: seq<ModelMessage>, session: Option<string>)

  /** One model response and the calls executed for it. */
  datatype Round = Round(response: Response, executed: seq<ToolCall>)

  predicate Allowed(options: Options, call: ToolCall) {
    if call.arguments.Read? then options.readAllowed else options.writeAllowed
  }

  predicate IsReplay(request: Request, replay: Request) {
    request.session.Some? && replay == request.(session := None)
  }

  /** Tool calls executed over the rounds, in order. */
  function ExecutedIn(log: seq<Round>): seq<ToolCall> {
    if log == [] then [] else ExecutedIn(log[..|log| - 1]) + log[|log| - 1].executed
  }

  predicate Rejected(calls: seq<ToolCall>, remaining: int) {
    calls == [] || !UniqueIds(calls) || |calls| > remaining
  }

  /** A round executes allowed calls it was asked for, in order, and nothing of a batch it must reject. */
  predicate RoundOk(options: Options, round: Round, remaining: int) {
    && (forall i :: 0 <= i < |round.executed| ==> Allowed(options, round.executed[i]))
    && match round.response
       case Output(_) => round.executed == []
       case Call(call) => round.executed <= [call] && |round.executed| <= remaining
       case Calls(calls) => round.executed <= calls && (Rejected(calls, remaining) ==> round.executed == [])
  }

  ghost predicate LogOk(options: Options, log: seq<Round>) {
    forall i :: 0 <= i < |log| ==> RoundOk(options, log[i], options.maxToolCalls - |ExecutedIn(log[..i])|)
  }

  /** Calls recorded in a conversation, in order. */
  function CallsIn(messages: seq<ModelMessage>): seq<ToolCall> {
    if messages == [] then [] else CallsIn(messages[..|messages| - 1]) + CallsOf(messages[|messages| - 1])
  }

  lemma {:induction false} CallsInConcat(a: seq<ModelMessage>, b: seq<ModelMessage>)
    ensures CallsIn(a + b) == CallsIn(a) + CallsIn(b)
  {
    hide CallsOf;
    if b == [] {
      assert a + b == a;
    } else {
      CallsInConcat(a, b[..|b| - 1]);
      assert (a + b)[..|a + b| - 1] == a + b[..|b| - 1];
    }
  }

  lemma {:induction false} ResultsHoldNoCalls(results: seq<ModelMessage>)
    requires forall i :: 0 <= i < |results| ==> results[i].ToolResult?
    ensures CallsIn(results) == []
  {
    if results != [] {
      ResultsHoldNoCalls(results[..|results| - 1]);
    }
  }

  /** Contents of the tool results in a conversation, in order. */
  function ContentsIn(messages: seq<ModelMessage>): seq<string> {
    if messages == [] then []
    else
      var last := messages[|messages| - 1];
      ContentsIn(messages[..|messages| - 1]) + (if last.ToolResult? then [last.content] else [])
  }

  lemma {:induction false} ContentsInConcat(a: seq<ModelMessage>, b: seq<ModelMessage>)
    ensures ContentsIn(a + b) == ContentsIn(a) + ContentsIn(b)
  {
    if b == [] {
      assert a + b == a;
    } else {
      ContentsInConcat(a, b[..|b| - 1]);
      assert (a + b)[..|a + b| - 1] == a + b[..|b| - 1];
    }
  }

  lemma {:induction false} ContentsInOne(m: ModelMessage)
    requires !m.ToolResult?
    ensures ContentsIn([m]) == []
  {
    assert [m][..0] == [];
  }

  lemma {:induction false} ContentsInResults(results: seq<ModelMessage>, contents: seq<string>)
    requires |results| == |contents|
    requires forall i :: 0 <= i < |results| ==> results[i].ToolResult? && results[i].content == contents[i]
    ensures ContentsIn(results) == contents
  {
    if results != [] {
      var n := |results| - 1;
      ContentsInResults(results[..n], contents[..n]);
      assert contents == contents[..n] + [contents[n]];
    }
  }

  lemma {:induction false} CallsInOne(m: ModelMessage)
    ensures CallsIn([m]) == CallsOf(m)
  {
    assert [m][..0] == [];
  }

  /** Appending one exchange appends its calls and keeps the conversation well formed. */
  lemma {:induction false} ExchangeAppends(messages: seq<ModelMessage>, m: ModelMessage, results: seq<ModelMessage>)
    requires WellFormed(messages) && (m.AssistantToolCall? || m.AssistantToolCalls?)
    requires m.AssistantToolCalls? ==> m.calls != [] && UniqueIds(m.calls)
    requires |results| == |CallsOf(m)| && AnswersAll(results, CallsOf(m))
    ensures WellFormed(messages + ([m] + results))
    ensures CallsIn(messages + ([m] + results)) == CallsIn(messages) + CallsOf(m)
  {
    hide WellFormed, CallsIn, UniqueIds;
    ExchangeIsWellFormed(m, results);
    WellFormedConcat(messages, [m] + results);
    CallsInConcat(messages, [m] + results);
    CallsInConcat([m], results);
    ResultsHoldNoCalls(results);
    CallsInOne(m);
  }

  lemma {:induction false} OutputAppends(messages: seq<ModelMessage>, m: ModelMessage)
    requires WellFormed(messages) && (m.Assistant? || m.AssistantReasoning?)
    ensures WellFormed(messages + [m]) && CallsIn(messages + [m]) == CallsIn(messages)
  {
    hide WellFormed, CallsIn;
    PlainIsWellFormed(m);
    WellFormedConcat(messages, [m]);
    CallsInConcat(messages, [m]);
    CallsInOne(m);
  }

  /** Whether no identifier repeats, remembering those already seen. */
  method EnsureUniqueIds(calls: seq<ToolCall>) returns (unique: bool)
    ensures unique == UniqueIds(calls)
  {
    var seen: set<string> := {};
    for i := 0 to |calls|
      invariant forall id :: id in seen <==> exists j :: 0 <= j < i && calls[j].id == id
      invariant UniqueIds(calls[..i])
    {
      if calls[i].id in seen {
        return false;
      }
      seen := seen + {calls[i].id};
    }
    assert calls[..|calls|] == calls;
    return true;
  }

  /** A failed request names its kind: a replay, a native resume, or a plain request. */
  function RequestError(request: Request, replayed: bool, error: ModelError): TurnError {
    if replayed then ReplayFailed(error)
    else if request.session.Some? then NativeResumeFailed(error)
    else ModelFailed(error)
  }

  /** One model request: a rejected native resume is replayed once without the session. */
  method CompleteModelRequest(provider: Provider, request: Request, index: nat)
    returns (r: Result<Completed, TurnError>, sent: seq<Request>)
    ensures 1 <= |sent| <= 2 && sent[0] == request
    ensures |sent| == 2 <==> request.session.Some? && provider(request, index) == Refused(ResumeUnavailable)
    ensures |sent| == 2 ==> IsReplay(request, sent[1])
    ensures r.Ok? ==> r.value.resumeRejected == (|sent| == 2)
    ensures r.Ok? ==> provider(sent[|sent| - 1], index + |sent| - 1) ==
                      Responded(r.value.response, r.value.session, r.value.reasoning)
    ensures var answer := provider(sent[|sent| - 1], index + |sent| - 1);
            r.Err? ==> answer.Refused? && r.error == RequestError(request, |sent| == 2, answer.error)
  {
    sent := [request];
    var attempt := provider(request, index);
    match attempt
    case Responded(response, session, reasoning) =>
      r := Ok(Completed(response, session, false, reasoning));
    case Refused(error) =>
      if error == ResumeUnavailable && request.session.Some? {
        var replay := request.(session := None);
        sent := sent + [replay];
        var again := provider(replay, index + 1);
        match again
        case Responded(response, session, reasoning) =>
          r := Ok(Completed(response, session, true, reasoning));
        case Refused(replayError) => r := Err(ReplayFailed(replayError));
      } else if request.session.Some? {
        r := Err(NativeResumeFailed(error));
      } else {
        r := Err(ModelFailed(error));
      }
  }

  /** Permission is checked before the limit; only an executed call counts. */
  method ExecuteToolCall(options: Options, tools: Tools, call: ToolCall, completed: nat)
    returns (r: Result<string, TurnError>, executed: bool)
    ensures executed <==> Allowed(options, call) && completed < options.maxToolCalls
    ensures executed ==> r == tools(call, completed)
    ensures !Allowed(options, call) ==> r == Err(ToolDenied)
    ensures Allowed(options, call) && !executed ==> r == Err(ToolCallLimit)
  {
    if !Allowed(options, call) {
      return Err(ToolDenied), false;
    }
    if completed >= options.maxToolCalls {
      return Err(ToolCallLimit), false;
    }
    return tools(call, completed), true;
  }

  /** Why executing one call fails. */
  ghost predicate CallFails(options: Options, tools: Tools, call: ToolCall, completed: nat, error: TurnError) {
    if !Allowed(options, call) then error == ToolDenied
    else if completed >= options.maxToolCalls then error == ToolCallLimit
    else tools(call, completed) == Err(error)
  }

  /** The first call of an accepted batch that fails, after all before it succeeded. */
  ghost predicate BatchFailsAt(options: Options, tools: Tools, calls: seq<ToolCall>, completed: nat, k: nat,
                               error: TurnError)
    requires k < |calls|
  {
    && (forall j :: 0 <= j < k ==> Allowed(options, calls[j]) && tools(calls[j], completed + j).Ok?)
    && CallFails(options, tools, calls[k], completed + k, error)
  }

  /** Why executing what a response asks for fails. */
  ghost predicate Caused(options: Options, tools: Tools, response: Response, completed: nat, error: TurnError) {
    match response
    case Output(_) => false
    case Call(call) => CallFails(options, tools, call, completed, error)
    case Calls(calls) =>
      if calls == [] then error == ModelFailed(MissingToolCall)
      else if !UniqueIds(calls) then error == ModelFailed(DuplicateToolCallId)
      else if |calls| > options.maxToolCalls - completed then error == ToolCallLimit
      else exists k :: 0 <= k < |calls| && BatchFailsAt(options, tools, calls, completed, k, error)
  }

  /** A batch: checked as a whole before anything runs, then executed in order until a call fails. */
  method ExecuteBatch(options: Options, tools: Tools, calls: seq<ToolCall>, completed: nat)
    returns (r: Result<seq<string>, TurnError>, executed: seq<ToolCall>)
    requires completed <= options.maxToolCalls
    ensures RoundOk(options, Round(Calls(calls), executed), options.maxToolCalls - completed)
    ensures r.Err? ==> Caused(options, tools, Calls(calls), completed, r.error)
    ensures Rejected(calls, options.maxToolCalls - completed) ==> r.Err?
    ensures r.Ok? ==> executed == calls && |r.value| == |calls| && calls != []
    ensures r.Ok? ==> forall i :: 0 <= i < |calls| ==> tools(calls[i], completed + i) == Ok(r.value[i])
    ensures completed + |executed| <= options.maxToolCalls
  {
    executed := [];
    if calls == [] {
      return Err(ModelFailed(MissingToolCall)), [];
    }
    var unique := EnsureUniqueIds(calls);
    if !unique {
      return Err(ModelFailed(DuplicateToolCallId)), [];
    }
    if |calls| > SaturatingSub(options.maxToolCalls, completed) {
      return Err(ToolCallLimit), [];
    }
    var results: seq<string> := [];
    for i := 0 to |calls|
      invariant executed == calls[..i] && |results| == i
      invariant forall j :: 0 <= j < i ==> Allowed(options, calls[j])
      invariant forall j :: 0 <= j < i ==> tools(calls[j], completed + j) == Ok(results[j])
    {
      var result, ran := ExecuteToolCall(options, tools, calls[i], completed + i);
      if ran {
        executed := executed + [calls[i]];
      }
      if result.Err? {
        assert BatchFailsAt(options, tools, calls, completed, i, result.error);
        return Err(result.error), executed;
      }
      results := results + [result.value];
    }
    r := Ok(results);
  }

  function CallsAsked(response: Response): seq<ToolCall> {
    match response
    case Output(_) => []
    case Call(call) => [call]
    case Calls(calls) => calls
  }

  /** The entry recorded for executed calls, and what the tools returned for them. */
  datatype Exchange = Exchange(message: ModelMessage, contents: seq<string>)

  ghost predicate IsExchange(tools: Tools, exchange: Exchange, executed: seq<ToolCall>, completed: nat) {
    var m := exchange.message;
    && (m.AssistantToolCall? || (m.AssistantToolCalls? && UniqueIds(m.calls)))
    && CallsOf(m) == executed != []
    && |exchange.contents| == |executed|
    && forall i :: 0 <= i < |executed| ==> tools(executed[i], completed + i) == Ok(exchange.contents[i])
  }

  /** Executes what a response asks for: one call, or a batch. */
  method ExecuteResponse(options: Options, tools: Tools, response: Response, completed: nat)
    returns (r: Result<Exchange, TurnError>, executed: seq<ToolCall>)
    requires completed <= options.maxToolCalls && !response.Output?
    ensures RoundOk(options, Round(response, executed), options.maxToolCalls - completed)
    ensures completed + |executed| <= options.maxToolCalls
    ensures r.Ok? ==> IsExchange(tools, r.value, executed, completed)
    ensures r.Ok? ==> executed != [] && |r.value.contents| == |CallsOf(r.value.message)|
    ensures r.Ok? ==> executed == CallsAsked(response)
    ensures r.Err? ==> Caused(options, tools, response, completed, r.error)
  {
    match response
    case Call(call) =>
      var result, ran := ExecuteToolCall(options, tools, call, completed);
      executed := if ran then [call] else [];
      OneExecuted(options, call, Round(response, executed), options.maxToolCalls - completed);
      if result.Err? {
        return Err(result.error), executed;
      }
      r := Ok(Exchange(AssistantToolCall(call), [result.value]));
    case Calls(calls) =>
      var results;
      results, executed := ExecuteBatch(options, tools, calls, completed);
      if results.Err? {
        return Err(results.error), executed;
      }
      AcceptedBatch(options, calls, Round(response, executed), options.maxToolCalls - completed);
      r := Ok(Exchange(AssistantToolCalls(calls), results.value));
  }

  lemma {:induction false} ExecutedExtends(log: seq<Round>, round: Round)
    ensures ExecutedIn(log + [round]) == ExecutedIn(log) + round.executed
  {
    assert (log + [round])[..|log|] == log;
  }

  lemma {:induction false} LogExtends(options: Options, log: seq<Round>, round: Round)
    requires LogOk(options, log) && RoundOk(options, round, options.maxToolCalls - |ExecutedIn(log)|)
    ensures LogOk(options, log + [round])
  {
    hide RoundOk, ExecutedIn;
    var all := log + [round];
    forall i | 0 <= i < |all| ensures RoundOk(options, all[i], options.maxToolCalls - |ExecutedIn(all[..i])|) {
      assert if i < |log| then all[..i] == log[..i] else all[..i] == log;
    }
  }

  /** A request sent for this turn: the conversation so far is the opening plus well-formed additions. */
  ghost predicate SentOk(opening: seq<ModelMessage>, sent: seq<Request>) {
    forall i :: 0 <= i < |sent| ==> opening <= sent[i].messages && WellFormed(sent[i].messages[|opening|..])
  }

  /** The contents are what the tools returned for these calls, call by call. */
  ghost predicate Faithful(tools: Tools, calls: seq<ToolCall>, contents: seq<string>) {
    |calls| == |contents| && forall i :: 0 <= i < |calls| ==> tools(calls[i], i) == Ok(contents[i])
  }

  /** What a turn has added so far: a well-formed continuation recording exactly the executed calls and results. */
  ghost predicate Grown(tools: Tools, opening: seq<ModelMessage>, messages: seq<ModelMessage>, log: seq<Round>) {
    && opening <= messages
    && WellFormed(messages[|opening|..])
    && CallsIn(messages[|opening|..]) == ExecutedIn(log)
    && Faithful(tools, ExecutedIn(log), ContentsIn(messages[|opening|..]))
  }

  lemma {:induction false} GrowsByExchange(
    tools: Tools, opening: seq<ModelMessage>, messages: seq<ModelMessage>, log: seq<Round>, m: ModelMessage,
    contents: seq<string>, round: Round)
    requires Grown(tools, opening, messages, log) && round.executed == CallsOf(m)
    requires (m.AssistantToolCall? || m.AssistantToolCalls?)
    requires m.AssistantToolCalls? ==> m.calls != [] && UniqueIds(m.calls)
    requires |contents| == |CallsOf(m)|
    requires forall i :: 0 <= i < |contents| ==> tools(CallsOf(m)[i], |ExecutedIn(log)| + i) == Ok(contents[i])
    ensures Grown(tools, opening, messages + ([m] + ResultsFor(CallsOf(m), contents)), log + [round])
  {
    hide WellFormed, CallsIn, ContentsIn, ExecutedIn, UniqueIds, AnswersAll;
    var added, results := messages[|opening|..], ResultsFor(CallsOf(m), contents);
    ExchangeAppends(added, m, results);
    ContentsAppend(added, m, results, contents);
    ExecutedExtends(log, round);
    assert (messages + ([m] + results))[|opening|..] == added + ([m] + results);
  }

  lemma {:induction false} GrowsByResponse(
    tools: Tools, opening: seq<ModelMessage>, messages: seq<ModelMessage>, log: seq<Round>, exchange: Exchange,
    round: Round)
    requires Grown(tools, opening, messages, log)
    requires IsExchange(tools, exchange, round.executed, |ExecutedIn(log)|)
    ensures |exchange.contents| == |CallsOf(exchange.message)|
    ensures Grown(tools, opening, messages + ([exchange.message] + ResultsFor(CallsOf(exchange.message), exchange.contents)),
                  log + [round])
  {
    hide Grown, ExecutedIn, UniqueIds, ResultsFor;
    GrowsByExchange(tools, opening, messages, log, exchange.message, exchange.contents, round);
  }

  lemma {:induction false} ContentsAppend(
    added: seq<ModelMessage>, m: ModelMessage, results: seq<ModelMessage>, contents: seq<string>)
    requires !m.ToolResult? && |results| == |contents|
    requires forall i :: 0 <= i < |results| ==> results[i].ToolResult? && results[i].content == contents[i]
    ensures ContentsIn(added + ([m] + results)) == ContentsIn(added) + contents
  {
    hide ContentsIn;
    ContentsInConcat(added, [m] + results);
    ContentsInConcat([m], results);
    ContentsInOne(m);
    ContentsInResults(results, contents);
  }

  lemma {:induction false} GrowsByOutput(
    tools: Tools, opening: seq<ModelMessage>, messages: seq<ModelMessage>, log: seq<Round>, m: ModelMessage,
    round: Round)
    requires Grown(tools, opening, messages, log) && round.executed == [] && (m.Assistant? || m.AssistantReasoning?)
    ensures Grown(tools, opening, messages + [m], log + [round])
  {
    hide WellFormed, CallsIn, ContentsIn, ExecutedIn;
    var added := messages[|opening|..];
    OutputAppends(added, m);
    ContentsInConcat(added, [m]);
    ContentsInOne(m);
    ExecutedExtends(log, round);
    assert (messages + [m])[|opening|..] == added + [m];
  }

  function OutputMessage(text: string, reasoning: Option<string>): ModelMessage {
    if reasoning.Some? then AssistantReasoning(text, reasoning.value) else Assistant(text)
  }

  // ---------- the requests of a turn ----------

  /** The session after an answer: a newer one replaces the one that was sent. */
  function NextSession(request: Request, session: Option<string>): Option<string> {
    if session.Some? then session else request.session
  }

  /**
   * What is sent after an answered request: the same without its session after an unavailable resume, and otherwise
   * the same conversation with the calls asked for and their results, under the newest session.
   */
  ghost predicate FollowedBy(request: Request, answer: Attempt, next: Request) {
    match answer
    case Refused(error) => error == ResumeUnavailable && IsReplay(request, next)
    case Responded(response, session, _) =>
      && !response.Output?
      && next.session == NextSession(request, session)
      && request.messages < next.messages
      && CallsIn(next.messages[|request.messages|..]) == CallsAsked(response)
  }

  ghost predicate Chained(provider: Provider, sent: seq<Request>) {
    forall i :: 0 <= i < |sent| - 1 ==> FollowedBy(sent[i], provider(sent[i], i), sent[i + 1])
  }

  /** The answers given so far allow this next request. */
  ghost predicate Continues(provider: Provider, sent: seq<Request>, next: Request) {
    sent != [] ==> FollowedBy(sent[|sent| - 1], provider(sent[|sent| - 1], |sent| - 1), next)
  }

  /** Responses to the requests, in order; refused attempts give none. */
  function Responses(provider: Provider, sent: seq<Request>): seq<Response> {
    if sent == [] then []
    else
      var n := |sent| - 1;
      Responses(provider, sent[..n])
      + (match provider(sent[n], n)
         case Responded(response, _, _) => [response]
         case Refused(_) => [])
  }

  function LogResponses(log: seq<Round>): (responses: seq<Response>)
    ensures |responses| == |log| && forall i :: 0 <= i < |log| ==> responses[i] == log[i].response
  {
    seq(|log|, i requires 0 <= i < |log| => log[i].response)
  }

  /** How a turn ends, told by the last answer: with its output, or with the error it caused. */
  ghost predicate Finished(options: Options, provider: Provider, tools: Tools, r: Result<Outcome, TurnError>,
                           sent: seq<Request>, log: seq<Round>) {
    && sent != []
    && var n := |sent| - 1;
       match provider(sent[n], n)
       case Refused(error) =>
         r == Err(RequestError(sent[n], n > 0 && provider(sent[n - 1], n - 1).Refused?, error))
       case Responded(response, session, reasoning) =>
         match response
         case Output(text) =>
           var last := if reasoning.Some? then AssistantReasoning(text, reasoning.value) else Assistant(text);
           r == Ok(Outcome(text, sent[n].messages + [last], NextSession(sent[n], session)))
         case _ =>
           r.Err? && log != [] && Caused(options, tools, response, |ExecutedIn(log[..|log| - 1])|, r.error)
  }

  lemma {:induction false} ResponsesSnoc(provider: Provider, sent: seq<Request>, request: Request)
    ensures Responses(provider, sent + [request]) ==
            Responses(provider, sent) + (match provider(request, |sent|)
                                         case Responded(response, _, _) => [response]
                                         case Refused(_) => [])
  {
    assert (sent + [request])[..|sent|] == sent;
  }

  lemma {:induction false} ChainSnoc(provider: Provider, sent: seq<Request>, request: Request)
    requires Chained(provider, sent) && Continues(provider, sent, request)
    ensures Chained(provider, sent + [request])
  {
    hide FollowedBy;
    var all := sent + [request];
    forall i | 0 <= i < |all| - 1 ensures FollowedBy(all[i], provider(all[i], i), all[i + 1]) {
      assert i < |sent| - 1 ==> all[i + 1] == sent[i + 1];
    }
  }

  /** The attempts of one request extend the chain, and only the last of them can have been answered. */
  lemma {:induction false} AttemptsChain(provider: Provider, sent: seq<Request>, request: Request, attempts: seq<Request>)
    requires Chained(provider, sent) && Continues(provider, sent, request)
    requires 1 <= |attempts| <= 2 && attempts[0] == request
    requires |attempts| == 2 <==> request.session.Some? && provider(request, |sent|) == Refused(ResumeUnavailable)
    requires |attempts| == 2 ==> IsReplay(request, attempts[1])
    ensures Chained(provider, sent + attempts)
    ensures var last := provider(attempts[|attempts| - 1], |sent| + |attempts| - 1);
            Responses(provider, sent + attempts) ==
            Responses(provider, sent) + (match last
                                         case Responded(response, _, _) => [response]
                                         case Refused(_) => [])
  {
    hide Chained, Responses, Continues;
    ChainSnoc(provider, sent, request);
    ResponsesSnoc(provider, sent, request);
    if |attempts| == 2 {
      var all := sent + [request];
      ReplayContinues(provider, sent, request, attempts[1]);
      ChainSnoc(provider, all, attempts[1]);
      ResponsesSnoc(provider, all, attempts[1]);
      assert sent + attempts == all + [attempts[1]];
    } else {
      assert sent + attempts == sent + [request];
    }
  }

  lemma {:induction false} ReplayContinues(provider: Provider, sent: seq<Request>, request: Request, replay: Request)
    requires provider(request, |sent|) == Refused(ResumeUnavailable) && IsReplay(request, replay)
    ensures Continues(provider, sent + [request], replay)
  {
  }

  /** What every finished turn satisfies, whatever the model and the tools did. */
  ghost predicate TurnOk(options: Options, tools: Tools, opening: seq<ModelMessage>, r: Result<Outcome, TurnError>,
                         sent: seq<Request>, log: seq<Round>) {
    && |log| <= options.maxToolCalls + 1
    && |sent| <= 2 * (options.maxToolCalls + 1)
    && |ExecutedIn(log)| <= options.maxToolCalls
    && LogOk(options, log)
    && SentOk(opening, sent)
    && (r.Ok? ==> Grown(tools, opening, r.value.messages, log))
  }

  /** A turn between two requests. */
  ghost predicate InProgress(options: Options, provider: Provider, tools: Tools, start: Request, request: Request,
                             sent: seq<Request>, log: seq<Round>) {
    && |log| <= |ExecutedIn(log)| <= options.maxToolCalls && |sent| <= 2 * |log|
    && (if sent == [] then request == start else sent[0] == start)
    && LogOk(options, log) && SentOk(start.messages, sent) && Grown(tools, start.messages, request.messages, log)
    && Chained(provider, sent) && Continues(provider, sent, request)
    && (sent != [] ==> provider(sent[|sent| - 1], |sent| - 1).Responded?)
    && Responses(provider, sent) == LogResponses(log)
  }

  /** A turn whose newest request is answered or refused, with `response` the answer still to be acted on. */
  ghost predicate HasAnswer(options: Options, provider: Provider, tools: Tools, start: Request, request: Request,
                            sent: seq<Request>, log: seq<Round>) {
    && sent != [] && sent[0] == start && |sent| <= 2 * |log| + 2
    && |log| <= |ExecutedIn(log)| <= options.maxToolCalls
    && LogOk(options, log) && SentOk(start.messages, sent) && Grown(tools, start.messages, request.messages, log)
    && Chained(provider, sent)
    && sent[|sent| - 1].messages == request.messages
    && Responses(provider, sent) ==
       LogResponses(log) + (match provider(sent[|sent| - 1], |sent| - 1)
                            case Responded(response, _, _) => [response]
                            case Refused(_) => [])
  }

  lemma {:induction false} RequestAnswers(options: Options, provider: Provider, tools: Tools, start: Request, request: Request,
                       sent: seq<Request>, log: seq<Round>, attempts: seq<Request>)
    requires InProgress(options, provider, tools, start, request, sent, log)
    requires 1 <= |attempts| <= 2 && attempts[0] == request
    requires |attempts| == 2 <==> request.session.Some? && provider(request, |sent|) == Refused(ResumeUnavailable)
    requires |attempts| == 2 ==> IsReplay(request, attempts[1])
    ensures HasAnswer(options, provider, tools, start, request, sent + attempts, log)
  {
    hide Grown, LogOk, SentOk, Chained, Continues, Responses, ExecutedIn, LogResponses;
    SentExtends(tools, start.messages, request, sent, attempts, log);
    AttemptsChain(provider, sent, request, attempts);
  }

  lemma {:induction false} OutputFinishes(options: Options, provider: Provider, tools: Tools, start: Request, request: Request,
                       sent: seq<Request>, log: seq<Round>, text: string, session: Option<string>,
                       reasoning: Option<string>)
    requires HasAnswer(options, provider, tools, start, request, sent, log)
    requires provider(sent[|sent| - 1], |sent| - 1) == Responded(Output(text), session, reasoning)
    ensures var message, round := OutputMessage(text, reasoning), Round(Output(text), []);
            var r := Ok(Outcome(text, request.messages + [message], NextSession(sent[|sent| - 1], session)));
            && TurnOk(options, tools, start.messages, r, sent, log + [round])
            && Finished(options, provider, tools, r, sent, log + [round])
            && Responses(provider, sent) == LogResponses(log + [round])
  {
    hide Grown, LogOk, SentOk, Chained, Responses, ExecutedIn, RoundOk;
    var message, round := OutputMessage(text, reasoning), Round(Output(text), []);
    GrowsByOutput(tools, start.messages, request.messages, log, message, round);
    NothingExecuted(options, round, options.maxToolCalls - |ExecutedIn(log)|);
    LogExtends(options, log, round);
    ExecutedExtends(log, round);
    assert LogResponses(log + [round]) == LogResponses(log) + [Output(text)];
  }

  lemma {:induction false} FailureFinishes(options: Options, provider: Provider, tools: Tools, start: Request, request: Request,
                        sent: seq<Request>, log: seq<Round>, response: Response, session: Option<string>,
                        reasoning: Option<string>, executed: seq<ToolCall>, error: TurnError)
    requires HasAnswer(options, provider, tools, start, request, sent, log) && !response.Output?
    requires provider(sent[|sent| - 1], |sent| - 1) == Responded(response, session, reasoning)
    requires RoundOk(options, Round(response, executed), options.maxToolCalls - |ExecutedIn(log)|)
    requires |ExecutedIn(log)| + |executed| <= options.maxToolCalls
    requires Caused(options, tools, response, |ExecutedIn(log)|, error)
    ensures var round := Round(response, executed);
            && TurnOk(options, tools, start.messages, Err(error), sent, log + [round])
            && Finished(options, provider, tools, Err(error), sent, log + [round])
            && Responses(provider, sent) == LogResponses(log + [round])
  {
    hide Grown, LogOk, SentOk, Chained, Responses, ExecutedIn, RoundOk, Caused;
    var round := Round(response, executed);
    LogExtends(options, log, round);
    ExecutedExtends(log, round);
    assert (log + [round])[..|log|] == log;
    assert LogResponses(log + [round]) == LogResponses(log) + [response];
  }

  lemma {:induction false} ExchangeContinues(options: Options, provider: Provider, tools: Tools, start: Request, request: Request,
                          sent: seq<Request>, log: seq<Round>, response: Response, session: Option<string>,
                          reasoning: Option<string>, exchange: Exchange, executed: seq<ToolCall>)
    requires HasAnswer(options, provider, tools, start, request, sent, log) && !response.Output?
    requires provider(sent[|sent| - 1], |sent| - 1) == Responded(response, session, reasoning)
    requires RoundOk(options, Round(response, executed), options.maxToolCalls - |ExecutedIn(log)|)
    requires |ExecutedIn(log)| + |executed| <= options.maxToolCalls
    requires IsExchange(tools, exchange, executed, |ExecutedIn(log)|) && executed == CallsAsked(response)
    requires |exchange.contents| == |CallsOf(exchange.message)|
    ensures var added := [exchange.message] + ResultsFor(CallsOf(exchange.message), exchange.contents);
            var next := Request(request.messages + added, NextSession(sent[|sent| - 1], session));
            InProgress(options, provider, tools, start, next, sent, log + [Round(response, executed)])
    ensures |ExecutedIn(log + [Round(response, executed)])| == |ExecutedIn(log)| + |executed| > |ExecutedIn(log)|
  {
    hide Grown, LogOk, SentOk, Chained, Responses, ExecutedIn, RoundOk, CallsOf, ResultsFor, CallsIn;
    var round := Round(response, executed);
    var added := [exchange.message] + ResultsFor(CallsOf(exchange.message), exchange.contents);
    var next := Request(request.messages + added, NextSession(sent[|sent| - 1], session));
    LogExtends(options, log, round);
    ExecutedExtends(log, round);
    GrowsByResponse(tools, start.messages, request.messages, log, exchange, round);
    assert LogResponses(log + [round]) == LogResponses(log) + [response];
    ExchangeCalls(exchange);
    assert next.messages[|request.messages|..] == added;
  }

  lemma {:induction false} ExchangeCalls(exchange: Exchange)
    requires |exchange.contents| == |CallsOf(exchange.message)| && !exchange.message.ToolResult?
    ensures CallsIn([exchange.message] + ResultsFor(CallsOf(exchange.message), exchange.contents)) ==
            CallsOf(exchange.message)
  {
    hide CallsIn;
    var results := ResultsFor(CallsOf(exchange.message), exchange.contents);
    CallsInConcat([exchange.message], results);
    CallsInOne(exchange.message);
    ResultsHoldNoCalls(results);
  }

  /** Runs one turn to its output or first error. */
  method Run(options: Options, provider: Provider, tools: Tools, start: Request)
    returns (r: Result<Outcome, TurnError>, sent: seq<Request>, log: seq<Round>)
    ensures TurnOk(options, tools, start.messages, r, sent, log)
    ensures sent != [] && sent[0] == start
    ensures Chained(provider, sent) && Responses(provider, sent) == LogResponses(log)
    ensures Finished(options, provider, tools, r, sent, log)
  {
    hide TurnOk, Finished, Chained, Continues, Responses, LogResponses, RoundOk, ExecutedIn, LogOk, SentOk, Grown,
         IsExchange, CallsOf, ResultsFor, Caused;
    var request, completed := start, 0;
    sent, log := [], [];
    RunStarts(options, provider, tools, start);
    while true
      invariant InProgress(options, provider, tools, start, request, sent, log) && completed == |ExecutedIn(log)|
      decreases options.maxToolCalls - completed
    {
      var completion, attempts := CompleteModelRequest(provider, request, |sent|);
      RequestAnswers(options, provider, tools, start, request, sent, log, attempts);
      ghost var before := sent;
      sent := sent + attempts;
      if completion.Err? {
        r := Err(completion.error);
        RefusalFinishes(options, provider, tools, start, request, before, attempts, log, completion.error);
        return;
      }
      var Completed(response, session, resumeRejected, reasoning) := completion.value;
      if resumeRejected || session.Some? {
        request := request.(session := session);
      }
      match response
      case Output(text) =>
        OutputFinishes(options, provider, tools, start, request, sent, log, text, session, reasoning);
        r := Ok(Outcome(text, request.messages + [OutputMessage(text, reasoning)], request.session));
        log := log + [Round(response, [])];
        return;
      case _ =>
        var exchange, executed := ExecuteResponse(options, tools, response, completed);
        if exchange.Err? {
          FailureFinishes(options, provider, tools, start, request, sent, log, response, session, reasoning, executed,
                          exchange.error);
          r := Err(exchange.error);
          log := log + [Round(response, executed)];
          return;
        }
        var Exchange(message, contents) := exchange.value;
        ExchangeContinues(options, provider, tools, start, request, sent, log, response, session, reasoning,
                          exchange.value, executed);
        request := request.(messages := request.messages + ([message] + ResultsFor(CallsOf(message), contents)));
        log, completed := log + [Round(response, executed)], completed + |executed|;
    }
  }

  lemma {:induction false} RefusalFinishes(options: Options, provider: Provider, tools: Tools, start: Request, request: Request,
                        before: seq<Request>, attempts: seq<Request>, log: seq<Round>, error: TurnError)
    requires InProgress(options, provider, tools, start, request, before, log)
    requires HasAnswer(options, provider, tools, start, request, before + attempts, log)
    requires 1 <= |attempts| <= 2 && attempts[0] == request
    requires |attempts| == 2 <==> request.session.Some? && provider(request, |before|) == Refused(ResumeUnavailable)
    requires |attempts| == 2 ==> IsReplay(request, attempts[1])
    requires var answer := provider(attempts[|attempts| - 1], |before| + |attempts| - 1);
             answer.Refused? && error == RequestError(request, |attempts| == 2, answer.error)
    ensures TurnOk(options, tools, start.messages, Err(error), before + attempts, log)
    ensures Finished(options, provider, tools, Err(error), before + attempts, log)
    ensures Chained(provider, before + attempts) && Responses(provider, before + attempts) == LogResponses(log)
  {
    hide Grown, LogOk, SentOk, Chained, Responses, ExecutedIn, LogResponses, CallsIn;
    var sent := before + attempts;
    if |attempts| == 2 {
      assert sent[|sent| - 2] == request;
    } else if before != [] {
      assert sent[|sent| - 2] == before[|before| - 1];
    }
  }

  lemma {:induction false} RunStarts(options: Options, provider: Provider, tools: Tools, start: Request)
    ensures InProgress(options, provider, tools, start, start, [], []) && ExecutedIn([]) == []
  {
    assert start.messages[|start.messages|..] == [];
  }

  lemma {:induction false} SentExtends(tools: Tools, opening: seq<ModelMessage>, request: Request, sent: seq<Request>,
                    attempts: seq<Request>, log: seq<Round>)
    requires SentOk(opening, sent) && Grown(tools, opening, request.messages, log)
    requires 1 <= |attempts| <= 2 && attempts[0] == request && (|attempts| == 2 ==> IsReplay(request, attempts[1]))
    ensures SentOk(opening, sent + attempts)
  {
    hide WellFormed;
  }

  lemma {:induction false} NothingExecuted(options: Options, round: Round, remaining: int)
    requires round.executed == [] && round.response.Output?
    ensures RoundOk(options, round, remaining)
  {
  }

  lemma {:induction false} OneExecuted(options: Options, call: ToolCall, round: Round, remaining: int)
    requires round.response == Call(call)
    requires round.executed == (if Allowed(options, call) && remaining > 0 then [call] else [])
    requires remaining >= 0
    ensures RoundOk(options, round, remaining)
  {
  }

  lemma {:induction false} AcceptedBatch(options: Options, calls: seq<ToolCall>, round: Round, remaining: int)
    requires RoundOk(options, round, remaining) && round.response == Calls(calls)
    requires round.executed == calls != []
    ensures UniqueIds(calls) && |calls| <= remaining
  {
  }

  /** A turn the engine completed can be stored and replayed: the user message and what the run added. */
  lemma {:induction false} CompletedTurnIsWellFormed(tools: Tools, input: TurnInput, opening: seq<ModelMessage>,
                                  messages: seq<ModelMessage>, log: seq<Round>)
    requires opening != [] && opening[|opening| - 1] == UserMessage(input)
    requires Grown(tools, opening, messages, log)
    ensures WellFormed(messages[|opening| - 1..])
  {
    hide WellFormed, CallsIn;
    PlainIsWellFormed(UserMessage(input));
    WellFormedConcat([UserMessage(input)], messages[|opening|..]);
    assert messages[|opening| - 1..] == [UserMessage(input)] + messages[|opening|..];
  }

  /** With a well-formed opening, every request sent is well formed as a whole. */
  lemma {:induction false} EveryRequestIsWellFormed(opening: seq<ModelMessage>, sent: seq<Request>, i: nat)
    requires WellFormed(opening) && SentOk(opening, sent) && i < |sent|
    ensures WellFormed(sent[i].messages)
  {
    hide WellFormed;
    WellFormedConcat(opening, sent[i].messages[|opening|..]);
    assert sent[i].messages == opening + sent[i].messages[|opening|..];
  }
}
