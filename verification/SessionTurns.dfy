/** A whole session: turn after turn, each started from the bounded history that the earlier ones left. */
module SessionTurns {
  import opened Prelude
  import opened Messages
  import opened BoundedHistory
  import opened Transcripts
  import opened Engine

  /** One submission, with any model, tools, options and continuation, and whether its completion was stored. */
  datatype Submitted = Submitted(
    input: TurnInput, options: Options, provider: Provider, tools: Tools, session: Option<string>, persisted: bool)

  /** What one submission did: its result, the requests it sent, and its rounds. */
  datatype TurnRun = TurnRun(result: Result<Outcome, TurnError>, sent: seq<Request>, log: seq<Round>)

  ghost predicate AllWellFormed(turns: seq<Turn>) {
    forall i :: 0 <= i < |turns| ==> WellFormed(turns[i])
  }

  ghost predicate RequestsWellFormed(sent: seq<Request>) {
    forall i :: 0 <= i < |sent| ==> WellFormed(sent[i].messages)
  }

  /** The stored turn, from the submitted input on, when the completion was stored. */
  function Appended(turns: seq<Turn>, opening: seq<ModelMessage>, run: TurnRun, persisted: bool): seq<Turn> {
    if run.result.Ok? && persisted && 0 < |opening| <= |run.result.value.messages|
    then turns + [run.result.value.messages[|opening| - 1..]]
    else turns
  }

  /** The turns stored by the first submissions of a session. */
  function StoredTurns(system: Option<string>, budget: nat, submissions: seq<Submitted>, runs: seq<TurnRun>): seq<Turn>
    requires |runs| == |submissions|
  {
    if runs == [] then []
    else
      var n := |runs| - 1;
      var before := StoredTurns(system, budget, submissions[..n], runs[..n]);
      Appended(before, Opening(system, Replay(before, budget), submissions[n].input), runs[n], submissions[n].persisted)
  }

  /** One turn is started from the bounded history of what is stored and runs as the engine does. */
  ghost predicate IsTurn(system: Option<string>, budget: nat, turns: seq<Turn>, s: Submitted, run: TurnRun) {
    var opening := Opening(system, Replay(turns, budget), s.input);
    && TurnOk(s.options, s.tools, opening, run.result, run.sent, run.log)
    && run.sent != [] && run.sent[0] == Request(opening, s.session)
    && Chained(s.provider, run.sent) && Responses(s.provider, run.sent) == LogResponses(run.log)
    && Finished(s.options, s.provider, s.tools, run.result, run.sent, run.log)
  }

  ghost predicate IsSession(system: Option<string>, budget: nat, submissions: seq<Submitted>, runs: seq<TurnRun>) {
    && |runs| == |submissions|
    && forall i :: 0 <= i < |runs| ==>
         IsTurn(system, budget, StoredTurns(system, budget, submissions[..i], runs[..i]), submissions[i], runs[i])
  }

  /** The last message of an opening is the submitted input. */
  lemma {:induction false} OpeningEndsWithInput(system: Option<string>, turns: seq<Turn>, input: TurnInput)
    ensures var opening := Opening(system, turns, input);
            opening != [] && opening[|opening| - 1] == UserMessage(input)
  {
  }

  /** The first request of every turn of a session, by position: prompt, retained turns in order, and the input. */
  lemma {:induction false} FirstRequestAt(system: Option<string>, budget: nat, submissions: seq<Submitted>,
                                          runs: seq<TurnRun>, n: nat)
    requires IsSession(system, budget, submissions, runs) && n < |runs|
    ensures var kept := Replay(StoredTurns(system, budget, submissions[..n], runs[..n]), budget);
            var start := if system.Some? then 1 else 0;
            && runs[n].sent != []
            && var m := runs[n].sent[0].messages;
               && |m| == start + Offset(kept, |kept|) + 1
               && (system.Some? ==> m[0] == System(system.value))
               && m[|m| - 1] == UserMessage(submissions[n].input)
               && forall i :: 0 <= i < |kept| ==>
                    && start + Offset(kept, i) + |kept[i]| < |m|
                    && m[start + Offset(kept, i)..start + Offset(kept, i) + |kept[i]|] == kept[i]
  {
    hide Replay, StoredTurns, TurnOk, Chained, Responses, LogResponses, Finished, Offset, UserMessage, Opening;
    var turns := StoredTurns(system, budget, submissions[..n], runs[..n]);
    assert IsTurn(system, budget, turns, submissions[n], runs[n]);
    OpeningAt(system, Replay(turns, budget), submissions[n].input);
  }

  /** Everything one turn sends, and what it leaves stored, is well formed when the stored turns are. */
  lemma {:induction false} TurnKeeps(system: Option<string>, budget: nat, turns: seq<Turn>, s: Submitted, run: TurnRun)
    requires AllWellFormed(turns) && IsTurn(system, budget, turns, s, run)
    ensures RequestsWellFormed(run.sent)
    ensures AllWellFormed(Appended(turns, Opening(system, Replay(turns, budget), s.input), run, s.persisted))
  {
    hide WellFormed, Replay, Opening, LogOk, ExecutedIn, CallsIn, ContentsIn, Faithful;
    var opening := Opening(system, Replay(turns, budget), s.input);
    OpeningIsWellFormed(system, turns, budget, s.input);
    OpeningEndsWithInput(system, Replay(turns, budget), s.input);
    forall i | 0 <= i < |run.sent| ensures WellFormed(run.sent[i].messages) {
      EveryRequestIsWellFormed(opening, run.sent, i);
    }
    if run.result.Ok? {
      CompletedTurnIsWellFormed(s.tools, s.input, opening, run.result.value.messages, run.log);
    }
  }

  lemma {:induction false} SessionPrefix(system: Option<string>, budget: nat, submissions: seq<Submitted>, runs: seq<TurnRun>, n: nat)
    requires IsSession(system, budget, submissions, runs) && n <= |runs|
    ensures IsSession(system, budget, submissions[..n], runs[..n])
  {
    hide IsTurn, StoredTurns;
    forall i | 0 <= i < n
      ensures IsTurn(system, budget, StoredTurns(system, budget, submissions[..n][..i], runs[..n][..i]),
                     submissions[..n][i], runs[..n][i])
    {
      assert submissions[..n][..i] == submissions[..i] && runs[..n][..i] == runs[..i];
    }
  }

  /**
   * In every session, whatever the models and tools do and whichever completions are stored, every stored turn and
   * every request ever sent is a well-formed conversation.
   */
  lemma {:induction false} SessionStaysWellFormed(
    system: Option<string>, budget: nat, submissions: seq<Submitted>, runs: seq<TurnRun>)
    requires IsSession(system, budget, submissions, runs)
    ensures AllWellFormed(StoredTurns(system, budget, submissions, runs))
    ensures forall i :: 0 <= i < |runs| ==> RequestsWellFormed(runs[i].sent)
    decreases |runs|
  {
    hide IsTurn, AllWellFormed, RequestsWellFormed, Appended, Replay, Opening;
    if runs == [] {
      NothingStored();
    } else {
      var n := |runs| - 1;
      SessionPrefix(system, budget, submissions, runs, n);
      SessionStaysWellFormed(system, budget, submissions[..n], runs[..n]);
      TurnKeeps(system, budget, StoredTurns(system, budget, submissions[..n], runs[..n]), submissions[n], runs[n]);
      forall i | 0 <= i < |runs| ensures RequestsWellFormed(runs[i].sent) {
        assert i < n ==> runs[i] == runs[..n][i];
      }
    }
  }

  lemma {:induction false} NothingStored()
    ensures AllWellFormed([])
  {
  }

  lemma {:induction false} SessionExtends(system: Option<string>, budget: nat, submissions: seq<Submitted>, runs: seq<TurnRun>,
                       s: Submitted, run: TurnRun)
    requires IsSession(system, budget, submissions, runs)
    requires IsTurn(system, budget, StoredTurns(system, budget, submissions, runs), s, run)
    ensures IsSession(system, budget, submissions + [s], runs + [run])
  {
    hide IsTurn, StoredTurns;
    var all, done := submissions + [s], runs + [run];
    forall i | 0 <= i < |done|
      ensures IsTurn(system, budget, StoredTurns(system, budget, all[..i], done[..i]), all[i], done[i])
    {
      if i < |runs| {
        assert all[..i] == submissions[..i] && done[..i] == runs[..i];
      } else {
        assert all[..i] == submissions && done[..i] == runs;
      }
    }
  }

  lemma {:induction false} StoredExtends(system: Option<string>, budget: nat, submissions: seq<Submitted>, runs: seq<TurnRun>,
                      s: Submitted, run: TurnRun)
    requires |runs| == |submissions|
    ensures var before := StoredTurns(system, budget, submissions, runs);
            StoredTurns(system, budget, submissions + [s], runs + [run]) ==
            Appended(before, Opening(system, Replay(before, budget), s.input), run, s.persisted)
  {
    hide Appended, Opening, Replay;
    assert (submissions + [s])[..|runs|] == submissions && (runs + [run])[..|runs|] == runs;
  }

  /** Runs every submission in turn, each from the bounded history stored so far. */
  method RunSession(system: Option<string>, budget: nat, submissions: seq<Submitted>)
    returns (turns: seq<Turn>, runs: seq<TurnRun>)
    ensures IsSession(system, budget, submissions, runs)
    ensures turns == StoredTurns(system, budget, submissions, runs)
  {
    hide IsSession, IsTurn, StoredTurns, Replay, Opening, TurnOk, Chained, Responses, LogResponses, Finished;
    turns, runs := [], [];
    SessionStarts(system, budget);
    for i := 0 to |submissions|
      invariant IsSession(system, budget, submissions[..i], runs) && |runs| == i
      invariant turns == StoredTurns(system, budget, submissions[..i], runs)
    {
      var s := submissions[i];
      var opening := Opening(system, Replay(turns, budget), s.input);
      var result, sent, log := Run(s.options, s.provider, s.tools, Request(opening, s.session));
      var run := TurnRun(result, sent, log);
      TurnRuns(system, budget, turns, s, run);
      SessionExtends(system, budget, submissions[..i], runs, s, run);
      StoredExtends(system, budget, submissions[..i], runs, s, run);
      assert submissions[..i + 1] == submissions[..i] + [s];
      OpeningEndsWithInput(system, Replay(turns, budget), s.input);
      OutcomeCoversOpening(s, opening, run);
      if result.Ok? && s.persisted {
        turns := turns + [result.value.messages[|opening| - 1..]];
      }
      runs := runs + [run];
    }
    assert submissions[..|submissions|] == submissions;
  }

  lemma {:induction false} SessionStarts(system: Option<string>, budget: nat)
    ensures IsSession(system, budget, [], []) && StoredTurns(system, budget, [], []) == []
  {
  }

  lemma {:induction false} TurnRuns(system: Option<string>, budget: nat, turns: seq<Turn>, s: Submitted, run: TurnRun)
    requires var opening := Opening(system, Replay(turns, budget), s.input);
             && TurnOk(s.options, s.tools, opening, run.result, run.sent, run.log)
             && run.sent != [] && run.sent[0] == Request(opening, s.session)
    requires Chained(s.provider, run.sent) && Responses(s.provider, run.sent) == LogResponses(run.log)
    requires Finished(s.options, s.provider, s.tools, run.result, run.sent, run.log)
    ensures IsTurn(system, budget, turns, s, run)
  {
  }

  lemma {:induction false} OutcomeCoversOpening(s: Submitted, opening: seq<ModelMessage>, run: TurnRun)
    requires TurnOk(s.options, s.tools, opening, run.result, run.sent, run.log)
    ensures run.result.Ok? ==> |opening| <= |run.result.value.messages|
  {
  }
}
