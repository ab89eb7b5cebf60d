/** The stored turns and journal, reconstructed from nothing but the operations and the replies a host saw. */
module Ledger {
  import opened Prelude
  import opened Messages
  import opened BoundedHistory
  import opened SessionRecords
  import opened MemoryStore
  import opened StoreRuns

  /** How a turn ended as far as its owner was told. */
  datatype End = Open | CompletedWith(messages: Turn, outcome: Option<Outcome>) | FailedWith(errorType: string)

  datatype Entry = Entry(submission: Submission, model: RecordedModel, end: End)

  /** What a session was created with, and the model selected last. */
  datatype Settings = Settings(
    schema: string, systemPrompt: Option<string>, maxHistoryBytes: nat, model: RecordedModel)

  datatype Account = Account(settings: Option<Settings>, entries: seq<Entry>, writes: seq<WriteRecord>)

  const NO_ACCOUNT := Account(None, [], [])

  function SelectedModel(generation: int, metadata: Option<ModelMetadata>, registration: Option<ExecutionIdentity>)
    : RecordedModel
  {
    RecordedModel(
      generation,
      if metadata.Some? then Some(metadata.value.model) else None,
      if metadata.Some? then Some(metadata.value.provider) else None,
      registration)
  }

  /** A reply after which the submission holds a turn: granted, or reserved but acknowledged too late. */
  predicate TookTurn(reply: Reply) {
    reply.Began? &&
    match reply.began
    case Ok(acquisition) => acquisition.Granted?
    case Err(error) => error == OwnershipLost
  }

  function EndAt(a: Account, position: int, end: End): Account {
    if 0 <= position < |a.entries| then a.(entries := a.entries[position := a.entries[position].(end := end)]) else a
  }

  function Verdict(write: WriteRecord, id: int, applied: bool): WriteRecord {
    if write.id == id then write.(status := if applied then Applied else Rejected) else write
  }

  function Noted(a: Account, op: Op, reply: Reply): Account {
    match op
    case CreateSession(config, metadata, maxHistoryBytes) =>
      if reply == Done(Ok(()))
      then a.(settings := Some(Settings(config.schema, config.systemPrompt, maxHistoryBytes,
                                        SelectedModel(0, metadata, config.registration))))
      else a
    case SwitchModel(_, _, selection, _) =>
      if reply.Switched? && reply.switched.Ok? && a.settings.Some?
      then a.(settings := Some(a.settings.value.(
                model := SelectedModel(reply.switched.value, selection.metadata, Some(selection.identity)))))
      else a
    case Begin(_, _, submission, _) =>
      if TookTurn(reply) && a.settings.Some?
      then a.(entries := a.entries + [Entry(submission, a.settings.value.model, Open)])
      else a
    case CompleteTurn(owner, messages, _, outcome, _) =>
      if reply == Done(Ok(())) then EndAt(a, owner.position, CompletedWith(messages, outcome)) else a
    case FailTurn(owner, errorType, _) =>
      if reply == Done(Ok(())) then EndAt(a, owner.position, FailedWith(errorType)) else a
    case IntendWrite(owner, intent, _) =>
      if reply.Intended? && reply.intended.Ok?
      then a.(writes := a.writes + [WriteRecord(reply.intended.value, owner.position, intent.callId, intent.root,
                                                intent.path, intent.expectedHash, intent.resultingHash, Pending)])
      else a
    case SettleWrite(_, writeId, applied) =>
      if reply == Done(Ok(()))
      then a.(writes := seq(|a.writes|, i requires 0 <= i < |a.writes| => Verdict(a.writes[i], writeId, applied)))
      else a
    case _ => a
  }

  /** One session's account over a whole run. */
  function AccountOf(store: StoreIdentity, ops: seq<Op>, id: SessionId): Account {
    if ops == [] then NO_ACCOUNT
    else
      var before, op := ops[..|ops| - 1], ops[|ops| - 1];
      if Target(op) != id then AccountOf(store, before, id)
      else Noted(AccountOf(store, before, id), op, Step(store, After(store, before), op).1)
  }

  function MessagesOf(entry: Entry): Turn {
    [UserMessage(entry.submission.input)] + (if entry.end.CompletedWith? then entry.end.messages else [])
  }

  /** A turn stores what was submitted and what its owner was told, and nothing else. */
  ghost predicate TurnBooked(turn: TurnRecord, entry: Entry) {
    && turn.options == entry.submission.options
    && turn.request == entry.submission.request
    && turn.model == entry.model && turn.model.generation == entry.submission.generation
    && turn.messages == MessagesOf(entry)
    && turn.outcome == (if entry.end.CompletedWith? then entry.end.outcome else None)
    && (turn.status == Completed <==> entry.end.CompletedWith?)
    && (turn.status == Failed <==> entry.end.FailedWith?)
    && (entry.end.FailedWith? ==> turn.errorType == Some(entry.end.errorType))
  }

  ghost predicate Booked(r: Record, a: Account) {
    && a.settings == Some(Settings(r.config.schema, r.config.systemPrompt, r.config.maxHistoryBytes, Recording(r.config)))
    && |r.turns| == |a.entries|
    && (forall p :: 0 <= p < |r.turns| ==> TurnBooked(r.turns[p], a.entries[p]))
    && r.writes == a.writes
  }

  lemma {:induction false} RecoveredBooked(r: Record, a: Account, now: Instant)
    requires Booked(r, a)
    ensures Booked(Recovered(r, now), a)
  {
    if Recovered(r, now) != r {
      InterruptedBooked(r, a, "interrupted");
    }
  }

  lemma {:induction false} InterruptedBooked(r: Record, a: Account, reason: string)
    requires Booked(r, a) && LastRunning(r)
    ensures Booked(InterruptLast(r, reason), a)
  {
    assert TurnBooked(Last(r), a.entries[|r.turns| - 1]);
  }

  lemma {:induction false} AcquireReply(store: StoreIdentity, id: SessionId, r: Record, s: Submission, clock: Readings)
    ensures TookTurn(Began(Acquire(store, id, r, s, clock).1)) <==> Refusal(Recovered(r, clock.recover), s).None?
  {
    hide Recovered, Reserved, History, UsableContinuation, NewOwner, FindRequest, LastRunning;
  }

  lemma {:induction false} ReservedBooked(r: Record, a: Account, owner: Owner, s: Submission, deadline: Instant)
    requires Booked(r, a) && r.config.generation == s.generation
    ensures Booked(Reserved(r, owner, s.input, s.options, s.request, deadline),
                   Took(a, s))
  {
    hide UsableContinuation;
    assert [UserMessage(s.input)] + [] == [UserMessage(s.input)];
  }

  lemma {:induction false} AcquireBooked(store: StoreIdentity, id: SessionId, r: Record, a: Account, s: Submission, clock: Readings)
    requires Booked(r, a)
    ensures var (next, result) := Acquire(store, id, r, s, clock);
            Booked(next, if TookTurn(Began(result)) then Took(a, s) else a)
  {
    hide Booked, Recovered, Reserved, History, UsableContinuation, NewOwner, FindRequest, LastRunning, TookTurn;
    RecoveredBooked(r, a, clock.recover);
    AcquireReply(store, id, r, s, clock);
    var ready := Recovered(r, clock.recover);
    if Refusal(ready, s).None? {
      ReservedBooked(ready, a, NewOwner(store, id, ready), s, clock.reserve + TURN_LEASE);
    }
  }

  /** One more open entry, under the model selected last. */
  function Took(a: Account, s: Submission): Account {
    if a.settings.Some? then a.(entries := a.entries + [Entry(s, a.settings.value.model, Open)]) else a
  }

  /** An acknowledged end is booked at the owner's position. */
  lemma {:induction false} EndBooked(store: StoreIdentity, id: SessionId, r: Record, a: Account, owner: Owner, turn: TurnRecord, end: End,
                  config: Configuration)
    requires TurnLog(store, id, r) && Booked(r, a) && LastRunning(r) && Last(r).owner == owner
    requires TurnBooked(turn, a.entries[|r.turns| - 1].(end := end))
    requires Recording(config) == Recording(r.config) && config.schema == r.config.schema
    requires config.systemPrompt == r.config.systemPrompt && config.maxHistoryBytes == r.config.maxHistoryBytes
    ensures Booked(WithLast(r, turn).(config := config), EndAt(a, owner.position, end))
  {
    hide TurnBooked;
    assert owner.position == |r.turns| - 1;
  }

  lemma {:induction false} CompleteBooked(store: StoreIdentity, id: SessionId, nextWrite: int, r: Record, a: Account, op: Op)
    requires TurnLog(store, id, r) && Booked(r, a) && op.CompleteTurn?
    ensures var (next, reply) := RecordStep(store, nextWrite, r, op); Booked(next, Noted(a, op, reply))
  {
    hide TurnLog, EndAt;
    var (next, reply) := RecordStep(store, nextWrite, r, op);
    if reply == Done(Ok(())) {
      var entry, end := a.entries[|r.turns| - 1], CompletedWith(op.messages, op.outcome);
      assert TurnBooked(Last(r), entry);
      assert MessagesOf(entry.(end := end)) == MessagesOf(entry) + op.messages;
      var turn := Last(r).(outcome := op.outcome, messages := Last(r).messages + op.messages, status := Completed);
      EndBooked(store, id, r, a, op.owner, turn, end, next.config);
    }
  }

  lemma {:induction false} FailBooked(store: StoreIdentity, id: SessionId, nextWrite: int, r: Record, a: Account, op: Op)
    requires TurnLog(store, id, r) && Booked(r, a) && op.FailTurn?
    ensures var (next, reply) := RecordStep(store, nextWrite, r, op); Booked(next, Noted(a, op, reply))
  {
    hide TurnLog, EndAt;
    var (next, reply) := RecordStep(store, nextWrite, r, op);
    if reply == Done(Ok(())) {
      var entry := a.entries[|r.turns| - 1];
      assert TurnBooked(Last(r), entry);
      var turn := Last(r).(status := Failed, errorType := Some(op.errorType));
      EndBooked(store, id, r, a, op.owner, turn, FailedWith(op.errorType), next.config);
    }
  }

  lemma {:induction false} RenewBooked(store: StoreIdentity, nextWrite: int, r: Record, a: Account, op: Op)
    requires Booked(r, a) && op.RenewTurn?
    ensures Booked(RecordStep(store, nextWrite, r, op).0, a)
  {
    if LastRunning(r) {
      assert TurnBooked(Last(r), a.entries[|r.turns| - 1]);
    }
  }

  lemma {:induction false} SettleBooked(store: StoreIdentity, id: SessionId, nextWrite: int, r: Record, a: Account, op: Op)
    requires RecordInv(store, id, nextWrite, r) && Booked(r, a) && op.SettleWrite?
    ensures var (next, reply) := RecordStep(store, nextWrite, r, op); Booked(next, Noted(a, op, reply))
  {
    hide TurnBooked, RecordInv, FinishWrite;
    LateSettlement(store, id, nextWrite, r, op.owner, op.writeId, op.applied);
    var (next, reply) := RecordStep(store, nextWrite, r, op);
    assert reply.done.Ok? ==> reply.done.value == ();
    if reply == Done(Ok(())) {
      forall i | 0 <= i < |r.writes| ensures next.writes[i] == Verdict(a.writes[i], op.writeId, op.applied) {}
    }
    assert next.writes == Noted(a, op, reply).writes;
  }

  lemma {:induction false} SwitchBooked(store: StoreIdentity, nextWrite: int, r: Record, a: Account, op: Op)
    requires Booked(r, a) && op.SwitchModel?
    ensures var (next, reply) := RecordStep(store, nextWrite, r, op); Booked(next, Noted(a, op, reply))
  {
    hide Recovered, HistoryPortable, CompletedTurns, TurnBooked;
    RecoveredBooked(r, a, op.now);
  }

  lemma {:induction false} OtherBooked(store: StoreIdentity, id: SessionId, nextWrite: int, r: Record, a: Account, op: Op)
    requires Booked(r, a) && (op.InterruptTurn? || op.IntendWrite?)
    ensures var (next, reply) := RecordStep(store, nextWrite, r, op); Booked(next, Noted(a, op, reply))
  {
    hide TurnBooked, InterruptLast;
    if LastRunning(r) && op.InterruptTurn? {
      InterruptedBooked(r, a, op.reason);
    }
  }

  lemma {:induction false} RecordStepBooked(store: StoreIdentity, id: SessionId, nextWrite: int, r: Record, a: Account, op: Op)
    requires RecordInv(store, id, nextWrite, r) && Booked(r, a) && Target(op) == id
    ensures var (next, reply) := RecordStep(store, nextWrite, r, op); Booked(next, Noted(a, op, reply))
  {
    hide Booked, TurnLog, Requests, Generations, Journal, Acquire, Switch, Recovered, Complete, Fail, Renew,
         Interrupt, WriteIntent, FinishWrite, FindRequest, History, TookTurn, EndAt;
    match op
    case CreateSession(_, _, _) =>
    case LoadSession(_, now) => RecoveredBooked(r, a, now);
    case LoadRequest(_, _, now) => RecoveredBooked(r, a, now);
    case SwitchModel(_, _, _, _) => SwitchBooked(store, nextWrite, r, a, op);
    case Begin(_, _, submission, clock) => AcquireBooked(store, id, r, a, submission, clock); WrongStore();
    case CompleteTurn(_, _, _, _, _) => CompleteBooked(store, id, nextWrite, r, a, op);
    case FailTurn(_, _, _) => FailBooked(store, id, nextWrite, r, a, op);
    case RenewTurn(_, _, _) => RenewBooked(store, nextWrite, r, a, op);
    case SettleWrite(_, _, _) => SettleBooked(store, id, nextWrite, r, a, op);
    case _ => OtherBooked(store, id, nextWrite, r, a, op);
  }

  lemma {:induction false} WrongStore()
    ensures !TookTurn(Began(Err(InvalidData)))
  {
  }

  ghost predicate AllBooked(store: StoreIdentity, ops: seq<Op>) {
    forall id :: id in After(store, ops).sessions ==> Booked(After(store, ops).sessions[id], AccountOf(store, ops, id))
  }

  /** Nothing is booked for a session that does not exist. */
  lemma {:induction false} NothingBooked(store: StoreIdentity, ops: seq<Op>, id: SessionId)
    requires id !in After(store, ops).sessions
    ensures AccountOf(store, ops, id) == NO_ACCOUNT
  {
    if ops != [] {
      NothingBooked(store, ops[..|ops| - 1], id);
    }
  }

  lemma {:induction false} StepBooked(store: StoreIdentity, before: seq<Op>, op: Op, id: SessionId)
    requires AllBooked(store, before) && StateInv(store, After(store, before))
    requires id in Step(store, After(store, before), op).0.sessions
    ensures Booked(Step(store, After(store, before), op).0.sessions[id],
                   if Target(op) != id then AccountOf(store, before, id)
                   else Noted(AccountOf(store, before, id), op, Step(store, After(store, before), op).1))
  {
    hide RecordInv, Booked, RecordStep, After, AccountOf, EndAt, TookTurn;
    var s := After(store, before);
    if id in s.sessions {
      assert Booked(s.sessions[id], AccountOf(store, before, id)) && RecordInv(store, id, s.nextWrite, s.sessions[id]);
      if Target(op) == id {
        RecordStepBooked(store, id, s.nextWrite, s.sessions[id], AccountOf(store, before, id), op);
      }
    } else {
      NothingBooked(store, before, id);
      CreatedBooked(op);
    }
  }

  lemma {:induction false} CreatedBooked(op: Op)
    ensures op.CreateSession? ==>
              Booked(FreshRecord(op.config, op.metadata, op.maxHistoryBytes), Noted(NO_ACCOUNT, op, Done(Ok(()))))
  {
  }

  /** Conservation: in every run, each session stores exactly its account, message for message and write for write. */
  lemma {:induction false} Conservation(store: StoreIdentity, ops: seq<Op>)
    ensures AllBooked(store, ops)
  {
    hide Booked, Step, StateInv, Noted;
    if ops != [] {
      var before, op := ops[..|ops| - 1], ops[|ops| - 1];
      Conservation(store, before);
      RunInv(store, before);
      forall id | id in After(store, ops).sessions
        ensures Booked(After(store, ops).sessions[id], AccountOf(store, ops, id))
      {
        StepBooked(store, before, op, id);
      }
    }
  }

  /** The transcripts of turns whose completion was acknowledged, oldest first. */
  function CompletedEntries(entries: seq<Entry>): seq<Turn> {
    if entries == [] then []
    else
      CompletedEntries(entries[..|entries| - 1])
      + (if entries[|entries| - 1].end.CompletedWith? then [MessagesOf(entries[|entries| - 1])] else [])
  }

  lemma {:induction false} BookedHistory(turns: seq<TurnRecord>, entries: seq<Entry>)
    requires |turns| == |entries| && forall p :: 0 <= p < |turns| ==> TurnBooked(turns[p], entries[p])
    ensures CompletedTurns(turns) == CompletedEntries(entries)
  {
    if turns != [] {
      BookedHistory(turns[..|turns| - 1], entries[..|entries| - 1]);
      assert TurnBooked(turns[|turns| - 1], entries[|entries| - 1]);
    }
  }

  /** A load returns the longest suffix, within the byte limit, of the turns a host was told completed. */
  lemma {:induction false} LoadReturnsAccount(store: StoreIdentity, ops: seq<Op>, id: SessionId, now: Instant)
    requires id in After(store, ops).sessions
    ensures var reply := Step(store, After(store, ops), LoadSession(id, now)).1;
            var completed := CompletedEntries(AccountOf(store, ops, id).entries);
            && reply.Loaded? && reply.loaded.Ok?
            && IsLongestSuffix(reply.loaded.value.history, completed, reply.loaded.value.config.maxHistoryBytes)
            && var config := reply.loaded.value.config;
               AccountOf(store, ops, id).settings ==
               Some(Settings(config.schema, config.systemPrompt, config.maxHistoryBytes, Recording(config)))
  {
    hide After, AccountOf, Booked, Recovered, IsLongestSuffix, CompletedTurns, CompletedEntries;
    Conservation(store, ops);
    var s, a := After(store, ops), AccountOf(store, ops, id);
    assert Booked(s.sessions[id], a);
    RecoveredBooked(s.sessions[id], a, now);
    var r := Recovered(s.sessions[id], now);
    BookedCompletions(r, a);
    ReplayIsLongest(CompletedTurns(r.turns), r.config.maxHistoryBytes);
  }

  lemma {:induction false} BookedCompletions(r: Record, a: Account)
    requires Booked(r, a)
    ensures CompletedTurns(r.turns) == CompletedEntries(a.entries)
  {
    hide TurnBooked;
    BookedHistory(r.turns, a.entries);
  }
}
