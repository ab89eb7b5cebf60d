/** One stored session as a value, and what each store operation does to it. */
module SessionRecords {
  import opened Prelude
  import opened Messages
  import opened BoundedHistory

  type SessionId = string

  /** Identity of the backing store; equal exactly for handles to the same store. */
  datatype StoreIdentity = FileStore(path: string) | HostStore(namespace: string, key: string) | Temporary(n: nat)

  /** A reservation's identity; the interruption label is not part of it. */
  datatype Owner = Owner(store: StoreIdentity, session: SessionId, position: int, token: int)

  datatype ExecutionIdentity = ExecutionIdentity(key: string, revision: string)

  datatype ModelMetadata = ModelMetadata(provider: string, model: string)

  datatype Capabilities = Capabilities(imageInput: bool, toolCalls: bool)

  datatype RecordedModel = RecordedModel(
    generation: int,
    model: Option<string>,
    provider: Option<string>,
    registration: Option<ExecutionIdentity>)

  datatype HostRequest = HostRequest(id: string, fingerprint: string)

  datatype TurnOptions = TurnOptions(
    schema: string, readAllowed: bool, writeAllowed: bool, comparison: Option<string>, maxToolCalls: nat)

  datatype Outcome = Outcome(output: string, report: string)

  datatype Status = Running | Completed | Failed | Interrupted

  datatype TurnRecord = TurnRecord(
    owner: Owner,
    model: RecordedModel,
    options: TurnOptions,
    request: Option<HostRequest>,
    status: Status,
    messages: Turn,
    errorType: Option<string>,
    outcome: Option<Outcome>,
    deadline: Instant)

  datatype WriteStatus = Pending | Applied | Rejected

  datatype WriteRecord = WriteRecord(
    id: int,
    position: int,
    callId: string,
    root: string,
    path: string,
    expectedHash: Option<string>,
    resultingHash: string,
    status: WriteStatus)

  datatype Configuration = Configuration(
    generation: int,
    maxHistoryBytes: nat,
    model: Option<string>,
    provider: Option<string>,
    registration: Option<ExecutionIdentity>,
    continuation: Option<string>,
    schema: string,
    systemPrompt: Option<string>)

  datatype Record = Record(
    config: Configuration, nextTurn: int, turns: seq<TurnRecord>, writes: seq<WriteRecord>)

  datatype HostStatus =
    | InProgress
    | HostCompleted(outcome: Outcome)
    | HostFailed(errorType: string)
    | HostInterrupted(errorType: string)

  datatype HostTurn = HostTurn(
    model: RecordedModel, request: HostRequest, status: HostStatus, position: int, writes: seq<WriteRecord>)

  datatype SessionError =
    | InvalidData
    | NotFound
    | AlreadyExists
    | Busy
    | StaleModel
    | HostTurnConflict
    | OwnershipLost
    | UnsupportedModelHistory

  datatype Acquired = Acquired(
    owner: Owner, deadline: Instant, history: seq<Turn>, continuation: Option<string>)

  datatype Acquisition = Granted(turn: Acquired) | Recorded(record: HostTurn)

  const TURN_LEASE: int := 300_000

  function Token(position: int): int { position }

  function Recording(config: Configuration): RecordedModel {
    RecordedModel(config.generation, config.model, config.provider, config.registration)
  }

  /** A provider continuation survives a change of tool budget, but of nothing else. */
  predicate Compatible(previous: TurnOptions, options: TurnOptions) {
    && previous.schema == options.schema
    && previous.readAllowed == options.readAllowed
    && previous.writeAllowed == options.writeAllowed
    && previous.comparison == options.comparison
  }

  predicate LastRunning(r: Record) {
    r.turns != [] && r.turns[|r.turns| - 1].status == Running
  }

  function WithLast(r: Record, turn: TurnRecord): Record
    requires r.turns != []
  {
    r.(turns := r.turns[|r.turns| - 1 := turn])
  }

  function Last(r: Record): TurnRecord
    requires r.turns != []
  {
    r.turns[|r.turns| - 1]
  }

  function InterruptLast(r: Record, errorType: string): Record
    requires r.turns != []
  {
    WithLast(r, Last(r).(status := Interrupted, errorType := Some(errorType)))
      .(config := r.config.(continuation := None))
  }

  /** An expired running turn becomes interrupted and gives up its continuation. */
  function Recovered(r: Record, now: Instant): Record {
    if LastRunning(r) && Last(r).deadline <= now then InterruptLast(r, "interrupted") else r
  }

  /** The owner holds the newest turn, which is running and unexpired. */
  predicate Live(r: Record, owner: Owner, now: Instant) {
    LastRunning(r) && Last(r).owner == owner && Last(r).deadline > now
  }

  predicate HasRequest(turn: TurnRecord, hostId: string) {
    turn.request.Some? && turn.request.value.id == hostId
  }

  /** Index of the first turn holding this host identifier, or the number of turns. */
  function RequestIndex(turns: seq<TurnRecord>, hostId: string): (i: nat)
    ensures i <= |turns|
    ensures i < |turns| ==> HasRequest(turns[i], hostId)
    ensures forall j :: 0 <= j < i ==> !HasRequest(turns[j], hostId)
  {
    if turns == [] then 0
    else if HasRequest(turns[0], hostId) then 0
    else 1 + RequestIndex(turns[1..], hostId)
  }

  function WritesOf(writes: seq<WriteRecord>, position: int): seq<WriteRecord> {
    if writes == [] then []
    else
      WritesOf(writes[..|writes| - 1], position)
      + (if writes[|writes| - 1].position == position then [writes[|writes| - 1]] else [])
  }

  function OrEmpty(text: Option<string>): string {
    if text.Some? then text.value else ""
  }

  /** A recorded status; a completed turn without its outcome would read as no record at all. */
  function HostStatusOf(turn: TurnRecord): Option<HostStatus> {
    match turn.status
    case Running => Some(InProgress)
    case Completed => if turn.outcome.Some? then Some(HostCompleted(turn.outcome.value)) else None
    case Failed => Some(HostFailed(OrEmpty(turn.errorType)))
    case Interrupted => Some(HostInterrupted(OrEmpty(turn.errorType)))
  }

  function FindRequest(r: Record, hostId: string): Option<HostTurn> {
    var i := RequestIndex(r.turns, hostId);
    if i == |r.turns| || HostStatusOf(r.turns[i]).None? then None
    else
      var turn := r.turns[i];
      Some(HostTurn(turn.model, turn.request.value, HostStatusOf(turn).value, turn.owner.position,
                    WritesOf(r.writes, turn.owner.position)))
  }

  /** The messages of completed turns, oldest first. */
  function CompletedTurns(turns: seq<TurnRecord>): seq<Turn> {
    if turns == [] then []
    else
      CompletedTurns(turns[..|turns| - 1])
      + (if turns[|turns| - 1].status == Completed then [turns[|turns| - 1].messages] else [])
  }

  function History(r: Record): seq<Turn> {
    Replay(CompletedTurns(r.turns), r.config.maxHistoryBytes)
  }

  /** The newest completed turn's options. */
  function LatestOptions(turns: seq<TurnRecord>): Option<TurnOptions> {
    if turns == [] then None
    else if turns[|turns| - 1].status == Completed then Some(turns[|turns| - 1].options)
    else LatestOptions(turns[..|turns| - 1])
  }

  /** The stored continuation, when the newest completed turn's options allow reusing it. */
  function UsableContinuation(r: Record, options: TurnOptions): Option<string> {
    var previous := LatestOptions(r.turns);
    if previous.Some? && Compatible(previous.value, options) then r.config.continuation else None
  }

  function Reserved(r: Record, owner: Owner, input: TurnInput, options: TurnOptions,
                    request: Option<HostRequest>, deadline: Instant): Record {
    r.(turns := r.turns + [TurnRecord(owner, Recording(r.config), options, request, Running,
                                      [UserMessage(input)], None, None, deadline)],
       nextTurn := r.nextTurn + 1,
       config := r.config.(continuation := UsableContinuation(r, options)))
  }

  /** Clock readings of one acquisition: expiry check, new deadline, activation. */
  datatype Readings = Readings(recover: Instant, reserve: Instant, activate: Instant)

  datatype Submission = Submission(
    input: TurnInput, options: TurnOptions, request: Option<HostRequest>, generation: int)

  function NewOwner(store: StoreIdentity, id: SessionId, r: Record): Owner {
    Owner(store, id, r.nextTurn, Token(r.nextTurn))
  }

  /** Why an acquisition on an already recovered record does not reserve, if it does not. */
  function Refusal(r: Record, s: Submission): Option<Result<Acquisition, SessionError>> {
    var known := if s.request.Some? then FindRequest(r, s.request.value.id) else None;
    if known.Some? then
      Some(if known.value.request == s.request.value then Ok(Recorded(known.value)) else Err(HostTurnConflict))
    else if r.config.generation != s.generation then Some(Err(StaleModel))
    else if LastRunning(r) then Some(Err(Busy))
    else if r.nextTurn >= I64_MAX then Some(Err(InvalidData))
    else None
  }

  /** Reserves a turn atomically, or classifies the request; an expired acknowledgment is refused after reserving. */
  function Acquire(store: StoreIdentity, id: SessionId, r: Record, s: Submission, clock: Readings)
    : (Record, Result<Acquisition, SessionError>)
  {
    var ready := Recovered(r, clock.recover);
    if Refusal(ready, s).Some? then (ready, Refusal(ready, s).value)
    else
      var owner, deadline := NewOwner(store, id, ready), clock.reserve + TURN_LEASE;
      (Reserved(ready, owner, s.input, s.options, s.request, deadline),
       if clock.activate >= deadline then Err(OwnershipLost)
       else Ok(Granted(Acquired(owner, deadline, History(ready), UsableContinuation(ready, s.options)))))
  }

  function Complete(r: Record, owner: Owner, messages: Turn, continuation: Option<string>,
                    outcome: Option<Outcome>, now: Instant): (Record, Result<(), SessionError>) {
    if !Live(r, owner, now) then (r, Err(OwnershipLost))
    else if Last(r).request.Some? && outcome.None? then (r, Err(InvalidData))
    else
      (WithLast(r, Last(r).(outcome := outcome, messages := Last(r).messages + messages, status := Completed))
         .(config := r.config.(continuation := continuation)), Ok(()))
  }

  function Fail(r: Record, owner: Owner, errorType: string, now: Instant): (Record, Result<(), SessionError>) {
    if !Live(r, owner, now) then (r, Err(OwnershipLost))
    else
      (WithLast(r, Last(r).(status := Failed, errorType := Some(errorType)))
         .(config := r.config.(continuation := None)), Ok(()))
  }

  function Renew(r: Record, owner: Owner, now: Instant, renewal: Instant): (Record, Result<Instant, SessionError>) {
    if !Live(r, owner, now) then (r, Err(OwnershipLost))
    else (WithLast(r, Last(r).(deadline := renewal + TURN_LEASE)), Ok(renewal + TURN_LEASE))
  }

  /** Owner-scoped cleanup, independent of expiry, that touches nothing but the owner's own running turn. */
  function Interrupt(r: Record, owner: Owner, reason: string): Record {
    if LastRunning(r) && Last(r).owner == owner then InterruptLast(r, reason) else r
  }

  predicate HasReasoning(m: ModelMessage) {
    match m
    case AssistantReasoning(_, _) => true
    case AssistantToolCall(call) => call.reasoning.Some?
    case AssistantToolCalls(calls) => exists i :: 0 <= i < |calls| && calls[i].reasoning.Some?
    case _ => false
  }

  /** Whether a model with these capabilities may replay this message. */
  predicate Portable(m: ModelMessage, capabilities: Capabilities) {
    && (m.AssistantToolCall? || m.AssistantToolCalls? || m.ToolResult? ==> capabilities.toolCalls)
    && !HasReasoning(m)
    && (m.UserInput? && HasImages(m.input) ==> capabilities.imageInput)
  }

  predicate TurnPortable(turn: Turn, capabilities: Capabilities) {
    forall i :: 0 <= i < |turn| ==> Portable(turn[i], capabilities)
  }

  predicate HistoryPortable(turns: seq<Turn>, capabilities: Capabilities) {
    forall i :: 0 <= i < |turns| ==> TurnPortable(turns[i], capabilities)
  }

  datatype Selection = Selection(
    identity: ExecutionIdentity, metadata: Option<ModelMetadata>, capabilities: Capabilities)

  function Selected(config: Configuration, selection: Selection): Configuration {
    config.(generation := config.generation + 1,
            registration := Some(selection.identity),
            provider := if selection.metadata.Some? then Some(selection.metadata.value.provider) else None,
            model := if selection.metadata.Some? then Some(selection.metadata.value.model) else None,
            continuation := None)
  }

  function Switch(r: Record, generation: int, selection: Selection, now: Instant)
    : (Record, Result<int, SessionError>)
  {
    var ready := Recovered(r, now);
    if ready.config.generation != generation then (ready, Err(StaleModel))
    else if LastRunning(ready) then (ready, Err(Busy))
    else if !HistoryPortable(CompletedTurns(ready.turns), selection.capabilities) then
      (ready, Err(UnsupportedModelHistory))
    else if generation >= I64_MAX then (ready, Err(InvalidData))
    else (ready.(config := Selected(ready.config, selection)), Ok(generation + 1))
  }

  /** The journal entry that a verdict may settle: this owner's, still pending or already so settled. */
  predicate Settles(write: WriteRecord, id: int, position: int, verdict: WriteStatus) {
    write.id == id && write.position == position && (write.status == Pending || write.status == verdict)
  }

  function WriteIndex(writes: seq<WriteRecord>, id: int, position: int, verdict: WriteStatus): (i: nat)
    ensures i <= |writes|
    ensures i < |writes| ==> Settles(writes[i], id, position, verdict)
    ensures forall j :: 0 <= j < i ==> !Settles(writes[j], id, position, verdict)
  {
    if writes == [] then 0
    else if Settles(writes[0], id, position, verdict) then 0
    else 1 + WriteIndex(writes[1..], id, position, verdict)
  }

  predicate OwnsTurn(turns: seq<TurnRecord>, owner: Owner) {
    exists i :: 0 <= i < |turns| && turns[i].owner == owner
  }

  /** Settles one journal entry, even after its turn ended or was succeeded. */
  function FinishWrite(r: Record, owner: Owner, id: int, applied: bool): (Record, Result<(), SessionError>) {
    var verdict := if applied then Applied else Rejected;
    var i := WriteIndex(r.writes, id, owner.position, verdict);
    if !OwnsTurn(r.turns, owner) || i == |r.writes| then (r, Err(OwnershipLost))
    else (r.(writes := r.writes[i := r.writes[i].(status := verdict)]), Ok(()))
  }

  datatype Intent = Intent(
    callId: string, root: string, path: string, expectedHash: Option<string>, resultingHash: string)

  function WriteIntent(r: Record, owner: Owner, id: int, intent: Intent, now: Instant)
    : (Record, Result<int, SessionError>)
  {
    if !Live(r, owner, now) then (r, Err(OwnershipLost))
    else
      (r.(writes := r.writes + [WriteRecord(id, owner.position, intent.callId, intent.root, intent.path,
                                            intent.expectedHash, intent.resultingHash, Pending)]), Ok(id))
  }
}
