/** What each store operation answers, and does, in every run: exactly when it succeeds, and what it then leaves. */
module Replies {
  import opened Prelude
  import opened Messages
  import opened BoundedHistory
  import opened SessionRecords
  import opened MemoryStore
  import opened StoreRuns
  import opened Ledger

  predicate Running(turn: TurnRecord, now: Instant) {
    turn.status == Status.Running && turn.deadline > now
  }

  /** Some turn of the session is running and unexpired. */
  predicate IsBusy(r: Record, now: Instant) {
    exists i :: 0 <= i < |r.turns| && Running(r.turns[i], now)
  }

  /** The owner's own turn is running and unexpired. */
  predicate OwnsLive(s: State, owner: Owner, now: Instant) {
    && owner.session in s.sessions
    && var turns := s.sessions[owner.session].turns;
       0 <= owner.position < |turns| && turns[owner.position].owner == owner && Running(turns[owner.position], now)
  }

  function TurnAt(s: State, owner: Owner): TurnRecord
    requires owner.session in s.sessions && 0 <= owner.position < |s.sessions[owner.session].turns|
  {
    s.sessions[owner.session].turns[owner.position]
  }

  /** A turn of a reachable state belongs to its store, and only the newest can run. */
  lemma {:induction false} LiveIsOwnsLive(store: StoreIdentity, s: State, owner: Owner, now: Instant)
    requires StateInv(store, s)
    ensures OwnsLive(s, owner, now) <==>
            owner.store == store && owner.session in s.sessions && Live(s.sessions[owner.session], owner, now)
  {
    hide Requests, Generations, Journal;
    if owner.session in s.sessions {
      assert RecordInv(store, owner.session, s.nextWrite, s.sessions[owner.session]);
    }
  }

  lemma {:induction false} BusyIsLast(store: StoreIdentity, id: SessionId, r: Record, now: Instant)
    requires TurnLog(store, id, r)
    ensures IsBusy(r, now) <==> LastRunning(r) && Last(r).deadline > now
    ensures IsBusy(r, now) <==> LastRunning(Recovered(r, now))
  {
    if LastRunning(r) && Last(r).deadline > now {
      assert Running(r.turns[|r.turns| - 1], now);
    }
  }

  // ---------- creation ----------

  /** A session is created exactly under a new identifier that is not all white space. */
  lemma {:induction false} CreateReply(store: StoreIdentity, s: State, op: Op)
    requires op.CreateSession?
    ensures var (next, reply) := Step(store, s, op);
            var blank := forall i :: 0 <= i < |op.config.id| ==> IsWhiteSpace(op.config.id[i]);
            && (reply == Done(Ok(())) <==> !blank && op.config.id !in s.sessions)
            && (reply != Done(Ok(())) ==>
                  next == s && reply == Done(Err(if blank then InvalidData else AlreadyExists)))
            && (reply == Done(Ok(())) ==>
                  && next.sessions.Keys == s.sessions.Keys + {op.config.id}
                  && forall k :: k in s.sessions ==> next.sessions[k] == s.sessions[k])
  {
  }

  // ---------- owners ----------

  /** A completion succeeds exactly for an owner whose turn is live, with an outcome if a host asked for the turn. */
  lemma {:induction false} CompleteReply(store: StoreIdentity, ops: seq<Op>, op: Op)
    requires op.CompleteTurn?
    ensures var s := After(store, ops);
            var reply := Step(store, s, op).1;
            if !OwnsLive(s, op.owner, op.now) then reply == Done(Err(OwnershipLost))
            else if TurnAt(s, op.owner).request.Some? && op.outcome.None? then reply == Done(Err(InvalidData))
            else reply == Done(Ok(()))
  {
    hide After, Live, OwnsLive, StateInv;
    RunInv(store, ops);
    OwnerStepReply(store, After(store, ops), op);
    LiveTurnAt(store, After(store, ops), op.owner, op.now);
  }

  /** A failure is recorded exactly for an owner whose turn is live. */
  lemma {:induction false} FailReply(store: StoreIdentity, ops: seq<Op>, op: Op)
    requires op.FailTurn?
    ensures Step(store, After(store, ops), op).1 ==
            Done(if OwnsLive(After(store, ops), op.owner, op.now) then Ok(()) else Err(OwnershipLost))
  {
    hide After, Live, OwnsLive, StateInv;
    RunInv(store, ops);
    OwnerStepReply(store, After(store, ops), op);
  }

  /** A renewal succeeds exactly for an owner whose turn is live, and stores the deadline it answers. */
  lemma {:induction false} RenewReply(store: StoreIdentity, ops: seq<Op>, op: Op)
    requires op.RenewTurn?
    ensures var s := After(store, ops);
            var (next, reply) := Step(store, s, op);
            if OwnsLive(s, op.owner, op.now)
            then && reply == Renewed(Ok(op.renewal + TURN_LEASE))
                 && op.owner.session in next.sessions
                 && |next.sessions[op.owner.session].turns| == |s.sessions[op.owner.session].turns|
                 && TurnAt(next, op.owner) == TurnAt(s, op.owner).(deadline := op.renewal + TURN_LEASE)
            else reply == Renewed(Err(OwnershipLost)) && next == s
  {
    hide After, StateInv;
    RunInv(store, ops);
    var s := After(store, ops);
    OwnerStepReply(store, s, op);
    LiveTurnAt(store, s, op.owner, op.now);
    if op.owner.session in s.sessions {
      SameRecord(s.sessions, op.owner.session);
    }
  }

  /** An intended write is journalled exactly for an owner whose turn is live, under the next identifier. */
  lemma {:induction false} IntendReply(store: StoreIdentity, ops: seq<Op>, op: Op)
    requires op.IntendWrite?
    ensures var s := After(store, ops);
            Step(store, s, op).1 ==
            Intended(if op.owner.store == store && s.nextWrite >= I64_MAX then Err(InvalidData)
                     else if OwnsLive(s, op.owner, op.now) then Ok(s.nextWrite + 1)
                     else Err(OwnershipLost))
  {
    hide After, Live, OwnsLive, StateInv;
    RunInv(store, ops);
    LiveIsOwnsLive(store, After(store, ops), op.owner, op.now);
  }

  lemma {:induction false} OwnerStepReply(store: StoreIdentity, s: State, op: Op)
    requires StateInv(store, s) && (op.CompleteTurn? || op.FailTurn? || op.RenewTurn?)
    ensures var reply := Step(store, s, op).1;
            match op
            case CompleteTurn(owner, _, _, outcome, now) =>
              reply == Done(if !OwnsLive(s, owner, now) then Err(OwnershipLost)
                            else if Last(s.sessions[owner.session]).request.Some? && outcome.None? then Err(InvalidData)
                            else Ok(()))
            case FailTurn(owner, _, now) => reply == Done(if OwnsLive(s, owner, now) then Ok(()) else Err(OwnershipLost))
            case RenewTurn(owner, now, renewal) =>
              reply == Renewed(if OwnsLive(s, owner, now) then Ok(renewal + TURN_LEASE) else Err(OwnershipLost))
            case _ => true
  {
    hide StateInv, Live;
    LiveIsOwnsLive(store, s, op.owner, op.now);
    LiveTurnAt(store, s, op.owner, op.now);
  }

  lemma {:induction false} LiveTurnAt(store: StoreIdentity, s: State, owner: Owner, now: Instant)
    requires StateInv(store, s)
    ensures OwnsLive(s, owner, now) ==>
              && owner.store == store && Live(s.sessions[owner.session], owner, now)
              && owner.position == |s.sessions[owner.session].turns| - 1
              && TurnAt(s, owner) == Last(s.sessions[owner.session])
  {
    hide Requests, Generations, Journal;
    LiveIsOwnsLive(store, s, owner, now);
    if OwnsLive(s, owner, now) {
      assert RecordInv(store, owner.session, s.nextWrite, s.sessions[owner.session]);
    }
  }

  /** An interruption ends the owner's running turn, expired or not, with its reason, and touches nothing else. */
  lemma {:induction false} InterruptReply(store: StoreIdentity, ops: seq<Op>, op: Op)
    requires op.InterruptTurn? && op.owner.store == store
    ensures var s := After(store, ops);
            var (next, reply) := Step(store, s, op);
            && reply == Done(Ok(()))
            && (if op.owner.session in s.sessions && LastRunning(s.sessions[op.owner.session])
                   && Last(s.sessions[op.owner.session]).owner == op.owner
                then
                  var before, after := s.sessions[op.owner.session], next.sessions[op.owner.session];
                  && after.turns ==
                     before.turns[..|before.turns| - 1] +
                     [Last(before).(status := Interrupted, errorType := Some(op.reason))]
                  && after.config == before.config.(continuation := None)
                else next == s)
  {
    hide After;
    var s := After(store, ops);
    if op.owner.session in s.sessions {
      SameRecord(s.sessions, op.owner.session);
    }
  }

  // ---------- recovery ----------

  /** When an operation reads the clock to recover an expired turn. */
  function RecoversAt(op: Op): Option<Instant> {
    match op
    case LoadSession(_, now) => Some(now)
    case LoadRequest(_, _, now) => Some(now)
    case SwitchModel(_, _, _, now) => Some(now)
    case Begin(_, _, _, clock) => Some(clock.recover)
    case _ => None
  }

  /** Recovery ends exactly an expired running turn, as interrupted, and drops its continuation. */
  lemma {:induction false} RecoveryIsExact(r: Record, now: Instant)
    ensures var ready := Recovered(r, now);
            if LastRunning(r) && Last(r).deadline <= now
            then && ready.turns == r.turns[..|r.turns| - 1] +
                                   [Last(r).(status := Interrupted, errorType := Some("interrupted"))]
                 && ready.config == r.config.(continuation := None)
            else ready == r
  {
  }

  /** No operation that recovers leaves a turn running past the deadline it read the clock against. */
  lemma {:induction false} NothingRunsExpired(store: StoreIdentity, ops: seq<Op>, op: Op)
    requires RecoversAt(op).Some? && Target(op) in After(store, ops).sessions
    requires op.Begin? ==> op.handle == store && op.clock.recover <= op.clock.reserve
    ensures var next := Step(store, After(store, ops), op).0.sessions;
            && Target(op) in next
            && forall i :: 0 <= i < |next[Target(op)].turns| && next[Target(op)].turns[i].status == Status.Running ==>
                 next[Target(op)].turns[i].deadline > RecoversAt(op).value
  {
    hide After, StateInv, Step, RecordInv;
    RunInv(store, ops);
    var s, id := After(store, ops), Target(op);
    StepKeeps(store, s, op);
    var next := Step(store, s, op).0;
    LastIsUnexpired(store, s, op);
    InvAt(store, next, id);
    OnlyLastRuns(store, id, next.nextWrite, next.sessions[id]);
  }

  lemma {:induction false} InvAt(store: StoreIdentity, s: State, id: SessionId)
    requires StateInv(store, s) && id in s.sessions
    ensures RecordInv(store, id, s.nextWrite, s.sessions[id])
  {
  }

  lemma {:induction false} OnlyLastRuns(store: StoreIdentity, id: SessionId, nextWrite: int, r: Record)
    requires RecordInv(store, id, nextWrite, r)
    ensures forall i :: 0 <= i < |r.turns| && r.turns[i].status == Status.Running ==> i == |r.turns| - 1
  {
    hide Requests, Generations, Journal;
  }

  lemma {:induction false} LastIsUnexpired(store: StoreIdentity, s: State, op: Op)
    requires RecoversAt(op).Some? && Target(op) in s.sessions
    requires op.Begin? ==> op.handle == store && op.clock.recover <= op.clock.reserve
    ensures Target(op) in Step(store, s, op).0.sessions
    ensures var r := Step(store, s, op).0.sessions[Target(op)];
            LastRunning(r) ==> Last(r).deadline > RecoversAt(op).value
  {
    hide HistoryPortable, CompletedTurns, FindRequest, History, UsableContinuation;
  }

  // ---------- acquisition ----------

  /** What a submission is answered, told by the record that recovery leaves. */
  lemma {:induction false} BeginReply(store: StoreIdentity, ops: seq<Op>, op: Op)
    requires op.Begin?
    ensures var s := After(store, ops);
            var reply := Step(store, s, op).1;
            if op.handle != store then reply == Began(Err(InvalidData))
            else if op.id !in s.sessions then reply == Began(Err(NotFound))
            else if op.submission.request.Some?
                    && Lookup(s, op.id, op.submission.request.value.id, op.clock.recover).Some? then
              reply.Began? && !TookTurn(reply)
            else if s.sessions[op.id].config.generation != op.submission.generation then
              reply == Began(Err(StaleModel))
            else if IsBusy(s.sessions[op.id], op.clock.recover) then reply == Began(Err(Busy))
            else if s.sessions[op.id].nextTurn >= I64_MAX then reply == Began(Err(InvalidData))
            else if op.clock.activate >= op.clock.reserve + TURN_LEASE then reply == Began(Err(OwnershipLost))
            else Grants(reply)
  {
    hide After, StateInv, IsBusy, FindRequest, Reserved, History, UsableContinuation, NewOwner, LastRunning;
    RunInv(store, ops);
    var s := After(store, ops);
    if op.handle == store && op.id in s.sessions {
      InvAt(store, s, op.id);
      BusyIsLast(store, op.id, s.sessions[op.id], op.clock.recover);
      RecoveredConfig(s.sessions[op.id], op.clock.recover);
      hide Recovered, RecordInv;
    }
  }

  lemma {:induction false} RecoveredConfig(r: Record, now: Instant)
    ensures Recovered(r, now).config.generation == r.config.generation && Recovered(r, now).nextTurn == r.nextTurn
    ensures Recovered(r, now).config.maxHistoryBytes == r.config.maxHistoryBytes
    ensures |Recovered(r, now).turns| == |r.turns|
  {
  }

  /**
   * A grant hands out the longest suffix, within the limit, of the turns a host was told completed, and the owner and
   * deadline of exactly the running turn it appended.
   */
  lemma {:induction false} GrantReturnsAccount(store: StoreIdentity, ops: seq<Op>, op: Op)
    requires op.Begin? && Grants(Step(store, After(store, ops), op).1)
    ensures op.id in After(store, ops).sessions && op.id in Step(store, After(store, ops), op).0.sessions
    ensures var before := After(store, ops).sessions[op.id];
            var (next, reply) := Step(store, After(store, ops), op);
            var granted, turns := reply.began.value.turn, next.sessions[op.id].turns;
            && IsLongestSuffix(granted.history, CompletedEntries(AccountOf(store, ops, op.id).entries),
                               before.config.maxHistoryBytes)
            && |turns| == |before.turns| + 1
            && turns[|before.turns|].status == Status.Running
            && turns[|before.turns|].owner == granted.owner == Owner(store, op.id, |before.turns|, Token(|before.turns|))
            && turns[|before.turns|].deadline == granted.deadline == op.clock.reserve + TURN_LEASE > op.clock.activate
  {
    hide After, AccountOf, Booked, IsLongestSuffix, CompletedTurns, CompletedEntries, StateInv;
    GrantReserves(store, After(store, ops), op);
    Conservation(store, ops);
    RunInv(store, ops);
    var s, a := After(store, ops), AccountOf(store, ops, op.id);
    var r := s.sessions[op.id];
    assert Booked(r, a);
    RecoveredBooked(r, a, op.clock.recover);
    RecoveredConfig(r, op.clock.recover);
    var ready := Ready(s, op);
    BookedCompletions(ready, a);
    ReplayIsLongest(CompletedTurns(ready.turns), ready.config.maxHistoryBytes);
    InvAt(store, s, op.id);
    GrantOfReserved(store, s, op);
  }

  lemma {:induction false} GrantOfReserved(store: StoreIdentity, s: State, op: Op)
    requires Reserves(store, s, op) && Grants(Step(store, s, op).1) && s.sessions[op.id].nextTurn == |s.sessions[op.id].turns|
    ensures var ready := Ready(s, op);
            var (next, reply) := Step(store, s, op);
            var granted := reply.began.value.turn;
            && op.id in next.sessions
            && granted.history == Replay(CompletedTurns(ready.turns), ready.config.maxHistoryBytes)
            && |next.sessions[op.id].turns| == |ready.turns| + 1
            && var turn := next.sessions[op.id].turns[|ready.turns|];
               && turn.status == Status.Running && turn.owner == granted.owner
               && granted.owner == Owner(store, op.id, |ready.turns|, Token(|ready.turns|))
               && turn.deadline == granted.deadline == op.clock.reserve + TURN_LEASE > op.clock.activate
  {
    hide CompletedTurns, Replay, FindRequest, UsableContinuation;
    RecoveredConfig(s.sessions[op.id], op.clock.recover);
    hide Recovered;
  }

  // ---------- lookups ----------

  /** How a lookup reports a turn, told by what its owner was told. */
  ghost predicate Reported(status: HostStatus, entry: Entry, turn: TurnRecord) {
    match entry.end
    case CompletedWith(_, outcome) => outcome.Some? && status == HostCompleted(outcome.value)
    case FailedWith(errorType) => status == HostFailed(errorType)
    case Open =>
      if turn.status == Status.Running then status == InProgress
      else turn.status == Interrupted && status == HostInterrupted(OrEmpty(turn.errorType))
  }

  lemma {:induction false} BookedIsReported(turn: TurnRecord, entry: Entry)
    requires TurnBooked(turn, entry) && HostStatusOf(turn).Some?
    ensures Reported(HostStatusOf(turn).value, entry, turn)
  {
  }

  /** A lookup finds a host identifier exactly when a submission took a turn under it, and reports how that turn stands. */
  lemma {:induction false} LookupReply(store: StoreIdentity, ops: seq<Op>, id: SessionId, hostId: string, now: Instant)
    requires id in After(store, ops).sessions
    ensures var entries := AccountOf(store, ops, id).entries;
            var ready := Recovered(After(store, ops).sessions[id], now);
            var found := Lookup(After(store, ops), id, hostId, now);
            && Step(store, After(store, ops), LoadRequest(id, hostId, now)).1 == Found(Ok(found))
            && |entries| == |ready.turns|
            && (found.None? ==> forall i :: 0 <= i < |entries| ==> !Asked(entries[i], hostId))
            && (found.Some? ==>
                  && 0 <= found.value.position < |entries| && Asked(entries[found.value.position], hostId)
                  && entries[found.value.position].submission.request == Some(found.value.request)
                  && found.value.model == entries[found.value.position].model
                  && Reported(found.value.status, entries[found.value.position], ready.turns[found.value.position]))
  {
    hide After, AccountOf, Booked, StateInv, Recovered, FindRequest, Step, RecordInv;
    Conservation(store, ops);
    RunInv(store, ops);
    LookupIsReply(store, After(store, ops), id, hostId, now);
    var s, a := After(store, ops), AccountOf(store, ops, id);
    assert Booked(s.sessions[id], a);
    RecoveredBooked(s.sessions[id], a, now);
    InvAt(store, s, id);
    RecoveredKeeps(store, id, s.nextWrite, s.sessions[id], now);
    FoundIsBooked(store, id, s.nextWrite, Recovered(s.sessions[id], now), a, hostId);
  }

  /** The entry was submitted under this host identifier. */
  predicate Asked(entry: Entry, hostId: string) {
    entry.submission.request.Some? && entry.submission.request.value.id == hostId
  }

  lemma {:induction false} FoundIsBooked(store: StoreIdentity, id: SessionId, nextWrite: int, r: Record, a: Account,
                                         hostId: string)
    requires RecordInv(store, id, nextWrite, r) && Booked(r, a)
    ensures var found := FindRequest(r, hostId);
            && |a.entries| == |r.turns|
            && (found.None? ==> forall i :: 0 <= i < |a.entries| ==> !Asked(a.entries[i], hostId))
            && (found.Some? ==>
                  && 0 <= found.value.position < |a.entries| && Asked(a.entries[found.value.position], hostId)
                  && a.entries[found.value.position].submission.request == Some(found.value.request)
                  && found.value.model == a.entries[found.value.position].model
                  && Reported(found.value.status, a.entries[found.value.position], r.turns[found.value.position]))
  {
    hide Generations, Journal, WritesOf, RequestIndex, MessagesOf;
    forall i | 0 <= i < |r.turns| && Asked(a.entries[i], hostId) ensures FindRequest(r, hostId).Some? {
      assert TurnBooked(r.turns[i], a.entries[i]);
      FoundIsRecordOf(store, id, r, i, hostId);
    }
    if FindRequest(r, hostId).Some? {
      var i := RequestIndex(r.turns, hostId);
      FoundIsRecordOf(store, id, r, i, hostId);
      assert TurnBooked(r.turns[i], a.entries[i]);
      BookedIsReported(r.turns[i], a.entries[i]);
    }
  }

  lemma {:induction false} WritesAreOwn(writes: seq<WriteRecord>, position: int, w: WriteRecord)
    ensures w in WritesOf(writes, position) <==> w in writes && w.position == position
  {
    if writes != [] {
      var front, last := writes[..|writes| - 1], writes[|writes| - 1];
      WritesAreOwn(front, position, w);
      assert writes == front + [last];
    }
  }

  ghost predicate Ascending(writes: seq<WriteRecord>) {
    forall i, j :: 0 <= i < j < |writes| ==> writes[i].id < writes[j].id
  }

  lemma {:induction false} WritesStayAscending(writes: seq<WriteRecord>, position: int)
    requires Ascending(writes)
    ensures Ascending(WritesOf(writes, position))
  {
    if writes != [] {
      var front, last := writes[..|writes| - 1], writes[|writes| - 1];
      WritesStayAscending(front, position);
      var own := WritesOf(front, position);
      forall i | 0 <= i < |own| ensures own[i].id < last.id {
        WritesAreOwn(front, position, own[i]);
      }
    }
  }

  /** A report lists exactly the journalled writes of its own turn, in the order they were intended. */
  lemma {:induction false} ReportListsOwnWrites(store: StoreIdentity, ops: seq<Op>, id: SessionId, hostId: string,
                                                now: Instant)
    requires id in After(store, ops).sessions && Lookup(After(store, ops), id, hostId, now).Some?
    ensures var report := Lookup(After(store, ops), id, hostId, now).value;
            && Ascending(report.writes)
            && forall w :: w in report.writes <==>
                 w in AccountOf(store, ops, id).writes && w.position == report.position
  {
    hide After, AccountOf, Booked, StateInv, Recovered, RecordInv, WritesOf;
    Conservation(store, ops);
    RunInv(store, ops);
    var s, a := After(store, ops), AccountOf(store, ops, id);
    assert Booked(s.sessions[id], a);
    RecoveredBooked(s.sessions[id], a, now);
    InvAt(store, s, id);
    RecoveredKeeps(store, id, s.nextWrite, s.sessions[id], now);
    var r, report := Recovered(s.sessions[id], now), Lookup(s, id, hostId, now).value;
    ReportWrites(store, id, s.nextWrite, r, a, hostId);
    WritesStayAscending(r.writes, report.position);
    forall w ensures w in report.writes <==> w in a.writes && w.position == report.position {
      WritesAreOwn(a.writes, report.position, w);
    }
  }

  lemma {:induction false} ReportWrites(store: StoreIdentity, id: SessionId, nextWrite: int, r: Record, a: Account,
                                        hostId: string)
    requires RecordInv(store, id, nextWrite, r) && Booked(r, a) && FindRequest(r, hostId).Some?
    ensures r.writes == a.writes && Ascending(r.writes)
    ensures var report := FindRequest(r, hostId).value; report.writes == WritesOf(r.writes, report.position)
  {
    hide WritesOf, Generations, Requests, TurnLog, TurnBooked;
  }

  // ---------- compatibility and portability ----------

  /** A continuation survives exactly a change of the tool budget. */
  lemma {:induction false} CompatibleExceptBudget(a: TurnOptions, b: TurnOptions)
    ensures Compatible(a, b) <==> a.(maxToolCalls := 0) == b.(maxToolCalls := 0)
  {
  }

  datatype Feature = ImageFeature | ToolFeature | ReasoningFeature

  /** What replaying a message needs of a model. */
  function Needs(m: ModelMessage): set<Feature> {
    match m
    case AssistantReasoning(_, _) => {ReasoningFeature}
    case AssistantToolCall(call) => {ToolFeature} + (if call.reasoning.Some? then {ReasoningFeature} else {})
    case AssistantToolCalls(calls) =>
      {ToolFeature} + (if exists i :: 0 <= i < |calls| && calls[i].reasoning.Some? then {ReasoningFeature} else {})
    case ToolResult(_, _, _) => {ToolFeature}
    case UserInput(input) => if HasImages(input) then {ImageFeature} else {}
    case _ => {}
  }

  /** What a model offers for foreign history; provider reasoning is never carried over. */
  function Offers(capabilities: Capabilities): set<Feature> {
    (if capabilities.imageInput then {ImageFeature} else {}) + (if capabilities.toolCalls then {ToolFeature} else {})
  }

  /** A message is portable exactly when the model offers all it needs. */
  lemma {:induction false} PortableIfOffered(m: ModelMessage, capabilities: Capabilities)
    ensures Portable(m, capabilities) <==> Needs(m) <= Offers(capabilities)
  {
    var offers := Offers(capabilities);
    assert ImageFeature in offers <==> capabilities.imageInput;
    assert ToolFeature in offers <==> capabilities.toolCalls;
    assert ReasoningFeature !in offers;
    if Needs(m) <= offers {
      assert ReasoningFeature !in Needs(m);
    }
  }

  // ---------- model switching ----------

  /** Every message of every turn a host was told completed suits the capabilities. */
  ghost predicate AllPortable(entries: seq<Entry>, capabilities: Capabilities) {
    forall i, k :: 0 <= i < |entries| && entries[i].end.CompletedWith? && 0 <= k < |MessagesOf(entries[i])| ==>
      Portable(MessagesOf(entries[i])[k], capabilities)
  }

  lemma {:induction false} PortableEntries(entries: seq<Entry>, capabilities: Capabilities)
    ensures HistoryPortable(CompletedEntries(entries), capabilities) <==> AllPortable(entries, capabilities)
  {
    hide Portable, MessagesOf;
    if entries != [] {
      var n := |entries| - 1;
      var front, last := entries[..n], entries[n];
      PortableEntries(front, capabilities);
      var older := CompletedEntries(front);
      if last.end.CompletedWith? {
        PortableSnoc(older, MessagesOf(last), capabilities);
      } else {
        assert CompletedEntries(entries) == older;
      }
      AllPortableSnoc(front, last, capabilities);
      assert entries == front + [last];
    }
  }

  lemma {:induction false} PortableSnoc(turns: seq<Turn>, turn: Turn, capabilities: Capabilities)
    ensures HistoryPortable(turns + [turn], capabilities) <==>
            HistoryPortable(turns, capabilities) && TurnPortable(turn, capabilities)
  {
    hide TurnPortable;
    var all := turns + [turn];
    if HistoryPortable(all, capabilities) {
      assert TurnPortable(all[|turns|], capabilities);
      forall i | 0 <= i < |turns| ensures TurnPortable(turns[i], capabilities) {
        assert all[i] == turns[i];
      }
    }
  }

  lemma {:induction false} AllPortableSnoc(front: seq<Entry>, last: Entry, capabilities: Capabilities)
    ensures AllPortable(front + [last], capabilities) <==>
            AllPortable(front, capabilities) && (last.end.CompletedWith? ==> TurnPortable(MessagesOf(last), capabilities))
  {
    hide Portable, MessagesOf;
    var all := front + [last];
    if AllPortable(all, capabilities) {
      assert all[|front|] == last;
      forall i, k | 0 <= i < |front| && front[i].end.CompletedWith? && 0 <= k < |MessagesOf(front[i])|
        ensures Portable(MessagesOf(front[i])[k], capabilities)
      {
        assert all[i] == front[i];
      }
    }
  }

  /**
   * A switch succeeds exactly on a current, idle session all of whose acknowledged turns suit the new model; it then
   * selects that model under the next generation, without a continuation, and leaves every turn alone.
   */
  lemma {:induction false} SwitchReply(store: StoreIdentity, ops: seq<Op>, op: Op)
    requires op.SwitchModel? && op.id in After(store, ops).sessions
    ensures var r := After(store, ops).sessions[op.id];
            var ready := Recovered(r, op.now);
            var (next, reply) := Step(store, After(store, ops), op);
            && op.id in next.sessions
            && next.sessions[op.id].turns == ready.turns && next.sessions[op.id].writes == ready.writes
            && (if r.config.generation != op.generation then reply == Switched(Err(StaleModel))
                else if IsBusy(r, op.now) then reply == Switched(Err(Busy))
                else if !AllPortable(AccountOf(store, ops, op.id).entries, op.selection.capabilities) then
                  reply == Switched(Err(UnsupportedModelHistory))
                else if op.generation >= I64_MAX then reply == Switched(Err(InvalidData))
                else
                  && reply == Switched(Ok(op.generation + 1))
                  && Recording(next.sessions[op.id].config) ==
                     SelectedModel(op.generation + 1, op.selection.metadata, Some(op.selection.identity))
                  && next.sessions[op.id].config.continuation == None)
            && (reply.switched.Err? ==> next.sessions[op.id] == ready)
  {
    hide After, AccountOf, Booked, StateInv, IsBusy, HistoryPortable, CompletedTurns, CompletedEntries, AllPortable,
         LastRunning, RecordInv;
    Conservation(store, ops);
    RunInv(store, ops);
    var s, a := After(store, ops), AccountOf(store, ops, op.id);
    var r := s.sessions[op.id];
    assert Booked(r, a);
    RecoveredBooked(r, a, op.now);
    BookedCompletions(Recovered(r, op.now), a);
    PortableEntries(a.entries, op.selection.capabilities);
    InvAt(store, s, op.id);
    TurnLogOf(store, op.id, s.nextWrite, r);
    BusyIsLast(store, op.id, r, op.now);
    RecoveredConfig(r, op.now);
    hide Recovered;
  }

  lemma {:induction false} TurnLogOf(store: StoreIdentity, id: SessionId, nextWrite: int, r: Record)
    requires RecordInv(store, id, nextWrite, r)
    ensures TurnLog(store, id, r)
  {
  }
}
