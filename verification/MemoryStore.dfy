/** The process-local store: a map of session records mutated in place under one lock. */
module MemoryStore {
  import opened Prelude
  import opened Messages
  import opened BoundedHistory
  import opened SessionRecords

  datatype State = State(nextWrite: int, sessions: map<SessionId, Record>)

  const EMPTY := State(0, map[])

  datatype NewSession = NewSession(
    id: SessionId, registration: Option<ExecutionIdentity>, schema: string, systemPrompt: Option<string>)

  datatype LoadedSession = LoadedSession(config: Configuration, history: seq<Turn>)

  /** Characters with the Unicode property White_Space. */
  predicate IsWhiteSpace(c: char) {
    || '\t' <= c <= '\r'
    || c == ' '
    || c == '\U{0085}'
    || c == '\U{00A0}'
    || c == '\U{1680}'
    || '\U{2000}' <= c <= '\U{200A}'
    || c == '\U{2028}'
    || c == '\U{2029}'
    || c == '\U{202F}'
    || c == '\U{205F}'
    || c == '\U{3000}'
  }

  /** Nothing is left after trimming. */
  predicate IsBlank(id: string) {
    forall i :: 0 <= i < |id| ==> IsWhiteSpace(id[i])
  }

  function FreshRecord(config: NewSession, metadata: Option<ModelMetadata>, maxHistoryBytes: nat): Record {
    Record(
      Configuration(
        0, maxHistoryBytes,
        if metadata.Some? then Some(metadata.value.model) else None,
        if metadata.Some? then Some(metadata.value.provider) else None,
        config.registration, None, config.schema, config.systemPrompt),
      0, [], [])
  }

  /** Every operation of the store, with its clock readings. */
  datatype Op =
    | CreateSession(config: NewSession, metadata: Option<ModelMetadata>, maxHistoryBytes: nat)
    | LoadSession(id: SessionId, now: Instant)
    | SwitchModel(id: SessionId, generation: int, selection: Selection, now: Instant)
    | Begin(handle: StoreIdentity, id: SessionId, submission: Submission, clock: Readings)
    | LoadRequest(id: SessionId, hostId: string, now: Instant)
    | CompleteTurn(owner: Owner, messages: Turn, continuation: Option<string>, outcome: Option<Outcome>, now: Instant)
    | RenewTurn(owner: Owner, now: Instant, renewal: Instant)
    | FailTurn(owner: Owner, errorType: string, now: Instant)
    | InterruptTurn(owner: Owner, reason: string)
    | IntendWrite(owner: Owner, intent: Intent, now: Instant)
    | SettleWrite(owner: Owner, writeId: int, applied: bool)

  datatype Reply =
    | Done(done: Result<(), SessionError>)
    | Loaded(loaded: Result<LoadedSession, SessionError>)
    | Switched(switched: Result<int, SessionError>)
    | Began(began: Result<Acquisition, SessionError>)
    | Found(found: Result<Option<HostTurn>, SessionError>)
    | Renewed(renewed: Result<Instant, SessionError>)
    | Intended(intended: Result<int, SessionError>)

  /** The session an operation addresses. */
  function Target(op: Op): SessionId {
    match op
    case CreateSession(config, _, _) => config.id
    case LoadSession(id, _) => id
    case SwitchModel(id, _, _, _) => id
    case Begin(_, id, _, _) => id
    case LoadRequest(id, _, _) => id
    case CompleteTurn(owner, _, _, _, _) => owner.session
    case RenewTurn(owner, _, _) => owner.session
    case FailTurn(owner, _, _) => owner.session
    case InterruptTurn(owner, _) => owner.session
    case IntendWrite(owner, _, _) => owner.session
    case SettleWrite(owner, _, _) => owner.session
  }

  /** What an operation does to the record it addresses. */
  function RecordStep(store: StoreIdentity, nextWrite: int, r: Record, op: Op): (Record, Reply)
  {
    match op
    case CreateSession(_, _, _) => (r, Done(Err(AlreadyExists)))
    case LoadSession(_, now) =>
      (Recovered(r, now), Loaded(Ok(LoadedSession(Recovered(r, now).config, History(Recovered(r, now))))))
    case SwitchModel(_, generation, selection, now) =>
      var (next, result) := Switch(r, generation, selection, now);
      (next, Switched(result))
    case Begin(handle, id, submission, clock) =>
      if handle != store then (r, Began(Err(InvalidData)))
      else
        var (next, result) := Acquire(store, id, r, submission, clock);
        (next, Began(result))
    case LoadRequest(_, hostId, now) => (Recovered(r, now), Found(Ok(FindRequest(Recovered(r, now), hostId))))
    case CompleteTurn(owner, messages, continuation, outcome, now) =>
      if owner.store != store then (r, Done(Err(OwnershipLost)))
      else
        var (next, result) := Complete(r, owner, messages, continuation, outcome, now);
        (next, Done(result))
    case RenewTurn(owner, now, renewal) =>
      if owner.store != store then (r, Renewed(Err(OwnershipLost)))
      else
        var (next, result) := Renew(r, owner, now, renewal);
        (next, Renewed(result))
    case FailTurn(owner, errorType, now) =>
      if owner.store != store then (r, Done(Err(OwnershipLost)))
      else
        var (next, result) := Fail(r, owner, errorType, now);
        (next, Done(result))
    case InterruptTurn(owner, reason) =>
      if owner.store != store then (r, Done(Err(OwnershipLost)))
      else (Interrupt(r, owner, reason), Done(Ok(())))
    case IntendWrite(owner, intent, now) =>
      if owner.store != store then (r, Intended(Err(OwnershipLost)))
      else if nextWrite >= I64_MAX then (r, Intended(Err(InvalidData)))
      else
        var (next, result) := WriteIntent(r, owner, nextWrite + 1, intent, now);
        (next, Intended(result))
    case SettleWrite(owner, writeId, applied) =>
      if owner.store != store then (r, Done(Err(OwnershipLost)))
      else
        var (next, result) := FinishWrite(r, owner, writeId, applied);
        (next, Done(result))
  }

  /** The reply of an operation on a session that does not exist. */
  function MissingReply(store: StoreIdentity, nextWrite: int, op: Op): Reply
    requires !op.CreateSession?
  {
    match op
    case LoadSession(_, _) => Loaded(Err(NotFound))
    case SwitchModel(_, _, _, _) => Switched(Err(NotFound))
    case Begin(handle, _, _, _) => Began(Err(if handle != store then InvalidData else NotFound))
    case LoadRequest(_, _, _) => Found(Err(NotFound))
    case RenewTurn(_, _, _) => Renewed(Err(OwnershipLost))
    case InterruptTurn(owner, _) => Done(if owner.store != store then Err(OwnershipLost) else Ok(()))
    case IntendWrite(owner, _, _) =>
      Intended(Err(if owner.store == store && nextWrite >= I64_MAX then InvalidData else OwnershipLost))
    case _ => Done(Err(OwnershipLost))
  }

  function NextWrite(nextWrite: int, reply: Reply): int {
    if reply.Intended? && reply.intended.Ok? then nextWrite + 1 else nextWrite
  }

  /** One atomic store operation. */
  function Step(store: StoreIdentity, s: State, op: Op): (State, Reply)
  {
    var id := Target(op);
    if op.CreateSession? then
      if IsBlank(id) then (s, Done(Err(InvalidData)))
      else if id in s.sessions then (s, Done(Err(AlreadyExists)))
      else
        (s.(sessions := s.sessions[id := FreshRecord(op.config, op.metadata, op.maxHistoryBytes)]), Done(Ok(())))
    else if id !in s.sessions then (s, MissingReply(store, s.nextWrite, op))
    else
      var (next, reply) := RecordStep(store, s.nextWrite, s.sessions[id], op);
      (State(NextWrite(s.nextWrite, reply), s.sessions[id := next]), reply)
  }

  // ---------- scans ----------

  /** Backward scan over completed turns, stopping at the first that does not fit. */
  method ScanHistory(turns: seq<TurnRecord>, budget: nat) returns (history: seq<Turn>)
    ensures history == Replay(CompletedTurns(turns), budget)
  {
    hide Replay, CompletedTurns, TurnBytes;
    var remaining := budget;
    history := [];
    var i := |turns|;
    assert turns[..i] == turns;
    while i > 0
      invariant 0 <= i <= |turns|
      invariant Replay(CompletedTurns(turns), budget) == Replay(CompletedTurns(turns[..i]), remaining) + history
    {
      i := i - 1;
      CompletedStep(turns, i);
      if turns[i].status == Completed {
        var turn := turns[i].messages;
        ReplayStep(CompletedTurns(turns[..i]), turn, remaining);
        var bytes := TurnBytes(turn);
        if bytes > remaining {
          return;
        }
        remaining := remaining - bytes;
        ghost var older := Replay(CompletedTurns(turns[..i]), remaining);
        assert older + [turn] + history == older + ([turn] + history);
        history := [turn] + history;
      } else {
        assert CompletedTurns(turns[..i + 1]) == CompletedTurns(turns[..i]);
      }
    }
    NothingOlder(turns, remaining);
  }

  lemma {:induction false} NothingOlder(turns: seq<TurnRecord>, budget: nat)
    ensures Replay(CompletedTurns(turns[..0]), budget) == []
  {
    assert turns[..0] == [];
  }

  lemma {:induction false} CompletedStep(turns: seq<TurnRecord>, i: nat)
    requires i < |turns|
    ensures CompletedTurns(turns[..i + 1]) ==
            CompletedTurns(turns[..i]) + if turns[i].status == Completed then [turns[i].messages] else []
  {
    assert turns[..i + 1][..i] == turns[..i];
  }

  lemma {:induction false} ReplayStep(older: seq<Turn>, turn: Turn, budget: nat)
    ensures Replay(older + [turn], budget) ==
            if TurnBytes(turn) > budget then [] else Replay(older, budget - TurnBytes(turn)) + [turn]
  {
    assert (older + [turn])[..|older|] == older;
  }

  method ScanRequest(r: Record, hostId: string) returns (found: Option<HostTurn>)
    ensures found == FindRequest(r, hostId)
  {
    var i := 0;
    while i < |r.turns| && !HasRequest(r.turns[i], hostId)
      invariant 0 <= i <= |r.turns|
      invariant forall j :: 0 <= j < i ==> !HasRequest(r.turns[j], hostId)
    {
      i := i + 1;
    }
    assert i == RequestIndex(r.turns, hostId);
    if i == |r.turns| {
      return None;
    }
    var turn := r.turns[i];
    var status := HostStatusOf(turn);
    if status.None? {
      return None;
    }
    var writes := [];
    for w := 0 to |r.writes|
      invariant writes == WritesOf(r.writes[..w], turn.owner.position)
    {
      assert r.writes[..w + 1][..w] == r.writes[..w];
      if r.writes[w].position == turn.owner.position {
        writes := writes + [r.writes[w]];
      }
    }
    assert r.writes[..|r.writes|] == r.writes;
    return Some(HostTurn(turn.model, turn.request.value, status.value, turn.owner.position, writes));
  }

  method ScanLatestOptions(turns: seq<TurnRecord>) returns (options: Option<TurnOptions>)
    ensures options == LatestOptions(turns)
  {
    var i := |turns|;
    assert turns[..i] == turns;
    while i > 0
      invariant 0 <= i <= |turns|
      invariant LatestOptions(turns[..i]) == LatestOptions(turns)
    {
      assert turns[..i][..i - 1] == turns[..i - 1];
      i := i - 1;
      if turns[i].status == Completed {
        return Some(turns[i].options);
      }
    }
    return None;
  }

  /** Every message of every completed turn must be portable to the new model. */
  method ScanPortable(turns: seq<TurnRecord>, capabilities: Capabilities) returns (portable: bool)
    ensures portable == HistoryPortable(CompletedTurns(turns), capabilities)
  {
    for i := 0 to |turns|
      invariant HistoryPortable(CompletedTurns(turns[..i]), capabilities)
    {
      assert turns[..i + 1][..i] == turns[..i];
      var earlier := CompletedTurns(turns[..i]);
      if turns[i].status == Completed {
        var turn := turns[i].messages;
        assert CompletedTurns(turns[..i + 1]) == earlier + [turn];
        for m := 0 to |turn|
          invariant forall k :: 0 <= k < m ==> Portable(turn[k], capabilities)
        {
          if !Portable(turn[m], capabilities) {
            assert !TurnPortable((earlier + [turn])[|earlier|], capabilities);
            CompletedPrefix(turns, i + 1);
            return false;
          }
        }
      }
    }
    assert turns[..|turns|] == turns;
    return true;
  }

  lemma {:induction false} CompletedPrefix(turns: seq<TurnRecord>, n: nat)
    requires n <= |turns|
    ensures CompletedTurns(turns[..n]) <= CompletedTurns(turns)
    decreases |turns|
  {
    if n < |turns| {
      CompletedPrefix(turns[..|turns| - 1], n);
      assert turns[..|turns| - 1][..n] == turns[..n];
    } else {
      assert turns[..n] == turns;
    }
  }

  lemma {:induction false} SameRecord(sessions: map<SessionId, Record>, id: SessionId)
    requires id in sessions
    ensures sessions[id := sessions[id]] == sessions
  {}

  lemma {:induction false} Overwrite(sessions: map<SessionId, Record>, id: SessionId, first: Record, second: Record)
    ensures sessions[id := first][id := second] == sessions[id := second]
  {}

  // ---------- the store ----------

  class MemoryStore {
    const identity: StoreIdentity
    var nextWrite: int
    var sessions: map<SessionId, Record>

    function Value(): State
      reads this
    {
      State(nextWrite, sessions)
    }

    constructor (identity: StoreIdentity)
      ensures this.identity == identity && Value() == EMPTY
    {
      this.identity := identity;
      nextWrite, sessions := 0, map[];
    }

    method CreateSession(config: NewSession, metadata: Option<ModelMetadata>, maxHistoryBytes: nat)
      returns (result: Result<(), SessionError>)
      modifies this
      ensures (Value(), Done(result)) ==
              Step(identity, old(Value()), Op.CreateSession(config, metadata, maxHistoryBytes))
    {
      if IsBlank(config.id) {
        return Err(InvalidData);
      }
      if config.id in sessions {
        return Err(AlreadyExists);
      }
      sessions := sessions[config.id := FreshRecord(config, metadata, maxHistoryBytes)];
      return Ok(());
    }

    /** Storing a record back unchanged changes nothing. */
    lemma {:induction false} KeepRecord(id: SessionId)
      ensures id in sessions ==> sessions[id := sessions[id]] == sessions
    {
      if id in sessions {
        SameRecord(sessions, id);
      }
    }

    /** Recovers an expired turn in place and returns the record. */
    method RecoverIn(id: SessionId, now: Instant) returns (r: Record)
      requires id in sessions
      modifies this
      ensures r == Recovered(old(sessions)[id], now)
      ensures sessions == old(sessions)[id := r] && nextWrite == old(nextWrite)
    {
      r := sessions[id];
      if r.turns != [] {
        var turn := r.turns[|r.turns| - 1];
        if turn.status == Running && turn.deadline <= now {
          turn := turn.(status := Interrupted, errorType := Some("interrupted"));
          r := r.(turns := r.turns[|r.turns| - 1 := turn], config := r.config.(continuation := None));
        }
      }
      sessions := sessions[id := r];
    }

    method LoadSession(id: SessionId, now: Instant) returns (result: Result<LoadedSession, SessionError>)
      modifies this
      ensures (Value(), Loaded(result)) == Step(identity, old(Value()), Op.LoadSession(id, now))
    {
      if id !in sessions {
        return Err(NotFound);
      }
      var r := RecoverIn(id, now);
      var history := ScanHistory(r.turns, r.config.maxHistoryBytes);
      return Ok(LoadedSession(r.config, history));
    }

    method SwitchModel(id: SessionId, generation: int, selection: Selection, now: Instant)
      returns (result: Result<int, SessionError>)
      modifies this
      ensures (Value(), Switched(result)) ==
              Step(identity, old(Value()), Op.SwitchModel(id, generation, selection, now))
    {
      if id !in sessions {
        return Err(NotFound);
      }
      var r := RecoverIn(id, now);
      if r.config.generation != generation {
        return Err(StaleModel);
      }
      if r.turns != [] && r.turns[|r.turns| - 1].status == Running {
        return Err(Busy);
      }
      var portable := ScanPortable(r.turns, selection.capabilities);
      if !portable {
        return Err(UnsupportedModelHistory);
      }
      if generation >= I64_MAX {
        return Err(InvalidData);
      }
      Overwrite(old(sessions), id, r, r.(config := Selected(r.config, selection)));
      sessions := sessions[id := r.(config := Selected(r.config, selection))];
      return Ok(generation + 1);
    }

    method Begin(handle: StoreIdentity, id: SessionId, submission: Submission, clock: Readings)
      returns (result: Result<Acquisition, SessionError>)
      modifies this
      ensures (Value(), Began(result)) == Step(identity, old(Value()), Op.Begin(handle, id, submission, clock))
    {
      KeepRecord(id);
      if handle != identity {
        return Err(InvalidData);
      }
      if id !in sessions {
        return Err(NotFound);
      }
      var r := RecoverIn(id, clock.recover);
      if submission.request.Some? {
        var request := submission.request.value;
        var known := ScanRequest(r, request.id);
        if known.Some? {
          return if known.value.request == request then Ok(Recorded(known.value)) else Err(HostTurnConflict);
        }
      }
      if r.config.generation != submission.generation {
        return Err(StaleModel);
      }
      if r.turns != [] && r.turns[|r.turns| - 1].status == Running {
        return Err(Busy);
      }
      var previous := ScanLatestOptions(r.turns);
      var continuation :=
        if previous.Some? && Compatible(previous.value, submission.options) then r.config.continuation else None;
      if r.nextTurn >= I64_MAX {
        return Err(InvalidData);
      }
      var owner := Owner(identity, id, r.nextTurn, Token(r.nextTurn));
      var deadline := clock.reserve + TURN_LEASE;
      var history := ScanHistory(r.turns, r.config.maxHistoryBytes);
      var turn := TurnRecord(owner, Recording(r.config), submission.options, submission.request, Running,
                             [UserMessage(submission.input)], None, None, deadline);
      var reserved := r.(turns := r.turns + [turn], nextTurn := r.nextTurn + 1,
                         config := r.config.(continuation := continuation));
      Overwrite(old(sessions), id, r, reserved);
      sessions := sessions[id := reserved];
      if clock.activate >= deadline {
        return Err(OwnershipLost);
      }
      return Ok(Granted(Acquired(owner, deadline, history, continuation)));
    }

    method LoadRequest(id: SessionId, hostId: string, now: Instant)
      returns (result: Result<Option<HostTurn>, SessionError>)
      modifies this
      ensures (Value(), Found(result)) == Step(identity, old(Value()), Op.LoadRequest(id, hostId, now))
    {
      if id !in sessions {
        return Err(NotFound);
      }
      var r := RecoverIn(id, now);
      var found := ScanRequest(r, hostId);
      return Ok(found);
    }

    /** The owner's live turn, if it still holds the session. */
    method LiveTurn(owner: Owner, now: Instant) returns (turn: Option<TurnRecord>)
      ensures turn.Some? <==>
                owner.store == identity && owner.session in sessions && Live(sessions[owner.session], owner, now)
      ensures turn.Some? ==> turn.value == Last(sessions[owner.session])
    {
      if owner.store != identity || owner.session !in sessions {
        return None;
      }
      var r := sessions[owner.session];
      if r.turns == [] {
        return None;
      }
      var last := r.turns[|r.turns| - 1];
      return if last.owner == owner && last.status == Running && last.deadline > now then Some(last) else None;
    }

    /** Writes back the newest turn of a session with a new continuation. */
    method Store(id: SessionId, turn: TurnRecord, continuation: Option<string>)
      requires id in sessions && sessions[id].turns != []
      modifies this
      ensures nextWrite == old(nextWrite)
      ensures sessions == old(sessions)[id := WithLast(old(sessions)[id], turn)
                                                .(config := old(sessions)[id].config.(continuation := continuation))]
    {
      var r := sessions[id];
      sessions := sessions[id := r.(turns := r.turns[|r.turns| - 1 := turn],
                                    config := r.config.(continuation := continuation))];
    }

    method CompleteTurn(owner: Owner, messages: Turn, continuation: Option<string>,
                        outcome: Option<Outcome>, now: Instant) returns (result: Result<(), SessionError>)
      modifies this
      ensures (Value(), Done(result)) ==
              Step(identity, old(Value()), Op.CompleteTurn(owner, messages, continuation, outcome, now))
    {
      var live := LiveTurn(owner, now);
      if live.None? {
        KeepRecord(owner.session);
        return Err(OwnershipLost);
      }
      var turn := live.value;
      if turn.request.Some? && outcome.None? {
        KeepRecord(owner.session);
        return Err(InvalidData);
      }
      turn := turn.(outcome := outcome, messages := turn.messages + messages, status := Completed);
      Store(owner.session, turn, continuation);
      return Ok(());
    }

    method RenewTurn(owner: Owner, now: Instant, renewal: Instant) returns (result: Result<Instant, SessionError>)
      modifies this
      ensures (Value(), Renewed(result)) == Step(identity, old(Value()), Op.RenewTurn(owner, now, renewal))
    {
      var live := LiveTurn(owner, now);
      if live.None? {
        KeepRecord(owner.session);
        return Err(OwnershipLost);
      }
      var turn := live.value.(deadline := renewal + TURN_LEASE);
      Store(owner.session, turn, sessions[owner.session].config.continuation);
      return Ok(turn.deadline);
    }

    method FailTurn(owner: Owner, errorType: string, now: Instant) returns (result: Result<(), SessionError>)
      modifies this
      ensures (Value(), Done(result)) == Step(identity, old(Value()), Op.FailTurn(owner, errorType, now))
    {
      var live := LiveTurn(owner, now);
      if live.None? {
        KeepRecord(owner.session);
        return Err(OwnershipLost);
      }
      Store(owner.session, live.value.(status := Failed, errorType := Some(errorType)), None);
      return Ok(());
    }

    method InterruptTurn(owner: Owner, reason: string) returns (result: Result<(), SessionError>)
      modifies this
      ensures (Value(), Done(result)) == Step(identity, old(Value()), Op.InterruptTurn(owner, reason))
    {
      KeepRecord(owner.session);
      if owner.store != identity {
        return Err(OwnershipLost);
      }
      if owner.session in sessions && sessions[owner.session].turns != [] {
        var turn := Last(sessions[owner.session]);
        if turn.owner == owner && turn.status == Running {
          Store(owner.session, turn.(status := Interrupted, errorType := Some(reason)), None);
        }
      }
      return Ok(());
    }

    method IntendWrite(owner: Owner, intent: Intent, now: Instant) returns (result: Result<int, SessionError>)
      modifies this
      ensures (Value(), Intended(result)) == Step(identity, old(Value()), Op.IntendWrite(owner, intent, now))
    {
      KeepRecord(owner.session);
      if owner.store != identity {
        return Err(OwnershipLost);
      }
      if nextWrite >= I64_MAX {
        return Err(InvalidData);
      }
      var live := LiveTurn(owner, now);
      if live.None? {
        KeepRecord(owner.session);
        return Err(OwnershipLost);
      }
      var id := nextWrite + 1;
      var r := sessions[owner.session];
      var write := WriteRecord(id, owner.position, intent.callId, intent.root, intent.path,
                               intent.expectedHash, intent.resultingHash, Pending);
      sessions := sessions[owner.session := r.(writes := r.writes + [write])];
      nextWrite := id;
      return Ok(id);
    }

    method SettleWrite(owner: Owner, writeId: int, applied: bool) returns (result: Result<(), SessionError>)
      modifies this
      ensures (Value(), Done(result)) == Step(identity, old(Value()), Op.SettleWrite(owner, writeId, applied))
    {
      KeepRecord(owner.session);
      if owner.store != identity || owner.session !in sessions {
        return Err(OwnershipLost);
      }
      var r := sessions[owner.session];
      var t := 0;
      while t < |r.turns| && r.turns[t].owner != owner
        invariant 0 <= t <= |r.turns|
        invariant forall j :: 0 <= j < t ==> r.turns[j].owner != owner
      {
        t := t + 1;
      }
      if t == |r.turns| {
        return Err(OwnershipLost);
      }
      var verdict := if applied then Applied else Rejected;
      var i := 0;
      while i < |r.writes| && !Settles(r.writes[i], writeId, owner.position, verdict)
        invariant 0 <= i <= |r.writes|
        invariant forall j :: 0 <= j < i ==> !Settles(r.writes[j], writeId, owner.position, verdict)
      {
        i := i + 1;
      }
      assert i == WriteIndex(r.writes, writeId, owner.position, verdict);
      if i == |r.writes| {
        return Err(OwnershipLost);
      }
      var write := r.writes[i].(status := verdict);
      sessions := sessions[owner.session := r.(writes := r.writes[i := write])];
      return Ok(());
    }
  }
}
