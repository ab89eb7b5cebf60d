/** What holds in every run of the store: the turn log, exactly-once requests, fencing, stale owners. */
module StoreRuns {
  import opened Prelude
  import opened BoundedHistory
  import opened SessionRecords
  import opened MemoryStore

  // ---------- invariants of one record ----------

  /** Positions are 0..n-1, each owned by its own token, and only the newest turn can be running. */
  ghost predicate TurnLog(store: StoreIdentity, id: SessionId, r: Record) {
    && r.nextTurn == |r.turns|
    && (forall i :: 0 <= i < |r.turns| ==> r.turns[i].owner == Owner(store, id, i, Token(i)))
    && (forall i :: 0 <= i < |r.turns| - 1 ==> r.turns[i].status != Running)
  }

  /** A completed host turn carries its outcome, and no two turns share a host identifier. */
  ghost predicate Requests(r: Record) {
    && (forall i :: 0 <= i < |r.turns| && r.turns[i].status == Completed && r.turns[i].request.Some? ==>
          r.turns[i].outcome.Some?)
    && (forall i, j :: 0 <= i < j < |r.turns| && r.turns[i].request.Some? && r.turns[j].request.Some? ==>
          r.turns[i].request.value.id != r.turns[j].request.value.id)
  }

  /** Generations never decrease, and one generation means one recorded model. */
  ghost predicate Generations(r: Record) {
    && (forall i :: 0 <= i < |r.turns| ==>
          && r.turns[i].model.generation <= r.config.generation
          && (r.turns[i].model.generation == r.config.generation ==> r.turns[i].model == Recording(r.config)))
    && (forall i, j :: 0 <= i < j < |r.turns| ==>
          && r.turns[i].model.generation <= r.turns[j].model.generation
          && (r.turns[i].model.generation == r.turns[j].model.generation ==> r.turns[i].model == r.turns[j].model))
    && (LastRunning(r) ==> Last(r).model == Recording(r.config))
  }

  /** Journal identifiers increase, and every entry names a turn of this session. */
  ghost predicate Journal(r: Record, nextWrite: int) {
    && (forall i :: 0 <= i < |r.writes| ==> r.writes[i].id <= nextWrite && 0 <= r.writes[i].position < |r.turns|)
    && (forall i, j :: 0 <= i < j < |r.writes| ==> r.writes[i].id < r.writes[j].id)
  }

  ghost predicate RecordInv(store: StoreIdentity, id: SessionId, nextWrite: int, r: Record) {
    TurnLog(store, id, r) && Requests(r) && Generations(r) && Journal(r, nextWrite)
  }

  // ---------- what later records keep of earlier ones ----------

  /** Identity, model, options and request are fixed; a terminal turn is fixed entirely. */
  ghost predicate KeepsTurn(before: TurnRecord, after: TurnRecord) {
    && after.owner == before.owner && after.model == before.model
    && after.options == before.options && after.request == before.request
    && (before.status != Running ==> after == before)
  }

  /** A pending entry may only receive a verdict; a verdict is final. */
  ghost predicate KeepsWrite(before: WriteRecord, after: WriteRecord) {
    && after == before.(status := after.status)
    && (before.status != Pending ==> after == before)
  }

  ghost predicate Extends(before: Record, after: Record) {
    && |before.turns| <= |after.turns|
    && (forall i :: 0 <= i < |before.turns| ==> KeepsTurn(before.turns[i], after.turns[i]))
    && |before.writes| <= |after.writes|
    && (forall i :: 0 <= i < |before.writes| ==> KeepsWrite(before.writes[i], after.writes[i]))
    && before.config.generation <= after.config.generation
    && before.config.maxHistoryBytes == after.config.maxHistoryBytes
  }

  lemma {:induction false} ExtendsTransitive(a: Record, b: Record, c: Record)
    requires Extends(a, b) && Extends(b, c)
    ensures Extends(a, c)
  {
    forall i | 0 <= i < |a.turns| ensures KeepsTurn(a.turns[i], c.turns[i]) {
      assert KeepsTurn(a.turns[i], b.turns[i]) && KeepsTurn(b.turns[i], c.turns[i]);
    }
    forall i | 0 <= i < |a.writes| ensures KeepsWrite(a.writes[i], c.writes[i]) {
      assert KeepsWrite(a.writes[i], b.writes[i]) && KeepsWrite(b.writes[i], c.writes[i]);
    }
  }

  lemma {:induction false} ExtendsReflexive(r: Record)
    ensures Extends(r, r)
  {}

  // ---------- each kind of change ----------

  /** Updating the running newest turn, and possibly the continuation, keeps the invariant. */
  lemma {:induction false} UpdateLast(store: StoreIdentity, id: SessionId, nextWrite: int, r: Record, turn: TurnRecord,
                   continuation: Option<string>)
    requires RecordInv(store, id, nextWrite, r) && LastRunning(r)
    requires turn.owner == Last(r).owner && turn.model == Last(r).model
    requires turn.options == Last(r).options && turn.request == Last(r).request
    requires turn.status == Completed && turn.request.Some? ==> turn.outcome.Some?
    ensures var next := WithLast(r, turn).(config := r.config.(continuation := continuation));
            RecordInv(store, id, nextWrite, next) && Extends(r, next)
  {
    var next := WithLast(r, turn).(config := r.config.(continuation := continuation));
    assert Recording(next.config) == Recording(r.config);
    forall i | 0 <= i < |r.turns| ensures KeepsTurn(r.turns[i], next.turns[i]) {}
  }

  lemma {:induction false} RecoveredKeeps(store: StoreIdentity, id: SessionId, nextWrite: int, r: Record, now: Instant)
    requires RecordInv(store, id, nextWrite, r)
    ensures RecordInv(store, id, nextWrite, Recovered(r, now)) && Extends(r, Recovered(r, now))
  {
    if Recovered(r, now) != r {
      UpdateLast(store, id, nextWrite, r, Last(r).(status := Interrupted, errorType := Some("interrupted")), None);
    }
  }

  lemma {:induction false} FirstRequest(turns: seq<TurnRecord>, hostId: string, i: nat)
    requires i < |turns| && HasRequest(turns[i], hostId)
    ensures RequestIndex(turns, hostId) <= i
  {}

  /** With the invariant, a known host identifier is always found. */
  lemma {:induction false} KnownRequestIsFound(r: Record, i: nat, hostId: string)
    requires Requests(r) && i < |r.turns| && HasRequest(r.turns[i], hostId)
    ensures RequestIndex(r.turns, hostId) == i
    ensures FindRequest(r, hostId).Some?
    ensures FindRequest(r, hostId).value.request == r.turns[i].request.value
    ensures FindRequest(r, hostId).value.status == HostStatusOf(r.turns[i]).value
  {
    FirstRequest(r.turns, hostId, i);
  }

  /** A request that is not refused as known is held by no turn. */
  lemma {:induction false} UnknownRequest(r: Record, s: Submission)
    requires Requests(r) && Refusal(r, s).None? && s.request.Some?
    ensures forall i :: 0 <= i < |r.turns| ==> !HasRequest(r.turns[i], s.request.value.id)
  {
    hide FindRequest, RequestIndex;
    forall i | 0 <= i < |r.turns| ensures !HasRequest(r.turns[i], s.request.value.id) {
      if HasRequest(r.turns[i], s.request.value.id) {
        KnownRequestIsFound(r, i, s.request.value.id);
      }
    }
  }

  /** One more running turn, under the current selection. */
  ghost predicate Appends(r: Record, next: Record, turn: TurnRecord) {
    && next.turns == r.turns + [turn] && next.nextTurn == r.nextTurn + 1 && next.writes == r.writes
    && Recording(next.config) == Recording(r.config) == turn.model
    && turn.status == Running && !LastRunning(r)
  }

  lemma {:induction false} AppendsLog(store: StoreIdentity, id: SessionId, nextWrite: int, r: Record, next: Record, turn: TurnRecord)
    requires Appends(r, next, turn) && TurnLog(store, id, r) && Journal(r, nextWrite)
    requires turn.owner == NewOwner(store, id, r)
    ensures TurnLog(store, id, next) && Journal(next, nextWrite)
  {}

  lemma {:induction false} AppendsRequests(r: Record, next: Record, turn: TurnRecord)
    requires Appends(r, next, turn) && Requests(r)
    requires turn.request.Some? ==>
               forall i :: 0 <= i < |r.turns| ==> !HasRequest(r.turns[i], turn.request.value.id)
    ensures Requests(next)
  {}

  lemma {:induction false} AppendsGenerations(r: Record, next: Record, turn: TurnRecord)
    requires Appends(r, next, turn) && Generations(r)
    ensures Generations(next)
  {}

  lemma {:induction false} ReservedKeeps(store: StoreIdentity, id: SessionId, nextWrite: int, r: Record, s: Submission, deadline: Instant)
    requires RecordInv(store, id, nextWrite, r) && Refusal(r, s).None?
    ensures var next := Reserved(r, NewOwner(store, id, r), s.input, s.options, s.request, deadline);
            RecordInv(store, id, nextWrite, next) && Extends(r, next)
  {
    hide FindRequest, UsableContinuation, TurnLog, Requests, Generations, Journal, NewOwner;
    var next := Reserved(r, NewOwner(store, id, r), s.input, s.options, s.request, deadline);
    var turn := next.turns[|r.turns|];
    assert Appends(r, next, turn);
    if s.request.Some? {
      UnknownRequest(r, s);
    }
    AppendsLog(store, id, nextWrite, r, next, turn);
    AppendsRequests(r, next, turn);
    AppendsGenerations(r, next, turn);
    assert Extends(r, next);
  }

  lemma {:induction false} SelectedGenerations(r: Record, selection: Selection)
    requires Generations(r) && !LastRunning(r)
    ensures Generations(r.(config := Selected(r.config, selection)))
  {}

  lemma {:induction false} SelectedKeeps(store: StoreIdentity, id: SessionId, nextWrite: int, r: Record, selection: Selection)
    requires RecordInv(store, id, nextWrite, r) && !LastRunning(r)
    ensures var next := r.(config := Selected(r.config, selection));
            RecordInv(store, id, nextWrite, next) && Extends(r, next)
  {
    var next := r.(config := Selected(r.config, selection));
    assert TurnLog(store, id, next) && Requests(next) && Journal(next, nextWrite) by {
      hide Generations, Extends;
    }
    hide TurnLog, Requests, Journal, Generations;
    SelectedGenerations(r, selection);
    assert Extends(r, next);
  }

  lemma {:induction false} IntentKeeps(store: StoreIdentity, id: SessionId, nextWrite: int, r: Record, owner: Owner,
                    intent: Intent, now: Instant)
    requires RecordInv(store, id, nextWrite, r) && Live(r, owner, now)
    ensures var next := WriteIntent(r, owner, nextWrite + 1, intent, now).0;
            RecordInv(store, id, nextWrite + 1, next) && Extends(r, next)
  {
    hide Requests, Generations;
    var next := WriteIntent(r, owner, nextWrite + 1, intent, now).0;
    SameTurns(store, id, r, next);
    assert 0 <= owner.position < |r.turns|;
    assert Journal(next, nextWrite + 1) && next.writes[..|r.writes|] == r.writes;
    hide TurnLog, Journal;
    assert Extends(r, next);
  }

  lemma {:induction false} VerdictKeeps(store: StoreIdentity, id: SessionId, nextWrite: int, r: Record, k: nat, verdict: WriteStatus)
    requires RecordInv(store, id, nextWrite, r) && k < |r.writes|
    requires r.writes[k].status == Pending || r.writes[k].status == verdict
    ensures Keeps(store, id, nextWrite, r, nextWrite, r.(writes := r.writes[k := r.writes[k].(status := verdict)]))
  {
    var next := r.(writes := r.writes[k := r.writes[k].(status := verdict)]);
    SameTurns(store, id, r, next);
    assert Journal(next, nextWrite);
    hide TurnLog, Requests, Generations, Journal;
    assert forall i :: 0 <= i < |r.writes| ==> KeepsWrite(r.writes[i], next.writes[i]);
  }

  /** The log invariants depend only on the turns and the configuration. */
  lemma {:induction false} SameTurns(store: StoreIdentity, id: SessionId, r: Record, next: Record)
    requires TurnLog(store, id, r) && Requests(r) && Generations(r)
    requires next.turns == r.turns && next.config == r.config && next.nextTurn == r.nextTurn
    ensures TurnLog(store, id, next) && Requests(next) && Generations(next)
  {}

  lemma {:induction false} SettleKeeps(store: StoreIdentity, id: SessionId, nextWrite: int, r: Record, owner: Owner,
                    writeId: int, applied: bool)
    requires RecordInv(store, id, nextWrite, r)
    ensures Keeps(store, id, nextWrite, r, nextWrite, FinishWrite(r, owner, writeId, applied).0)
  {
    var verdict := if applied then Applied else Rejected;
    var k := WriteIndex(r.writes, writeId, owner.position, verdict);
    hide WriteIndex;
    if k < |r.writes| {
      VerdictKeeps(store, id, nextWrite, r, k, verdict);
    }
  }

  /** The invariant holds after the change, and the change only extends the record. */
  ghost predicate Keeps(store: StoreIdentity, id: SessionId, nextWrite: int, r: Record, nextWrite': int, next: Record) {
    RecordInv(store, id, nextWrite', next) && Extends(r, next)
  }

  lemma {:induction false} CompleteKeeps(store: StoreIdentity, id: SessionId, nextWrite: int, r: Record, owner: Owner,
                      messages: Turn, continuation: Option<string>, outcome: Option<Outcome>, now: Instant)
    requires RecordInv(store, id, nextWrite, r)
    ensures Keeps(store, id, nextWrite, r, nextWrite, Complete(r, owner, messages, continuation, outcome, now).0)
  {
    hide TurnLog, Requests, Generations, Journal;
    ExtendsReflexive(r);
    hide Extends;
    if LastRunning(r) && (Last(r).request.None? || outcome.Some?) {
      var turn := Last(r).(outcome := outcome, messages := Last(r).messages + messages, status := Completed);
      UpdateLast(store, id, nextWrite, r, turn, continuation);
    }
  }

  lemma {:induction false} FailKeeps(store: StoreIdentity, id: SessionId, nextWrite: int, r: Record, owner: Owner,
                  errorType: string, now: Instant)
    requires RecordInv(store, id, nextWrite, r)
    ensures Keeps(store, id, nextWrite, r, nextWrite, Fail(r, owner, errorType, now).0)
  {
    if LastRunning(r) {
      UpdateLast(store, id, nextWrite, r, Last(r).(status := Failed, errorType := Some(errorType)), None);
    }
  }

  lemma {:induction false} RenewKeeps(store: StoreIdentity, id: SessionId, nextWrite: int, r: Record, owner: Owner,
                   now: Instant, renewal: Instant)
    requires RecordInv(store, id, nextWrite, r)
    ensures Keeps(store, id, nextWrite, r, nextWrite, Renew(r, owner, now, renewal).0)
  {
    if LastRunning(r) {
      UpdateLast(store, id, nextWrite, r, Last(r).(deadline := renewal + TURN_LEASE), r.config.continuation);
      assert r.config.(continuation := r.config.continuation) == r.config;
    }
  }

  lemma {:induction false} InterruptKeeps(store: StoreIdentity, id: SessionId, nextWrite: int, r: Record, owner: Owner, reason: string)
    requires RecordInv(store, id, nextWrite, r)
    ensures Keeps(store, id, nextWrite, r, nextWrite, Interrupt(r, owner, reason))
  {
    hide TurnLog, Requests, Generations, Journal;
    ExtendsReflexive(r);
    hide Extends;
    if LastRunning(r) {
      UpdateLast(store, id, nextWrite, r, Last(r).(status := Interrupted, errorType := Some(reason)), None);
    }
  }

  lemma {:induction false} SwitchKeeps(store: StoreIdentity, id: SessionId, nextWrite: int, r: Record, generation: int,
                    selection: Selection, now: Instant)
    requires RecordInv(store, id, nextWrite, r)
    ensures Keeps(store, id, nextWrite, r, nextWrite, Switch(r, generation, selection, now).0)
  {
    hide RecordInv, Extends, Recovered, HistoryPortable, CompletedTurns, Selected;
    RecoveredKeeps(store, id, nextWrite, r, now);
    var ready := Recovered(r, now);
    if !LastRunning(ready) {
      SelectedKeeps(store, id, nextWrite, ready, selection);
      ExtendsTransitive(r, ready, ready.(config := Selected(ready.config, selection)));
    }
  }

  lemma {:induction false} AcquireKeeps(store: StoreIdentity, id: SessionId, nextWrite: int, r: Record, s: Submission, clock: Readings)
    requires RecordInv(store, id, nextWrite, r)
    ensures Keeps(store, id, nextWrite, r, nextWrite, Acquire(store, id, r, s, clock).0)
  {
    hide RecordInv, Extends, Recovered, Refusal, Reserved, History, UsableContinuation, NewOwner;
    RecoveredKeeps(store, id, nextWrite, r, clock.recover);
    var ready := Recovered(r, clock.recover);
    if Refusal(ready, s).None? {
      var deadline := clock.reserve + TURN_LEASE;
      ReservedKeeps(store, id, nextWrite, ready, s, deadline);
      var next := Reserved(ready, NewOwner(store, id, ready), s.input, s.options, s.request, deadline);
      ExtendsTransitive(r, ready, next);
    }
  }

  lemma {:induction false} OwnerStepKeeps(store: StoreIdentity, id: SessionId, nextWrite: int, r: Record, op: Op)
    requires RecordInv(store, id, nextWrite, r)
    requires op.CompleteTurn? || op.FailTurn? || op.RenewTurn? || op.InterruptTurn? || op.SettleWrite?
    ensures Keeps(store, id, nextWrite, r, nextWrite, RecordStep(store, nextWrite, r, op).0)
  {
    hide RecordInv, Extends, Complete, Fail, Renew, Interrupt, FinishWrite, Acquire, Switch, WriteIntent, Recovered,
         FindRequest, History;
    ExtendsReflexive(r);
    match op
    case CompleteTurn(owner, messages, continuation, outcome, now) =>
      CompleteKeeps(store, id, nextWrite, r, owner, messages, continuation, outcome, now);
    case FailTurn(owner, errorType, now) => FailKeeps(store, id, nextWrite, r, owner, errorType, now);
    case RenewTurn(owner, now, renewal) => RenewKeeps(store, id, nextWrite, r, owner, now, renewal);
    case InterruptTurn(owner, reason) => InterruptKeeps(store, id, nextWrite, r, owner, reason);
    case SettleWrite(owner, writeId, applied) => SettleKeeps(store, id, nextWrite, r, owner, writeId, applied);
  }

  /** Every operation keeps the record invariant and only extends the record. */
  lemma {:induction false} RecordStepKeeps(store: StoreIdentity, id: SessionId, nextWrite: int, r: Record, op: Op)
    requires RecordInv(store, id, nextWrite, r) && Target(op) == id
    ensures var (next, reply) := RecordStep(store, nextWrite, r, op);
            Keeps(store, id, nextWrite, r, NextWrite(nextWrite, reply), next)
  {
    ExtendsReflexive(r);
    hide RecordInv, Extends, Acquire, Switch, Recovered, Complete, Fail, Renew, Interrupt, FinishWrite, FindRequest, History;
    match op
    case CreateSession(_, _, _) =>
    case LoadSession(_, now) => RecoveredKeeps(store, id, nextWrite, r, now);
    case LoadRequest(_, _, now) => RecoveredKeeps(store, id, nextWrite, r, now);
    case SwitchModel(_, generation, selection, now) =>
      SwitchKeeps(store, id, nextWrite, r, generation, selection, now);
    case Begin(_, _, submission, clock) => AcquireKeeps(store, id, nextWrite, r, submission, clock);
    case IntendWrite(owner, intent, now) =>
      if Live(r, owner, now) {
        IntentKeeps(store, id, nextWrite, r, owner, intent, now);
      }
    case _ => OwnerStepKeeps(store, id, nextWrite, r, op);
  }

  // ---------- runs ----------

  ghost predicate StateInv(store: StoreIdentity, s: State) {
    forall id :: id in s.sessions ==> RecordInv(store, id, s.nextWrite, s.sessions[id])
  }

  ghost predicate StateExtends(before: State, after: State) {
    && before.nextWrite <= after.nextWrite
    && forall id :: id in before.sessions ==> id in after.sessions && Extends(before.sessions[id], after.sessions[id])
  }

  lemma {:induction false} StepKeeps(store: StoreIdentity, s: State, op: Op)
    requires StateInv(store, s)
    ensures StateInv(store, Step(store, s, op).0) && StateExtends(s, Step(store, s, op).0)
  {
    var id, next := Target(op), Step(store, s, op).0;
    FreshKeeps(store, id, s.nextWrite, op);
    hide RecordInv, Extends, RecordStep, FreshRecord;
    forall k | k in s.sessions ensures Extends(s.sessions[k], s.sessions[k]) {
      ExtendsReflexive(s.sessions[k]);
    }
    if !op.CreateSession? && id in s.sessions {
      RecordStepKeeps(store, id, s.nextWrite, s.sessions[id], op);
    }
    forall k | k in next.sessions ensures RecordInv(store, k, next.nextWrite, next.sessions[k]) {
      if k in s.sessions && k != id {
        LaterWrites(store, k, s.nextWrite, next.nextWrite, s.sessions[k]);
      }
    }
  }

  lemma {:induction false} FreshKeeps(store: StoreIdentity, id: SessionId, nextWrite: int, op: Op)
    ensures op.CreateSession? ==>
              RecordInv(store, id, nextWrite, FreshRecord(op.config, op.metadata, op.maxHistoryBytes))
  {}

  lemma {:induction false} LaterWrites(store: StoreIdentity, id: SessionId, before: int, after: int, r: Record)
    requires RecordInv(store, id, before, r) && before <= after
    ensures RecordInv(store, id, after, r)
  {}

  /** The state after a whole sequence of operations, from the empty store. */
  function After(store: StoreIdentity, ops: seq<Op>): State
  {
    if ops == [] then EMPTY else Step(store, After(store, ops[..|ops| - 1]), ops[|ops| - 1]).0
  }

  lemma {:induction false} RunInv(store: StoreIdentity, ops: seq<Op>)
    ensures StateInv(store, After(store, ops))
  {
    if ops != [] {
      RunInv(store, ops[..|ops| - 1]);
      StepKeeps(store, After(store, ops[..|ops| - 1]), ops[|ops| - 1]);
    }
  }

  /** Between any two points of a run the store only grows: no terminal turn, verdict or request ever changes. */
  lemma {:induction false} RunExtends(store: StoreIdentity, ops: seq<Op>, i: nat, j: nat)
    requires i <= j <= |ops|
    ensures StateExtends(After(store, ops[..i]), After(store, ops[..j]))
    decreases j
  {
    hide Extends, Step, StateInv;
    if i < j {
      RunExtends(store, ops, i, j - 1);
      RunInv(store, ops[..j - 1]);
      assert ops[..j][..j - 1] == ops[..j - 1];
      var a, b := After(store, ops[..i]), After(store, ops[..j - 1]);
      StepKeeps(store, b, ops[j - 1]);
      var c := After(store, ops[..j]);
      forall id | id in a.sessions ensures id in c.sessions && Extends(a.sessions[id], c.sessions[id]) {
        ExtendsTransitive(a.sessions[id], b.sessions[id], c.sessions[id]);
      }
    } else {
      var s := After(store, ops[..i]);
      forall id | id in s.sessions ensures Extends(s.sessions[id], s.sessions[id]) {
        ExtendsReflexive(s.sessions[id]);
      }
    }
  }

  // ---------- theorems ----------

  /** The record an acquisition decides on. */
  function Ready(s: State, op: Op): Record
    requires op.Begin? && op.id in s.sessions
  {
    Recovered(s.sessions[op.id], op.clock.recover)
  }

  /** The acquisition commits a new reservation. */
  predicate Reserves(store: StoreIdentity, s: State, op: Op) {
    op.Begin? && op.handle == store && op.id in s.sessions && Refusal(Ready(s, op), op.submission).None?
  }

  lemma {:induction false} ReservingAppends(store: StoreIdentity, s: State, op: Op)
    requires Reserves(store, s, op)
    ensures op.id in Step(store, s, op).0.sessions
    ensures var before, after := Ready(s, op), Step(store, s, op).0.sessions[op.id];
            && |after.turns| == |before.turns| + 1
            && after.turns[|before.turns|].request == op.submission.request
            && after.turns[|before.turns|].model == Recording(before.config)
            && after.turns[|before.turns|].options == op.submission.options
  {}

  /**
   * Exactly-once requests: however operations interleave, a host identifier reserves at most one
   * turn of its session, whatever happened to that turn in between.
   */
  lemma {:induction false} ExactlyOnce(store: StoreIdentity, ops: seq<Op>, i: nat, j: nat)
    requires i < j < |ops| && ops[i].Begin? && ops[j].Begin? && ops[i].id == ops[j].id
    requires ops[i].submission.request.Some? && ops[j].submission.request.Some?
    requires ops[i].submission.request.value.id == ops[j].submission.request.value.id
    requires Reserves(store, After(store, ops[..i]), ops[i])
    ensures !Reserves(store, After(store, ops[..j]), ops[j])
  {
    hide After, FindRequest, Recovered, IsRecordOf;
    var position := ReservedIsFound(store, ops, i, j, ops[j].clock.recover);
  }

  /** The reply grants a turn. */
  predicate Grants(reply: Reply) {
    reply.Began? && reply.began.Ok? && reply.began.value.Granted?
  }

  lemma {:induction false} GrantReserves(store: StoreIdentity, s: State, op: Op)
    requires op.Begin? && Grants(Step(store, s, op).1)
    ensures Reserves(store, s, op)
  {
    hide Recovered, Reserved, History, UsableContinuation, FindRequest;
  }

  /** No two acquisitions of a run are granted for one host identifier of a session. */
  lemma {:induction false} GrantedAtMostOnce(store: StoreIdentity, ops: seq<Op>, i: nat, j: nat)
    requires i < |ops| && j < |ops| && ops[i].Begin? && ops[j].Begin? && ops[i].id == ops[j].id
    requires ops[i].submission.request.Some? && ops[j].submission.request.Some?
    requires ops[i].submission.request.value.id == ops[j].submission.request.value.id
    requires Grants(Step(store, After(store, ops[..i]), ops[i]).1)
    requires Grants(Step(store, After(store, ops[..j]), ops[j]).1)
    ensures i == j
  {
    hide After, Step, Reserves;
    GrantReserves(store, After(store, ops[..i]), ops[i]);
    GrantReserves(store, After(store, ops[..j]), ops[j]);
    if i < j {
      ExactlyOnce(store, ops, i, j);
    } else if j < i {
      ExactlyOnce(store, ops, j, i);
    }
  }

  /** A reserved request stays recorded at its position. */
  lemma {:induction false} RequestPersists(store: StoreIdentity, ops: seq<Op>, i: nat, j: nat) returns (position: nat)
    requires i < j <= |ops| && Reserves(store, After(store, ops[..i]), ops[i])
    ensures ops[i].id in After(store, ops[..j]).sessions
    ensures position < |After(store, ops[..j]).sessions[ops[i].id].turns|
    ensures After(store, ops[..j]).sessions[ops[i].id].turns[position].request == ops[i].submission.request
    ensures position == |Ready(After(store, ops[..i]), ops[i]).turns|
  {
    hide Step, Recovered;
    var s := After(store, ops[..i]);
    ReservingAppends(store, s, ops[i]);
    assert ops[..i + 1][..i] == ops[..i];
    RunExtends(store, ops, i + 1, j);
    position := |Ready(s, ops[i]).turns|;
    var a, b := After(store, ops[..i + 1]).sessions[ops[i].id], After(store, ops[..j]).sessions[ops[i].id];
    assert KeepsTurn(a.turns[position], b.turns[position]);
  }

  /** What a lookup of a host identifier finds. */
  function Lookup(s: State, id: SessionId, hostId: string, now: Instant): Option<HostTurn>
    requires id in s.sessions
  {
    FindRequest(Recovered(s.sessions[id], now), hostId)
  }

  lemma {:induction false} LookupIsReply(store: StoreIdentity, s: State, id: SessionId, hostId: string, now: Instant)
    requires id in s.sessions
    ensures Step(store, s, LoadRequest(id, hostId, now)).1 == Found(Ok(Lookup(s, id, hostId, now)))
  {
    hide FindRequest, Recovered;
  }

  /** A submission under a recorded identifier gets that record, or a conflict, and never a turn. */
  lemma {:induction false} KnownSubmissionReply(store: StoreIdentity, s: State, op: Op)
    requires op.Begin? && op.handle == store && op.id in s.sessions && op.submission.request.Some?
    requires Lookup(s, op.id, op.submission.request.value.id, op.clock.recover).Some?
    ensures var known := Lookup(s, op.id, op.submission.request.value.id, op.clock.recover).value;
            Step(store, s, op).1 ==
            Began(if known.request == op.submission.request.value then Ok(Recorded(known)) else Err(HostTurnConflict))
  {
    hide FindRequest, Recovered, Reserved, History, UsableContinuation, NewOwner;
  }

  /** The record is the one of the turn at this position, as it stands. */
  ghost predicate IsRecordOf(record: HostTurn, r: Record, position: nat) {
    && position < |r.turns|
    && record.position == position
    && record.model == r.turns[position].model
    && Some(record.request) == r.turns[position].request
    && Some(record.status) == HostStatusOf(r.turns[position])
    && record.writes == WritesOf(r.writes, position)
  }

  lemma {:induction false} FoundIsRecordOf(store: StoreIdentity, id: SessionId, r: Record, position: nat, hostId: string)
    requires TurnLog(store, id, r) && Requests(r) && position < |r.turns| && HasRequest(r.turns[position], hostId)
    ensures FindRequest(r, hostId).Some? && IsRecordOf(FindRequest(r, hostId).value, r, position)
  {
    hide WritesOf, RequestIndex;
    KnownRequestIsFound(r, position, hostId);
  }

  /** A reserved request is found, at its position, by every later lookup. */
  lemma {:induction false} ReservedIsFound(store: StoreIdentity, ops: seq<Op>, i: nat, j: nat, now: Instant) returns (position: nat)
    requires i < j <= |ops| && Reserves(store, After(store, ops[..i]), ops[i])
    requires ops[i].Begin? && ops[i].submission.request.Some?
    ensures position == |Ready(After(store, ops[..i]), ops[i]).turns|
    ensures ops[i].id in After(store, ops[..j]).sessions
    ensures var found := Lookup(After(store, ops[..j]), ops[i].id, ops[i].submission.request.value.id, now);
            && found.Some? && found.value.request == ops[i].submission.request.value
            && IsRecordOf(found.value, Recovered(After(store, ops[..j]).sessions[ops[i].id], now), position)
  {
    hide After, Reserves, Ready, FindRequest, Recovered, IsRecordOf, Extends;
    position := RequestPersists(store, ops, i, j);
    RunInv(store, ops[..j]);
    var s, id, request := After(store, ops[..j]), ops[i].id, ops[i].submission.request.value;
    assert RecordInv(store, id, s.nextWrite, s.sessions[id]);
    RecoveredKeeps(store, id, s.nextWrite, s.sessions[id], now);
    RecoveredRequest(s.sessions[id], now, position);
    FoundIsRecordOf(store, id, Recovered(s.sessions[id], now), position, request.id);
    RecordRequest(Recovered(s.sessions[id], now), position, request);
  }

  lemma {:induction false} RecoveredRequest(r: Record, now: Instant, position: nat)
    requires position < |r.turns|
    ensures |Recovered(r, now).turns| == |r.turns| && Recovered(r, now).turns[position].request == r.turns[position].request
  {
  }

  lemma {:induction false} RecordRequest(r: Record, position: nat, request: HostRequest)
    requires position < |r.turns| && r.turns[position].request == Some(request)
    ensures forall record :: IsRecordOf(record, r, position) ==> record.request == request
  {
  }

  /**
   * Reusing a reserved identifier: the same request gets the record of exactly the turn it reserved, with that
   * turn's status, model and writes; any other fingerprint is refused as a conflict.
   */
  lemma {:induction false} ReuseConflicts(store: StoreIdentity, ops: seq<Op>, i: nat, j: nat)
    requires i < j < |ops| && ops[i].Begin? && ops[j].Begin? && ops[i].id == ops[j].id && ops[j].handle == store
    requires ops[i].submission.request.Some? && ops[j].submission.request.Some?
    requires ops[i].submission.request.value.id == ops[j].submission.request.value.id
    requires Reserves(store, After(store, ops[..i]), ops[i])
    ensures ops[j].id in After(store, ops[..j]).sessions
    ensures var reply := Step(store, After(store, ops[..j]), ops[j]).1;
            if ops[i].submission.request == ops[j].submission.request then
              && reply.Began? && reply.began.Ok? && reply.began.value.Recorded?
              && IsRecordOf(reply.began.value.record, Ready(After(store, ops[..j]), ops[j]),
                            |Ready(After(store, ops[..i]), ops[i]).turns|)
            else reply == Began(Err(HostTurnConflict))
  {
    hide After, Step, Reserves, FindRequest, Recovered, IsRecordOf;
    var position := ReservedIsFound(store, ops, i, j, ops[j].clock.recover);
    KnownSubmissionReply(store, After(store, ops[..j]), ops[j]);
  }

  ghost predicate SameOutcome(before: Option<HostTurn>, after: Option<HostTurn>) {
    && before.Some? && after.Some?
    && after.value.status == before.value.status
    && after.value.model == before.value.model
    && after.value.request == before.value.request
    && after.value.position == before.value.position
  }

  /** Once a request is seen completed, every later lookup answers with the same outcome and model. */
  lemma {:induction false} OutcomeIsFinal(store: StoreIdentity, ops: seq<Op>, id: SessionId, hostId: string, i: nat, j: nat, now: Instant)
    requires i <= j <= |ops| && id in After(store, ops[..i]).sessions
    requires var h := FindRequest(After(store, ops[..i]).sessions[id], hostId);
             h.Some? && h.value.status.HostCompleted?
    ensures id in After(store, ops[..j]).sessions
    ensures SameOutcome(FindRequest(After(store, ops[..i]).sessions[id], hostId),
                        Lookup(After(store, ops[..j]), id, hostId, now))
    ensures Step(store, After(store, ops[..j]), LoadRequest(id, hostId, now)).1 ==
            Found(Ok(Lookup(After(store, ops[..j]), id, hostId, now)))
  {
    hide After, Extends, FindRequest, Recovered, Step, SameOutcome;
    RunExtends(store, ops, i, j);
    RunInv(store, ops[..j]);
    var a, s := After(store, ops[..i]).sessions[id], After(store, ops[..j]);
    var b := Recovered(s.sessions[id], now);
    RecoveredKeeps(store, id, s.nextWrite, s.sessions[id], now);
    ExtendsTransitive(a, s.sessions[id], b);
    OutcomeKept(a, b, hostId);
    LookupIsReply(store, s, id, hostId, now);
  }

  lemma {:induction false} OutcomeKept(a: Record, b: Record, hostId: string)
    requires Extends(a, b) && Requests(b)
    requires FindRequest(a, hostId).Some? && FindRequest(a, hostId).value.status.HostCompleted?
    ensures SameOutcome(FindRequest(a, hostId), FindRequest(b, hostId))
  {
    var k := RequestIndex(a.turns, hostId);
    assert KeepsTurn(a.turns[k], b.turns[k]);
    KnownRequestIsFound(b, k, hostId);
  }

  /** Once a request is seen completed, every later retry of it answers with the same outcome and model. */
  lemma {:induction false} RetryReturnsOutcome(store: StoreIdentity, ops: seq<Op>, i: nat, j: nat)
    requires i <= j < |ops| && ops[j].Begin? && ops[j].handle == store && ops[j].submission.request.Some?
    requires ops[j].id in After(store, ops[..i]).sessions
    requires var h := FindRequest(After(store, ops[..i]).sessions[ops[j].id], ops[j].submission.request.value.id);
             h.Some? && h.value.status.HostCompleted? && h.value.request == ops[j].submission.request.value
    ensures var h := FindRequest(After(store, ops[..i]).sessions[ops[j].id], ops[j].submission.request.value.id);
            var reply := Step(store, After(store, ops[..j]), ops[j]).1;
            && reply.Began? && reply.began.Ok? && reply.began.value.Recorded?
            && SameOutcome(h, Some(reply.began.value.record))
  {
    hide After, Step, FindRequest, Recovered;
    OutcomeIsFinal(store, ops, ops[j].id, ops[j].submission.request.value.id, i, j, ops[j].clock.recover);
    KnownSubmissionReply(store, After(store, ops[..j]), ops[j]);
  }

  lemma {:induction false} SwitchRaisesGeneration(store: StoreIdentity, s: State, op: Op)
    requires op.SwitchModel? && Step(store, s, op).1 == Switched(Ok(op.generation + 1))
    ensures op.id in Step(store, s, op).0.sessions
    ensures Step(store, s, op).0.sessions[op.id].config.generation == op.generation + 1
  {
    hide Recovered, HistoryPortable, CompletedTurns;
  }

  /** A switch fences every handle that predates it, including after switching back. */
  lemma {:induction false} StaleHandleNeverReserves(store: StoreIdentity, ops: seq<Op>, i: nat, j: nat)
    requires i < j < |ops| && ops[i].SwitchModel? && ops[j].Begin? && ops[i].id == ops[j].id
    requires Step(store, After(store, ops[..i]), ops[i]).1 == Switched(Ok(ops[i].generation + 1))
    requires ops[j].submission.generation <= ops[i].generation
    ensures !Reserves(store, After(store, ops[..j]), ops[j])
  {
    hide FindRequest, HistoryPortable, CompletedTurns, RecordStep;
    SwitchRaisesGeneration(store, After(store, ops[..i]), ops[i]);
    hide Step;
    assert ops[..i + 1][..i] == ops[..i];
    RunExtends(store, ops, i + 1, j);
    var a, b := After(store, ops[..i + 1]).sessions[ops[i].id], After(store, ops[..j]).sessions[ops[i].id];
    assert a.config.generation == ops[i].generation + 1 <= b.config.generation;
  }

  /** The owner's turn has ended, or a later turn exists. */
  predicate Superseded(r: Record, owner: Owner) {
    && 0 <= owner.position < |r.turns|
    && r.turns[owner.position].owner == owner
    && (r.turns[owner.position].status != Running || owner.position < |r.turns| - 1)
  }

  /** Once superseded, an owner can neither mutate the session nor be reinstated. */
  lemma {:induction false} SupersededForever(store: StoreIdentity, ops: seq<Op>, owner: Owner, i: nat, j: nat, op: Op)
    requires i <= j <= |ops| && owner.session in After(store, ops[..i]).sessions
    requires Superseded(After(store, ops[..i]).sessions[owner.session], owner)
    requires op.CompleteTurn? || op.FailTurn? || op.RenewTurn? || op.InterruptTurn? || op.IntendWrite?
    requires op.owner == owner
    ensures Step(store, After(store, ops[..j]), op).0 == After(store, ops[..j])
  {
    RunExtends(store, ops, i, j);
    RunInv(store, ops[..j]);
    var a, s := After(store, ops[..i]).sessions[owner.session], After(store, ops[..j]);
    var r := s.sessions[owner.session];
    assert KeepsTurn(a.turns[owner.position], r.turns[owner.position]);
    assert Superseded(r, owner);
    assert RecordInv(store, owner.session, s.nextWrite, r);
    SupersededIsPowerless(store, owner.session, s.nextWrite, r, op);
    SameRecord(s.sessions, owner.session);
  }

  lemma {:induction false} SupersededIsPowerless(store: StoreIdentity, id: SessionId, nextWrite: int, r: Record, op: Op)
    requires TurnLog(store, id, r)
    requires op.CompleteTurn? || op.FailTurn? || op.RenewTurn? || op.InterruptTurn? || op.IntendWrite?
    requires Superseded(r, op.owner)
    ensures RecordStep(store, nextWrite, r, op).0 == r
    ensures NextWrite(nextWrite, RecordStep(store, nextWrite, r, op).1) == nextWrite
  {
    assert LastRunning(r) ==> Last(r).owner != op.owner;
  }

  /** The one late step an owner keeps: settling its own pending write, once, and nothing else. */
  lemma {:induction false} LateSettlement(store: StoreIdentity, id: SessionId, nextWrite: int, r: Record, owner: Owner,
                       writeId: int, applied: bool)
    requires RecordInv(store, id, nextWrite, r)
    ensures var (next, result) := FinishWrite(r, owner, writeId, applied);
            var verdict := if applied then Applied else Rejected;
            && next.turns == r.turns && next.config == r.config && next.nextTurn == r.nextTurn
            && |next.writes| == |r.writes|
            && (result.Ok? <==>
                  OwnsTurn(r.turns, owner) &&
                  exists i :: 0 <= i < |r.writes| && Settles(r.writes[i], writeId, owner.position, verdict))
            && (result.Err? ==> next == r)
            && forall i :: 0 <= i < |r.writes| ==>
                 next.writes[i] ==
                 if result.Ok? && r.writes[i].id == writeId then r.writes[i].(status := verdict) else r.writes[i]
  {
    var verdict := if applied then Applied else Rejected;
    var k := WriteIndex(r.writes, writeId, owner.position, verdict);
    if k < |r.writes| {
      forall i | 0 <= i < |r.writes| && i != k ensures r.writes[i].id != writeId {
        if i < k {
          assert r.writes[i].id < r.writes[k].id;
        } else {
          assert r.writes[k].id < r.writes[i].id;
        }
      }
    }
  }
}
