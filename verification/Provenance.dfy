/** Where a provider continuation handed to a turn came from, over every run of the store. */
module Provenance {
  import opened Prelude
  import opened SessionRecords
  import opened MemoryStore
  import opened StoreRuns

  /** The continuation each completion wrote, by turn position. */
  type Writings = map<int, Option<string>>

  function Note(writings: Writings, op: Op, reply: Reply): Writings {
    if op.CompleteTurn? && reply == Done(Ok(())) then writings[op.owner.position := op.continuation] else writings
  }

  /** Everything that completions of one session wrote during a run, read off the operations alone. */
  function Written(store: StoreIdentity, ops: seq<Op>, id: SessionId): Writings
  {
    if ops == [] then map[]
    else
      var before, op := ops[..|ops| - 1], ops[|ops| - 1];
      if Target(op) != id then Written(store, before, id)
      else Note(Written(store, before, id), op, Step(store, After(store, before), op).1)
  }

  /** What the turn at `p`, if it completed under the current selection, left for a turn with these options. */
  function Left(r: Record, w: Writings, p: int): Option<string> {
    if 0 <= p < |r.turns| && r.turns[p].status == Completed
       && r.turns[p].model.generation == r.config.generation && p in w
    then w[p] else None
  }

  /** The stored continuation is exactly what the newest completion left, or nothing. */
  ghost predicate Traced(r: Record, w: Writings) {
    var n := |r.turns|;
    && (forall p :: p in w <==> 0 <= p < n && r.turns[p].status == Completed)
    && r.config.continuation ==
       if LastRunning(r) then
         (if n >= 2 && Compatible(r.turns[n - 2].options, r.turns[n - 1].options) then Left(r, w, n - 2) else None)
       else Left(r, w, n - 1)
  }

  lemma {:induction false} RecoveredTraced(r: Record, w: Writings, now: Instant)
    requires Traced(r, w)
    ensures Traced(Recovered(r, now), w)
  {}

  /** What the immediately preceding turn left, if it completed under the same selection and compatibly. */
  function Inherited(r: Record, w: Writings, options: TurnOptions): Option<string> {
    var p := |r.turns| - 1;
    if p >= 0 && r.turns[p].status == Completed && r.turns[p].model == Recording(r.config)
       && Compatible(r.turns[p].options, options) && p in w
    then w[p] else None
  }

  lemma {:induction false} UsableIsInherited(store: StoreIdentity, id: SessionId, nextWrite: int, r: Record, w: Writings,
                          options: TurnOptions)
    requires RecordInv(store, id, nextWrite, r) && Traced(r, w) && !LastRunning(r)
    ensures UsableContinuation(r, options) == Inherited(r, w, options)
    ensures r.turns != [] && Last(r).model.generation == r.config.generation ==> Last(r).model == Recording(r.config)
  {
    if r.turns != [] {
      assert Last(r).model.generation == r.config.generation ==> Last(r).model == Recording(r.config);
    }
  }

  lemma {:induction false} AcquireTraced(store: StoreIdentity, id: SessionId, nextWrite: int, r: Record, w: Writings,
                      s: Submission, clock: Readings)
    requires RecordInv(store, id, nextWrite, r) && Traced(r, w)
    ensures Traced(Acquire(store, id, r, s, clock).0, w)
  {
    hide RecordInv, Traced, Recovered, Reserved, History, FindRequest, UsableContinuation, Inherited, NewOwner;
    RecoveredTraced(r, w, clock.recover);
    RecoveredKeeps(store, id, nextWrite, r, clock.recover);
    var ready := Recovered(r, clock.recover);
    if Refusal(ready, s).None? {
      UsableIsInherited(store, id, nextWrite, ready, w, s.options);
      ReservedTraced(ready, w, NewOwner(store, id, ready), s, clock.reserve + TURN_LEASE);
    }
  }

  lemma {:induction false} ReservedTraced(r: Record, w: Writings, owner: Owner, s: Submission, deadline: Instant)
    requires Traced(r, w) && !LastRunning(r)
    requires UsableContinuation(r, s.options) == Inherited(r, w, s.options)
    requires r.turns != [] && Last(r).model.generation == r.config.generation ==> Last(r).model == Recording(r.config)
    ensures Traced(Reserved(r, owner, s.input, s.options, s.request, deadline), w)
  {
    hide UsableContinuation;
    var n := |r.turns|;
    var next := Reserved(r, owner, s.input, s.options, s.request, deadline);
    assert n > 0 ==> Left(next, w, n - 1) == Left(r, w, n - 1);
    assert forall p :: 0 <= p < n ==> next.turns[p] == r.turns[p];
    assert next.turns[n].options == s.options;
  }

  lemma {:induction false} SwitchTraced(store: StoreIdentity, id: SessionId, nextWrite: int, r: Record, w: Writings,
                     generation: int, selection: Selection, now: Instant)
    requires RecordInv(store, id, nextWrite, r) && Traced(r, w)
    ensures Traced(Switch(r, generation, selection, now).0, w)
  {
    hide RecordInv, Traced, Recovered, Selected, HistoryPortable, CompletedTurns;
    RecoveredTraced(r, w, now);
    RecoveredKeeps(store, id, nextWrite, r, now);
    var ready := Recovered(r, now);
    if !LastRunning(ready) {
      SelectedTraced(store, id, nextWrite, ready, w, selection);
    }
  }

  lemma {:induction false} SelectedTraced(store: StoreIdentity, id: SessionId, nextWrite: int, r: Record, w: Writings, selection: Selection)
    requires RecordInv(store, id, nextWrite, r) && Traced(r, w) && !LastRunning(r)
    ensures Traced(r.(config := Selected(r.config, selection)), w)
  {}

  /** A completion writes at the newest position, under the current selection. */
  lemma {:induction false} CompletedTraced(r: Record, w: Writings, turn: TurnRecord, continuation: Option<string>)
    requires Traced(r, w) && LastRunning(r) && Last(r).model.generation == r.config.generation
    requires turn.status == Completed && turn.model == Last(r).model
    ensures Traced(WithLast(r, turn).(config := r.config.(continuation := continuation)),
                   w[|r.turns| - 1 := continuation])
  {}

  lemma {:induction false} LiveIsNewest(store: StoreIdentity, id: SessionId, nextWrite: int, r: Record, owner: Owner, now: Instant)
    requires RecordInv(store, id, nextWrite, r) && Live(r, owner, now)
    ensures owner.position == |r.turns| - 1 && Last(r).model.generation == r.config.generation
  {}

  lemma {:induction false} CompleteTraced(store: StoreIdentity, id: SessionId, nextWrite: int, r: Record, w: Writings, op: Op)
    requires RecordInv(store, id, nextWrite, r) && Traced(r, w) && op.CompleteTurn?
    ensures var (next, reply) := RecordStep(store, nextWrite, r, op); Traced(next, Note(w, op, reply))
  {
    hide RecordInv, Traced, WithLast;
    if RecordStep(store, nextWrite, r, op).1 == Done(Ok(())) {
      LiveIsNewest(store, id, nextWrite, r, op.owner, op.now);
      var turn := Last(r).(outcome := op.outcome, messages := Last(r).messages + op.messages, status := Completed);
      CompletedTraced(r, w, turn, op.continuation);
    }
  }

  /** Ending the running turn without completing it drops the continuation. */
  lemma {:induction false} EndedTraced(r: Record, w: Writings, status: Status, errorType: string)
    requires Traced(r, w) && LastRunning(r) && (status == Failed || status == Interrupted)
    ensures Traced(WithLast(r, Last(r).(status := status, errorType := Some(errorType)))
                     .(config := r.config.(continuation := None)), w)
  {}

  lemma {:induction false} RenewTraced(r: Record, w: Writings, owner: Owner, now: Instant, renewal: Instant)
    requires Traced(r, w)
    ensures Traced(Renew(r, owner, now, renewal).0, w)
  {}

  lemma {:induction false} WritesTraced(r: Record, w: Writings, writes: seq<WriteRecord>)
    requires Traced(r, w)
    ensures Traced(r.(writes := writes), w)
  {}

  lemma {:induction false} OtherOwnerTraced(store: StoreIdentity, nextWrite: int, r: Record, w: Writings, op: Op)
    requires Traced(r, w)
    requires op.FailTurn? || op.RenewTurn? || op.InterruptTurn? || op.IntendWrite? || op.SettleWrite?
    ensures Traced(RecordStep(store, nextWrite, r, op).0, w)
  {
    hide Traced, Renew, WriteIndex, OwnsTurn, Acquire, Switch, Recovered, Complete, FindRequest, History, WithLast;
    var next := RecordStep(store, nextWrite, r, op).0;
    match op
    case FailTurn(_, errorType, _) =>
      if LastRunning(r) {
        EndedTraced(r, w, Failed, errorType);
      }
    case RenewTurn(owner, now, renewal) => RenewTraced(r, w, owner, now, renewal);
    case InterruptTurn(_, reason) =>
      if LastRunning(r) {
        EndedTraced(r, w, Interrupted, reason);
      }
    case _ => WritesTraced(r, w, next.writes);
  }

  lemma {:induction false} RecordStepTraced(store: StoreIdentity, id: SessionId, nextWrite: int, r: Record, w: Writings, op: Op)
    requires RecordInv(store, id, nextWrite, r) && Traced(r, w) && Target(op) == id
    ensures var (next, reply) := RecordStep(store, nextWrite, r, op); Traced(next, Note(w, op, reply))
  {
    hide RecordInv, Traced, Acquire, Switch, Recovered, FindRequest, History;
    match op
    case CreateSession(_, _, _) =>
    case LoadSession(_, now) => RecoveredTraced(r, w, now);
    case LoadRequest(_, _, now) => RecoveredTraced(r, w, now);
    case SwitchModel(_, generation, selection, now) =>
      SwitchTraced(store, id, nextWrite, r, w, generation, selection, now);
    case Begin(_, _, submission, clock) => AcquireTraced(store, id, nextWrite, r, w, submission, clock);
    case CompleteTurn(_, _, _, _, _) => CompleteTraced(store, id, nextWrite, r, w, op);
    case _ => OtherOwnerTraced(store, nextWrite, r, w, op);
  }

  ghost predicate AllTraced(store: StoreIdentity, ops: seq<Op>) {
    forall id :: id in After(store, ops).sessions ==> Traced(After(store, ops).sessions[id], Written(store, ops, id))
  }

  /** A session that does not exist yet has no completions. */
  lemma {:induction false} NothingWritten(store: StoreIdentity, ops: seq<Op>, id: SessionId)
    requires id !in After(store, ops).sessions
    ensures Written(store, ops, id) == map[]
  {
    if ops != [] {
      NothingWritten(store, ops[..|ops| - 1], id);
    }
  }

  lemma {:induction false} RunTraced(store: StoreIdentity, ops: seq<Op>)
    ensures AllTraced(store, ops)
  {
    if ops != [] {
      var before, op := ops[..|ops| - 1], ops[|ops| - 1];
      RunTraced(store, before);
      RunInv(store, before);
      var s := After(store, before);
      forall id | id in After(store, ops).sessions
        ensures Traced(After(store, ops).sessions[id], Written(store, ops, id))
      {
        StepTraced(store, before, op, id);
      }
    }
  }

  lemma {:induction false} FreshTraced(op: Op)
    ensures op.CreateSession? ==> Traced(FreshRecord(op.config, op.metadata, op.maxHistoryBytes), map[])
  {}

  lemma {:induction false} StepTraced(store: StoreIdentity, before: seq<Op>, op: Op, id: SessionId)
    requires AllTraced(store, before) && StateInv(store, After(store, before))
    requires id in Step(store, After(store, before), op).0.sessions
    ensures Traced(Step(store, After(store, before), op).0.sessions[id],
                   if Target(op) != id then Written(store, before, id)
                   else Note(Written(store, before, id), op, Step(store, After(store, before), op).1))
  {
    hide RecordInv, Traced, RecordStep, After, Written;
    var s := After(store, before);
    if id in s.sessions {
      assert Traced(s.sessions[id], Written(store, before, id)) && RecordInv(store, id, s.nextWrite, s.sessions[id]);
      if Target(op) == id {
        RecordStepTraced(store, id, s.nextWrite, s.sessions[id], Written(store, before, id), op);
      }
    } else {
      NothingWritten(store, before, id);
      FreshTraced(op);
    }
  }

  /** A reservation stores, and a grant hands out, the usable continuation. */
  lemma {:induction false} ReservingContinuation(store: StoreIdentity, s: State, op: Op)
    requires Reserves(store, s, op)
    ensures var (next, reply) := Step(store, s, op);
            var usable := UsableContinuation(Ready(s, op), op.submission.options);
            && op.id in next.sessions && next.sessions[op.id].config.continuation == usable
            && (Grants(reply) ==> reply.began.value.turn.continuation == usable)
  {
    hide Recovered, UsableContinuation, History, NewOwner, FindRequest;
  }

  /**
   * Continuation provenance, exactly: an acquisition keeps and hands out what the immediately preceding
   * turn wrote when it completed under the current model generation with compatible options, and nothing
   * in every other case.
   */
  lemma {:induction false} ContinuationProvenance(store: StoreIdentity, ops: seq<Op>, op: Op)
    requires Reserves(store, After(store, ops), op)
    ensures var (next, reply) := Step(store, After(store, ops), op);
            var inherited := Inherited(Ready(After(store, ops), op), Written(store, ops, op.id), op.submission.options);
            && op.id in next.sessions && next.sessions[op.id].config.continuation == inherited
            && (Grants(reply) ==> reply.began.value.turn.continuation == inherited)
  {
    hide RecordInv, Traced, UsableContinuation, Inherited, After, Written, Recovered, Step;
    RunTraced(store, ops);
    RunInv(store, ops);
    var s, w := After(store, ops), Written(store, ops, op.id);
    var r := s.sessions[op.id];
    assert Traced(r, w) && RecordInv(store, op.id, s.nextWrite, r);
    RecoveredTraced(r, w, op.clock.recover);
    RecoveredKeeps(store, op.id, s.nextWrite, r, op.clock.recover);
    ReservingIsIdle(store, s, op);
    UsableIsInherited(store, op.id, s.nextWrite, Ready(s, op), w, op.submission.options);
    ReservingContinuation(store, s, op);
  }

  lemma {:induction false} ReservingIsIdle(store: StoreIdentity, s: State, op: Op)
    requires Reserves(store, s, op)
    ensures !LastRunning(Ready(s, op))
  {
    hide Recovered, FindRequest;
  }
}
