/**
 * Retained ownership inside one process, as interleaved steps at lock granularity: admission through the weak
 * mutex table, spawned acquisition, armed guards, the abandoned-turn registry, owner cleanup and its settlement,
 * and filesystem-effect leases. Stored rows may also be interrupted by other processes at any moment.
 */
module Coordination {
  import opened Prelude
  import opened TurnControls

  type Key = nat
  type OpId = nat
  type MutexId = nat
  type LeaseId = nat
  type CallId = nat

  /** A turn, with or without a caller's control, or a model switch. */
  datatype Kind = TurnOp(controlled: bool) | SwitchOp

  /** Progress through the admission mutex. */
  datatype Stage = Unadmitted | Locking(mutex: MutexId) | Held(mutex: MutexId) | Refused

  /** The spawned backend task; `snapshot` are the abandoned owners its transaction recovers. */
  datatype Task = NoTask | Reserving | Committing(snapshot: set<OpId>, committed: bool) | Switching | Ended

  datatype Guard = NoGuard | Armed | Disarmed | Abandoned

  datatype Row = Absent | Running | Completed | Failed | Interrupted

  /**
   * One operation. `owned` and `lease` are the admission and settlement lease kept by its store decorator,
   * `registered` its abandoned-registry entry, `parked` an admission kept for an unresolved effect, and
   * `unresolved` whether any effect lease ended without acknowledgment.
   */
  datatype Op = Op(
    key: Key,
    kind: Kind,
    stage: Stage,
    worker: bool,
    task: Task,
    guard: Guard,
    row: Row,
    finalizing: bool,
    owned: bool,
    lease: bool,
    settlement: Settlement,
    registered: bool,
    effects: Effects,
    leases: map<LeaseId, Lease>,
    unresolved: bool,
    parked: bool)

  /** One owner-scoped interruption in flight. */
  datatype Call = Issued(op: OpId) | Refusing(op: OpId) | Answered(op: OpId) | Settled(op: OpId)

  datatype State = State(
    ops: map<OpId, Op>, mutexes: map<Key, MutexId>, nextMutex: MutexId, calls: map<CallId, Call>)

  const INITIAL: State := State(map[], map[], 0, map[])

  /** The lease held by the running turn itself. */
  const WORKER: LeaseId := 0

  /** Steps that touch one operation only. */
  datatype Action =
    | EndWorker
    | EndSwitch
    | ReserveFails
    | Commit
    | CommitFails
    | StartFinal
    | FinalCommit(completed: bool)
    | FinalAck
    | DropGuard
    | RowInterrupted
    | Retain(id: LeaseId)
    | Begin(id: LeaseId)
    | Acknowledge(id: LeaseId)
    | RecordOutcome(id: LeaseId)
    | ReportUnrecorded
    | Release(id: LeaseId)

  datatype Step =
    | Start(op: OpId, key: Key, kind: Kind)
    | FindMutex(op: OpId)
    | TryLock(op: OpId)
    | CreateGuard(op: OpId)
    | CommitAck(op: OpId)
    | Local(op: OpId, action: Action)
    | Interrupt(call: CallId, op: OpId)
    | Answer(call: CallId, ok: bool)
    | RecordFailure(call: CallId)
    | Settle(call: CallId)
    | Forget(call: CallId)

  /** The operation keeps the admission guard alive. */
  predicate Holds(o: Op) {
    o.owned || o.effects.admission || o.parked
  }

  /** The mutex the operation keeps a strong reference to, if any. */
  function Strong(o: Op): Option<MutexId> {
    match o.stage
    case Locking(m) => Some(m)
    case Held(m) => if Holds(o) then Some(m) else None
    case _ => None
  }

  predicate IsLive(s: State, m: MutexId) {
    exists id :: id in s.ops && Strong(s.ops[id]) == Some(m)
  }

  predicate IsLocked(s: State, m: MutexId) {
    exists id :: id in s.ops && s.ops[id].stage == Held(m) && Holds(s.ops[id])
  }

  /** Entries whose mutex nobody keeps are dropped. */
  function Pruned(s: State): map<Key, MutexId> {
    map k | k in s.mutexes && IsLive(s, s.mutexes[k]) :: s.mutexes[k]
  }

  function MutexFor(s: State, k: Key): MutexId {
    if k in Pruned(s) then Pruned(s)[k] else s.nextMutex
  }

  predicate Terminal(row: Row) {
    row.Completed? || row.Failed? || row.Interrupted?
  }

  function Fewer(n: nat): nat { if n > 0 then n - 1 else 0 }

  /** The decorator is gone, and its admission and settlement lease with it. */
  function WithoutStore(o: Op): Op {
    o.(settlement := if o.lease then o.settlement.(pending := Fewer(o.settlement.pending)) else o.settlement,
       owned := false,
       lease := false)
  }

  /** An acknowledged end of the turn also clears a recorded cleanup failure. */
  function SettledOp(o: Op): Op {
    WithoutStore(o.(settlement := o.settlement.(failure := false)))
  }

  /** Dropping an armed guard keeps its owner until some cleanup is acknowledged. */
  function AbandonedOp(o: Op): Op {
    o.(guard := Abandoned, registered := true)
  }

  predicate ActionEnabled(o: Op, a: Action) {
    match a
    case EndWorker => o.kind.TurnOp? && o.worker && !o.stage.Locking? && !(o.guard == Armed && o.task.Ended?)
    case EndSwitch => o.task.Switching?
    case ReserveFails => o.task.Reserving?
    case Commit => o.task.Committing? && !o.task.committed
    case CommitFails => o.task.Committing?
    case StartFinal => o.guard == Armed && o.task.Ended? && o.worker
    case FinalCommit(_) => o.finalizing && o.row == Running
    case FinalAck => o.guard == Armed && o.finalizing && (o.row == Completed || o.row == Failed)
    case DropGuard => o.guard == Armed && o.task.Ended?
    case RowInterrupted => o.row == Running
    case Retain(id) => o.leases != map[] && id !in o.leases
    case Begin(id) => id in o.leases && id != WORKER && o.stage.Held?
    case Acknowledge(id) => id in o.leases
    case RecordOutcome(id) => id in o.leases
    case ReportUnrecorded => o.leases != map[]
    case Release(id) => id in o.leases && (id == WORKER ==> !o.worker) && o.effects.pending > 0
  }

  function Act(o: Op, a: Action): Op
    requires ActionEnabled(o, a)
  {
    match a
    case EndWorker =>
      o.(worker := false,
         settlement := if o.kind.controlled
                       then o.settlement.(pending := Fewer(o.settlement.pending)) else o.settlement)
    case EndSwitch => o.(task := Ended, owned := false)
    case ReserveFails => WithoutStore(o.(task := Ended))
    case Commit => o.(task := o.task.(committed := true), row := Running)
    case CommitFails => AbandonedOp(o.(task := Ended))
    case StartFinal => o.(finalizing := true)
    case FinalCommit(completed) => o.(row := if completed then Completed else Failed)
    case FinalAck => SettledOp(o).(guard := Disarmed, finalizing := false)
    case DropGuard => AbandonedOp(o)
    case RowInterrupted => o.(row := Interrupted)
    case Retain(id) => o.(leases := o.leases[id := IDLE], effects := Retained(o.effects))
    case Begin(id) => o.(leases := o.leases[id := Starting(o.leases[id])])
    case Acknowledge(id) => o.(leases := o.leases[id := Acknowledged(o.leases[id])])
    case RecordOutcome(id) => o.(leases := o.leases[id := RecordedLease(o.leases[id])])
    case ReportUnrecorded => o.(effects := o.effects.(failure := Some(EffectFailure(false))))
    case Release(id) =>
      o.(leases := o.leases - {id},
         effects := Released(o.effects, o.leases[id]),
         parked := o.parked || Parks(o.effects, o.leases[id]),
         unresolved := o.unresolved || o.leases[id].unresolved)
  }

  function NewOp(key: Key, kind: Kind): Op {
    match kind
    case SwitchOp =>
      Op(key, kind, Unadmitted, true, NoTask, NoGuard, Absent, false, false, false, Settlement(0, false), false,
         NO_EFFECTS, map[], false, false)
    case TurnOp(controlled) =>
      Op(key, kind, Unadmitted, true, NoTask, NoGuard, Absent, false, false, false,
         Settlement(if controlled then 1 else 0, false), false,
         Retained(NO_EFFECTS), map[WORKER := IDLE], false, false)
  }

  /** A granted admission: a switch keeps it for its task, a turn for its decorator and its effects. */
  function Granted(o: Op, m: MutexId): Op {
    match o.kind
    case SwitchOp => o.(stage := Held(m), task := Switching, owned := true)
    case TurnOp(controlled) =>
      o.(stage := Held(m), task := Reserving, owned := true, lease := controlled,
         settlement := if controlled then o.settlement.(pending := o.settlement.pending + 1) else o.settlement,
         effects := Admitted(o.effects))
  }

  function RegisteredFor(s: State, k: Key): set<OpId> {
    set id | id in s.ops && s.ops[id].registered && s.ops[id].key == k
  }

  function With(s: State, id: OpId, o: Op): State {
    s.(ops := s.ops[id := o])
  }

  /** The registry entries of recovered owners disappear with the successor's acknowledged commit. */
  function Unregistered(ops: map<OpId, Op>, gone: set<OpId>): map<OpId, Op> {
    map id | id in ops :: if id in gone then ops[id].(registered := false) else ops[id]
  }

  predicate HasCall(s: State, c: CallId) {
    c in s.calls && s.calls[c].op in s.ops
  }

  predicate Enabled(s: State, step: Step) {
    match step
    case Start(id, _, _) => id !in s.ops
    case FindMutex(id) => id in s.ops && s.ops[id].stage.Unadmitted? && s.ops[id].worker
    case TryLock(id) => id in s.ops && s.ops[id].stage.Locking?
    case CreateGuard(id) => id in s.ops && s.ops[id].task.Reserving?
    case CommitAck(id) => id in s.ops && s.ops[id].task.Committing? && s.ops[id].task.committed
    case Local(id, a) => id in s.ops && ActionEnabled(s.ops[id], a)
    case Interrupt(c, id) => c !in s.calls && id in s.ops && s.ops[id].guard == Abandoned
    case Answer(c, ok) => HasCall(s, c) && s.calls[c].Issued? && (ok ==> s.ops[s.calls[c].op].row != Running)
    case RecordFailure(c) => HasCall(s, c) && s.calls[c].Refusing?
    case Settle(c) => HasCall(s, c) && s.calls[c].Answered?
    case Forget(c) => HasCall(s, c) && s.calls[c].Settled?
  }

  /** The acknowledged reservation reaches its worker, or is abandoned when the worker is gone. */
  function Delivered(o: Op): Op {
    if o.worker then o.(task := Ended) else AbandonedOp(o.(task := Ended))
  }

  /** A failed cleanup is recorded only while the decorator still keeps its lease. */
  function FailedOp(o: Op): Op {
    if o.lease then o.(settlement := o.settlement.(failure := true)) else o
  }

  function Apply(s: State, step: Step): State
    requires Enabled(s, step)
  {
    match step
    case Start(id, key, kind) => With(s, id, NewOp(key, kind))
    case FindMutex(id) =>
      var k := s.ops[id].key;
      var m := MutexFor(s, k);
      With(s, id, s.ops[id].(stage := Locking(m)))
        .(mutexes := Pruned(s)[k := m], nextMutex := if m == s.nextMutex then m + 1 else s.nextMutex)
    case TryLock(id) =>
      var m := s.ops[id].stage.mutex;
      With(s, id, if IsLocked(s, m) then s.ops[id].(stage := Refused) else Granted(s.ops[id], m))
    case CreateGuard(id) =>
      With(s, id, s.ops[id].(task := Committing(RegisteredFor(s, s.ops[id].key), false), guard := Armed))
    case CommitAck(id) =>
      s.(ops := Unregistered(s.ops, s.ops[id].task.snapshot)[id := Delivered(s.ops[id])])
    case Local(id, a) => With(s, id, Act(s.ops[id], a))
    case Interrupt(c, id) => s.(calls := s.calls[c := Issued(id)])
    case Answer(c, ok) =>
      s.(calls := s.calls[c := if ok then Answered(s.calls[c].op) else Refusing(s.calls[c].op)])
    case RecordFailure(c) =>
      With(s, s.calls[c].op, FailedOp(s.ops[s.calls[c].op])).(calls := s.calls - {c})
    case Settle(c) =>
      With(s, s.calls[c].op, SettledOp(s.ops[s.calls[c].op])).(calls := s.calls[c := Settled(s.calls[c].op)])
    case Forget(c) =>
      With(s, s.calls[c].op, s.ops[s.calls[c].op].(registered := false)).(calls := s.calls - {c})
  }

  /** The state after a run; none when some step was not enabled when it was taken. */
  function After(steps: seq<Step>): Option<State> {
    if steps == [] then Some(INITIAL)
    else
      var before := After(steps[..|steps| - 1]);
      if before.Some? && Enabled(before.value, steps[|steps| - 1])
      then Some(Apply(before.value, steps[|steps| - 1]))
      else None
  }
}
