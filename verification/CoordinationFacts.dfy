/** The state of an operation read off the steps of a run: each fact holds exactly since the step that brought it about. */
module CoordinationFacts {
  import opened Prelude
  import opened TurnControls
  import opened Coordination
  import opened CoordinationInvariant
  import opened CoordinationRuns

  /** What may be true of an operation for part of a run. */
  datatype Fact =
    | FailureRecorded
    | RowRuns
    | RowCompleted
    | RowFailed
    | RowCutShort
    | InRegistry
    | GuardArmed
    | KeepsAdmission
    | EffectsKeepAdmission
    | EndedUnresolved
    | WorkerRuns
    | LeaseHeld(lease: LeaseId)
    | LeaseUnresolved(lease: LeaseId)
    | LeaseUnrecorded(lease: LeaseId)

  predicate Has(fact: Fact, o: Op) {
    match fact
    case FailureRecorded => o.settlement.failure
    case RowRuns => o.row == Running
    case RowCompleted => o.row == Completed
    case RowFailed => o.row == Failed
    case RowCutShort => o.row == Interrupted
    case InRegistry => o.registered
    case GuardArmed => o.guard == Armed
    case KeepsAdmission => o.owned
    case EffectsKeepAdmission => o.effects.admission
    case EndedUnresolved => o.unresolved
    case WorkerRuns => o.worker
    case LeaseHeld(l) => l in o.leases
    case LeaseUnresolved(l) => l in o.leases && o.leases[l].unresolved
    case LeaseUnrecorded(l) => l in o.leases && o.leases[l].recording
  }

  predicate HasAt(fact: Fact, s: State, id: OpId) {
    id in s.ops && Has(fact, s.ops[id])
  }

  /** The step is this one operation's, in a call in flight or directly. */
  predicate OfCall(s: State, c: CallId, id: OpId) {
    c in s.calls && s.calls[c].op == id
  }

  /** Dropping a lease that ended without acknowledgment. */
  predicate DropsUnresolved(o: Op, a: Action) {
    a.Release? && a.id in o.leases && o.leases[a.id].unresolved
  }

  predicate DropsLast(o: Op, a: Action) {
    a.Release? && o.leases.Keys == {a.id}
  }

  /** The operation's own step that starts the fact. */
  predicate LocalSets(fact: Fact, o: Op, a: Action) {
    match fact
    case RowRuns => a.Commit?
    case RowCompleted => a == FinalCommit(true)
    case RowFailed => a == FinalCommit(false)
    case RowCutShort => a.RowInterrupted?
    case InRegistry => a.DropGuard? || a.CommitFails?
    case EndedUnresolved => DropsUnresolved(o, a)
    case LeaseHeld(l) => a == Retain(l)
    case LeaseUnresolved(l) => a == Begin(l)
    case LeaseUnrecorded(l) => a == Acknowledge(l)
    case _ => false
  }

  predicate LocalClears(fact: Fact, o: Op, a: Action) {
    match fact
    case FailureRecorded => a.FinalAck?
    case RowRuns => a.FinalCommit? || a.RowInterrupted?
    case GuardArmed => a.CommitFails? || a.DropGuard? || a.FinalAck?
    case KeepsAdmission => a.FinalAck? || a.ReserveFails? || a.EndSwitch?
    case EffectsKeepAdmission => DropsUnresolved(o, a) || DropsLast(o, a)
    case WorkerRuns => a.EndWorker?
    case LeaseHeld(l) => a == Release(l)
    case LeaseUnresolved(l) => a == Release(l) || a == Acknowledge(l)
    case LeaseUnrecorded(l) => a == Release(l) || a == RecordOutcome(l)
    case _ => false
  }

  /** The step starts the fact for this operation. */
  predicate Sets(fact: Fact, s: State, step: Step, id: OpId) {
    if id !in s.ops then
      && step.Start? && step.op == id
      && (fact.WorkerRuns? || (fact == LeaseHeld(WORKER) && step.kind.TurnOp?))
    else
    match step
    case Local(p, a) => p == id && LocalSets(fact, s.ops[id], a)
    case RecordFailure(c) => fact.FailureRecorded? && OfCall(s, c, id) && s.ops[id].lease
    case CommitAck(p) => fact.InRegistry? && p == id && !s.ops[id].worker
    case CreateGuard(p) => fact.GuardArmed? && p == id
    case TryLock(p) =>
      && p == id && s.ops[id].stage.Locking? && !IsLocked(s, s.ops[id].stage.mutex)
      && (fact.KeepsAdmission? || (fact.EffectsKeepAdmission? && s.ops[id].kind.TurnOp?))
    case _ => false
  }

  /** The step ends the fact for this operation. */
  predicate Clears(fact: Fact, s: State, step: Step, id: OpId) {
    id in s.ops &&
    match step
    case Local(p, a) => p == id && LocalClears(fact, s.ops[id], a)
    case Settle(c) => (fact.FailureRecorded? || fact.KeepsAdmission?) && OfCall(s, c, id)
    case Forget(c) => fact.InRegistry? && OfCall(s, c, id)
    case CommitAck(p) =>
      || (fact.InRegistry? && p != id && p in s.ops && s.ops[p].task.Committing? && id in s.ops[p].task.snapshot)
      || (fact.GuardArmed? && p == id && !s.ops[id].worker)
    case _ => false
  }

  lemma {:induction false} SingleLease(o: Op, id: LeaseId)
    requires OpInv(o) && id in o.leases
    ensures o.effects.pending > 1 <==> o.leases.Keys != {id}
  {
    assert |o.leases| == |o.leases.Keys|;
    if o.leases.Keys != {id} {
      assert |o.leases.Keys - {id}| == |o.leases.Keys| - 1;
      assert o.leases.Keys - {id} != {};
    }
  }

  lemma {:induction false} ReleaseFact(fact: Fact, o: Op, a: Action)
    requires OpInv(o) && ActionEnabled(o, a) && a.Release?
    ensures Has(fact, Act(o, a)) <==> LocalSets(fact, o, a) || (Has(fact, o) && !LocalClears(fact, o, a))
  {
    SingleLease(o, a.id);
    hide OpInv;
  }

  lemma {:induction false} MarkFact(fact: Fact, o: Op, a: Action)
    requires ActionEnabled(o, a) && TouchesLeases(a) && !a.Release?
    ensures Has(fact, Act(o, a)) <==> LocalSets(fact, o, a) || (Has(fact, o) && !LocalClears(fact, o, a))
  {
  }

  /** Steps of the worker and its reservation. */
  predicate Reserves(a: Action) {
    a.EndWorker? || a.EndSwitch? || a.ReserveFails? || a.Commit? || a.CommitFails?
  }

  lemma {:induction false} ReserveFact(fact: Fact, o: Op, a: Action)
    requires OpInv(o) && ActionEnabled(o, a) && Reserves(a)
    ensures Has(fact, Act(o, a)) <==> LocalSets(fact, o, a) || (Has(fact, o) && !LocalClears(fact, o, a))
  {
    hide SettlementInv, EffectsInv;
  }

  lemma {:induction false} EndFact(fact: Fact, o: Op, a: Action)
    requires OpInv(o) && ActionEnabled(o, a) && !TouchesLeases(a) && !Reserves(a)
    ensures Has(fact, Act(o, a)) <==> LocalSets(fact, o, a) || (Has(fact, o) && !LocalClears(fact, o, a))
  {
    hide SettlementInv, EffectsInv;
  }

  lemma {:induction false} LocalFact(fact: Fact, o: Op, a: Action)
    requires OpInv(o) && ActionEnabled(o, a)
    ensures Has(fact, Act(o, a)) <==> LocalSets(fact, o, a) || (Has(fact, o) && !LocalClears(fact, o, a))
  {
    hide Has, LocalSets, LocalClears, Act, ActionEnabled, OpInv;
    if a.Release? {
      ReleaseFact(fact, o, a);
    } else if TouchesLeases(a) {
      MarkFact(fact, o, a);
    } else if Reserves(a) {
      ReserveFact(fact, o, a);
    } else {
      EndFact(fact, o, a);
    }
  }

  lemma {:induction false} SettledFact(fact: Fact, o: Op)
    ensures Has(fact, SettledOp(o)) <==> Has(fact, o) && !fact.FailureRecorded? && !fact.KeepsAdmission?
    ensures Has(fact, FailedOp(o)) <==> Has(fact, o) || (fact.FailureRecorded? && o.lease)
    ensures Has(fact, o.(registered := false)) <==> Has(fact, o) && !fact.InRegistry?
  {
  }

  lemma {:induction false} DeliveredFact(fact: Fact, o: Op)
    requires OpInv(o) && o.task.Committing?
    ensures Has(fact, Delivered(o)) <==>
            (fact.InRegistry? && !o.worker) || (Has(fact, o) && !(fact.GuardArmed? && !o.worker))
  {
  }

  lemma {:induction false} GrantedFact(fact: Fact, o: Op, m: MutexId)
    requires OpInv(o) && o.stage.Locking?
    ensures Has(fact, Granted(o, m)) <==>
            fact.KeepsAdmission? || (fact.EffectsKeepAdmission? && o.kind.TurnOp?) || Has(fact, o)
  {
  }

  lemma {:induction false} RefusedFact(fact: Fact, o: Op)
    ensures Has(fact, o.(stage := Stage.Refused)) == Has(fact, o)
  {
  }

  lemma {:induction false} NewOpFact(fact: Fact, key: Key, kind: Kind)
    ensures Has(fact, NewOp(key, kind)) <==> fact.WorkerRuns? || (fact == LeaseHeld(WORKER) && kind.TurnOp?)
  {
  }

  lemma {:induction false} CommitAckFact(fact: Fact, s: State, p: OpId, id: OpId)
    requires Inv(s) && Enabled(s, CommitAck(p)) && id in s.ops
    ensures var step := CommitAck(p);
            HasAt(fact, Apply(s, step), id) <==> Sets(fact, s, step, id) || (HasAt(fact, s, id) && !Clears(fact, s, step, id))
  {
    hide Has, Delivered, OpInv, MutexInv, Exclusive, CallInv;
    DeliveredFact(fact, s.ops[p]);
    SettledFact(fact, s.ops[id]);
    assert SnapshotInv(s, p);
  }

  lemma {:induction false} CallFact(fact: Fact, s: State, step: Step, id: OpId)
    requires Inv(s) && Enabled(s, step) && id in s.ops
    requires step.RecordFailure? || step.Settle? || step.Forget? || step.Interrupt? || step.Answer?
    ensures HasAt(fact, Apply(s, step), id) <==>
            Sets(fact, s, step, id) || (HasAt(fact, s, id) && !Clears(fact, s, step, id))
  {
    hide Has, SettledOp, FailedOp, Inv;
    SettledFact(fact, s.ops[id]);
  }

  lemma {:induction false} TryLockFact(fact: Fact, s: State, p: OpId, id: OpId)
    requires Inv(s) && Enabled(s, TryLock(p)) && id in s.ops
    ensures var step := TryLock(p);
            HasAt(fact, Apply(s, step), id) <==> Sets(fact, s, step, id) || (HasAt(fact, s, id) && !Clears(fact, s, step, id))
  {
    hide IsLocked, Granted, OpInv, MutexInv, Exclusive, CallInv, SnapshotInv, Has, Pruned, MutexFor, Act, ActionEnabled;
    if p == id {
      GrantedFact(fact, s.ops[id], s.ops[id].stage.mutex);
      RefusedFact(fact, s.ops[id]);
    }
  }

  lemma {:induction false} LocalStepFact(fact: Fact, s: State, p: OpId, a: Action, id: OpId)
    requires Inv(s) && Enabled(s, Local(p, a)) && id in s.ops
    ensures var step := Local(p, a);
            HasAt(fact, Apply(s, step), id) <==> Sets(fact, s, step, id) || (HasAt(fact, s, id) && !Clears(fact, s, step, id))
  {
    hide Has, LocalSets, LocalClears, ActionEnabled, Act, OpInv, MutexInv, Exclusive, CallInv, SnapshotInv;
    LocalFact(fact, s.ops[p], a);
  }

  lemma {:induction false} AcquiringFact(fact: Fact, s: State, step: Step, id: OpId)
    requires Inv(s) && Enabled(s, step) && id in s.ops && (step.FindMutex? || step.CreateGuard? || step.Start?)
    ensures HasAt(fact, Apply(s, step), id) <==>
            Sets(fact, s, step, id) || (HasAt(fact, s, id) && !Clears(fact, s, step, id))
  {
    hide Inv, Pruned, MutexFor, RegisteredFor, NewOp;
  }

  /** One step starts the fact, or leaves it unless it ends it. */
  lemma {:induction false} StepFact(fact: Fact, s: State, step: Step, id: OpId)
    requires Inv(s) && Enabled(s, step)
    ensures HasAt(fact, Apply(s, step), id) <==>
            Sets(fact, s, step, id) || (HasAt(fact, s, id) && !Clears(fact, s, step, id))
  {
    hide Inv, HasAt, Sets, Clears, Enabled, Apply;
    if id !in s.ops {
      NewFact(fact, s, step, id);
    } else {
      match step
      case Local(p, a) => LocalStepFact(fact, s, p, a, id);
      case TryLock(p) => TryLockFact(fact, s, p, id);
      case CommitAck(p) => CommitAckFact(fact, s, p, id);
      case Start(_, _, _) => AcquiringFact(fact, s, step, id);
      case FindMutex(_) => AcquiringFact(fact, s, step, id);
      case CreateGuard(_) => AcquiringFact(fact, s, step, id);
      case _ => CallFact(fact, s, step, id);
    }
  }

  /** Only its start brings an operation into being. */
  lemma {:induction false} NewFact(fact: Fact, s: State, step: Step, id: OpId)
    requires Enabled(s, step) && id !in s.ops
    ensures HasAt(fact, Apply(s, step), id) <==> Sets(fact, s, step, id)
    ensures !HasAt(fact, s, id)
  {
    hide Has, NewOp, Pruned, MutexFor, IsLocked, Granted, Act, ActionEnabled, SettledOp, FailedOp, Delivered,
         RegisteredFor;
    if step.Start? {
      NewOpFact(fact, step.key, step.kind);
    }
  }

  ghost predicate SetAt(fact: Fact, steps: seq<Step>, id: OpId, k: nat)
    requires k < |steps|
  {
    After(steps[..k]).Some? && Sets(fact, After(steps[..k]).value, steps[k], id)
  }

  ghost predicate ClearedAt(fact: Fact, steps: seq<Step>, id: OpId, k: nat)
    requires k < |steps|
  {
    After(steps[..k]).Some? && Clears(fact, After(steps[..k]).value, steps[k], id)
  }

  ghost predicate SinceAt(fact: Fact, steps: seq<Step>, id: OpId, k: nat)
    requires k < |steps|
  {
    SetAt(fact, steps, id, k) && forall j :: k < j < |steps| ==> !ClearedAt(fact, steps, id, j)
  }

  /** Some step of the run started the fact and no later one ended it. */
  ghost predicate Since(fact: Fact, steps: seq<Step>, id: OpId) {
    exists k :: 0 <= k < |steps| && SinceAt(fact, steps, id, k)
  }

  lemma {:induction false} EarlierSteps(fact: Fact, front: seq<Step>, last: Step, id: OpId, k: nat)
    requires k < |front|
    ensures SetAt(fact, front + [last], id, k) == SetAt(fact, front, id, k)
    ensures ClearedAt(fact, front + [last], id, k) == ClearedAt(fact, front, id, k)
  {
    hide Sets, Clears;
    assert (front + [last])[..k] == front[..k];
  }

  lemma {:induction false} SinceStep(fact: Fact, front: seq<Step>, last: Step, id: OpId)
    requires After(front).Some?
    ensures Since(fact, front + [last], id) <==>
            Sets(fact, After(front).value, last, id) || (Since(fact, front, id) && !Clears(fact, After(front).value, last, id))
  {
    hide Sets, Clears, After;
    var steps, n := front + [last], |front|;
    assert steps[..n] == front;
    forall k | 0 <= k < n
      ensures SetAt(fact, steps, id, k) == SetAt(fact, front, id, k)
      ensures ClearedAt(fact, steps, id, k) == ClearedAt(fact, front, id, k)
    {
      EarlierSteps(fact, front, last, id, k);
    }
    hide SetAt, ClearedAt;
    assert SetAt(fact, steps, id, n) == Sets(fact, After(front).value, last, id) by { LastSet(fact, front, last, id); }
    assert ClearedAt(fact, steps, id, n) == Clears(fact, After(front).value, last, id) by { LastSet(fact, front, last, id); }
    if SetAt(fact, steps, id, n) {
      assert SinceAt(fact, steps, id, n);
    }
    if Since(fact, front, id) && !ClearedAt(fact, steps, id, n) {
      var k :| 0 <= k < n && SinceAt(fact, front, id, k);
      assert SinceAt(fact, steps, id, k);
    }
    if Since(fact, steps, id) && !SetAt(fact, steps, id, n) {
      var k :| 0 <= k <= n && SinceAt(fact, steps, id, k);
      assert k < n && !ClearedAt(fact, steps, id, n);
      assert SinceAt(fact, front, id, k);
    }
  }

  lemma {:induction false} LastSet(fact: Fact, front: seq<Step>, last: Step, id: OpId)
    requires After(front).Some?
    ensures SetAt(fact, front + [last], id, |front|) == Sets(fact, After(front).value, last, id)
    ensures ClearedAt(fact, front + [last], id, |front|) == Clears(fact, After(front).value, last, id)
  {
    hide Sets, Clears, After;
    assert (front + [last])[..|front|] == front;
  }

  /** In every run, every fact about an operation holds exactly since the step that brought it about. */
  lemma {:induction false} FactsFollowSteps(fact: Fact, steps: seq<Step>, id: OpId)
    requires After(steps).Some?
    ensures HasAt(fact, After(steps).value, id) <==> Since(fact, steps, id)
  {
    hide HasAt, Since, Sets, Clears, Enabled, Apply, Inv;
    if steps == [] {
      NothingYet(fact, id);
    } else {
      var front, last := steps[..|steps| - 1], steps[|steps| - 1];
      assert steps == front + [last];
      FactsFollowSteps(fact, front, id);
      RunInv(front);
      StepFact(fact, After(front).value, last, id);
      SinceStep(fact, front, last, id);
    }
  }

  lemma {:induction false} NothingYet(fact: Fact, id: OpId)
    ensures !HasAt(fact, INITIAL, id) && !Since(fact, [], id)
  {
  }

  /**
   * Waiting for settlement fails exactly when some cleanup failed under a held lease and no acknowledged end of the
   * turn followed; it succeeds exactly when worker and lease are gone; otherwise it keeps waiting.
   */
  lemma {:induction false} SettledFailsSince(steps: seq<Step>, s: State, id: OpId)
    requires After(steps) == Some(s) && id in s.ops && s.ops[id].kind == TurnOp(true)
    ensures SettledAnswer(s.ops[id]) == SettledErr <==> Since(FailureRecorded, steps, id)
    ensures SettledAnswer(s.ops[id]) == SettledOk <==> !s.ops[id].worker && !Since(KeepsAdmission, steps, id)
  {
    hide Since, After;
    FactsFollowSteps(FailureRecorded, steps, id);
    FactsFollowSteps(KeepsAdmission, steps, id);
    SettledIsSound(steps, s, id);
    RunInv(steps);
    assert OpInv(s.ops[id]);
  }

  /** A running row is one committed and not ended since; the process answers for it until then. */
  lemma {:induction false} RunningSince(steps: seq<Step>, s: State, id: OpId)
    requires After(steps) == Some(s) && id in s.ops
    ensures s.ops[id].row == Running <==> Since(RowRuns, steps, id)
    ensures Since(RowRuns, steps, id) ==> Since(GuardArmed, steps, id) || Since(InRegistry, steps, id)
  {
    hide Since, After;
    FactsFollowSteps(RowRuns, steps, id);
    FactsFollowSteps(GuardArmed, steps, id);
    FactsFollowSteps(InRegistry, steps, id);
    if s.ops[id].row == Running {
      NoOrphan(steps, s, id);
    }
  }

  /**
   * Every owner of the session abandoned when a reservation was prepared has left the registry once that
   * reservation is acknowledged, and the reservation reaches its worker exactly if that is still there.
   */
  lemma {:induction false} ReservationForgetsAbandoned(steps: seq<Step>, k: nat, j: nat, s: State, t: State, id: OpId)
    requires k < j && j < |steps| && steps[k] == CreateGuard(id) && steps[j] == CommitAck(id)
    requires After(steps[..k]) == Some(s) && After(steps[..j]) == Some(t) && After(steps[..j + 1]).Some?
    requires id in s.ops
    ensures var next := After(steps[..j + 1]).value;
            && id in next.ops && (next.ops[id].guard == Armed <==> next.ops[id].worker)
            && (next.ops[id].registered <==> !next.ops[id].worker)
            && forall p :: p in s.ops && p != id && s.ops[p].registered && s.ops[p].key == s.ops[id].key ==>
                 p in next.ops && !next.ops[p].registered
  {
    hide Inv, OpLasts, Apply, Enabled;
    assert steps[..k + 1][..k] == steps[..k] && steps[..j + 1][..j] == steps[..j];
    assert steps[..j][..k + 1] == steps[..k + 1] && steps[..j][..k] == steps[..k];
    RunLasts(steps[..j], k + 1);
    RunLasts(steps[..j], k);
    RunInv(steps[..j]);
    hide After;
    ForgetsSnapshot(s, After(steps[..k + 1]).value, t, id);
  }

  lemma {:induction false} ForgetsSnapshot(s: State, made: State, t: State, id: OpId)
    requires Enabled(s, CreateGuard(id)) && made == Apply(s, CreateGuard(id))
    requires Lasts(s, t) && Lasts(made, t) && Inv(t) && Enabled(t, CommitAck(id))
    ensures var next := Apply(t, CommitAck(id));
            && id in next.ops && (next.ops[id].guard == Armed <==> next.ops[id].worker)
            && (next.ops[id].registered <==> !next.ops[id].worker)
            && forall p :: p in s.ops && p != id && s.ops[p].registered && s.ops[p].key == s.ops[id].key ==>
                 p in next.ops && !next.ops[p].registered
  {
    hide Inv, OpLasts, Delivered;
    SnapshotLasts(made.ops[id], t.ops[id]);
    AcknowledgedOp(t, id);
  }

  lemma {:induction false} SnapshotLasts(o: Op, n: Op)
    requires OpLasts(o, n) && o.task.Committing? && n.task.Committing?
    ensures n.task.snapshot == o.task.snapshot
  {
  }

  lemma {:induction false} AcknowledgedOp(s: State, id: OpId)
    requires Inv(s) && Enabled(s, CommitAck(id))
    ensures var n := Delivered(s.ops[id]);
            (n.guard == Armed <==> n.worker) && (n.registered <==> !n.worker)
  {
    hide MutexInv, Exclusive, SnapshotInv, CallInv;
    assert OpInv(s.ops[id]);
  }
}
