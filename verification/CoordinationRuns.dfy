/** Safety of the coordination protocol over whole runs. */
module CoordinationRuns {
  import opened Prelude
  import opened TurnControls
  import opened Coordination
  import opened CoordinationInvariant

  /** An operation and a later state of it. */
  ghost predicate OpLasts(o: Op, n: Op) {
    && n.key == o.key
    && n.kind == o.kind
    && (Terminal(o.row) ==> n.row == o.row)
    && (o.stage.Held? ==> n.stage == o.stage)
    && (o.stage.Held? && !o.owned ==> !n.owned)
    && (o.leases == map[] ==>
          n.leases == map[] && n.unresolved == o.unresolved && n.effects.failure == o.effects.failure)
    && (o.unresolved ==> n.unresolved)
    && (!o.worker ==> !n.worker)
    && (o.task.Ended? ==> n.task.Ended?)
    && (o.task.Committing? ==> n.task.Ended? || (n.task.Committing? && n.task.snapshot == o.task.snapshot))
    && (!o.worker && (o.stage.Unadmitted? || o.stage.Refused?) ==> n.stage == o.stage)
  }

  ghost predicate Lasts(s: State, t: State) {
    forall id :: id in s.ops ==> id in t.ops && OpLasts(s.ops[id], t.ops[id])
  }

  predicate TouchesLeases(a: Action) {
    a.Retain? || a.Begin? || a.Acknowledge? || a.RecordOutcome? || a.ReportUnrecorded? || a.Release?
  }

  lemma {:induction false} LeaseActLasts(o: Op, a: Action)
    requires ActionEnabled(o, a) && TouchesLeases(a)
    ensures OpLasts(o, Act(o, a))
  {
  }

  lemma {:induction false} OwnerActLasts(o: Op, a: Action)
    requires OpInv(o) && ActionEnabled(o, a) && !TouchesLeases(a)
    ensures OpLasts(o, Act(o, a))
  {
    hide SettlementInv, EffectsInv;
  }

  lemma {:induction false} ActLasts(o: Op, a: Action)
    requires OpInv(o) && ActionEnabled(o, a)
    ensures OpLasts(o, Act(o, a))
  {
    hide OpInv, ActionEnabled, Act, OpLasts;
    if TouchesLeases(a) {
      LeaseActLasts(o, a);
    } else {
      OwnerActLasts(o, a);
    }
  }

  lemma {:induction false} OpLastsRefl(o: Op)
    ensures OpLasts(o, o)
  {
  }

  lemma {:induction false} OpLastsTrans(o: Op, n: Op, m: Op)
    requires OpLasts(o, n) && OpLasts(n, m)
    ensures OpLasts(o, m)
  {
  }

  /** A step that rewrites one operation. */
  lemma {:induction false} RewriteLasts(s: State, t: State, p: OpId, n: Op, id: OpId)
    requires p in s.ops && id in s.ops && t.ops == s.ops[p := n] && OpLasts(s.ops[p], n)
    ensures id in t.ops && OpLasts(s.ops[id], t.ops[id])
  {
    hide OpLasts;
    OpLastsRefl(s.ops[id]);
  }

  lemma {:induction false} MutexFoundLasts(o: Op, m: MutexId)
    requires o.stage.Unadmitted? && o.worker
    ensures OpLasts(o, o.(stage := Locking(m)))
  {
  }

  lemma {:induction false} GuardLasts(o: Op, snapshot: set<OpId>)
    requires o.task.Reserving?
    ensures OpLasts(o, o.(task := Committing(snapshot, false), guard := Armed))
  {
  }

  lemma {:induction false} DeliveryLasts(o: Op)
    requires o.task.Committing?
    ensures OpLasts(o, Delivered(o))
  {
  }

  lemma {:induction false} CleanupLasts(o: Op)
    ensures OpLasts(o, FailedOp(o))
    ensures OpLasts(o, SettledOp(o))
    ensures OpLasts(o, o.(registered := false))
  {
  }

  lemma {:induction false} CommitAckLasts(s: State, p: OpId, id: OpId)
    requires Enabled(s, CommitAck(p)) && id in s.ops
    ensures id in Apply(s, CommitAck(p)).ops && OpLasts(s.ops[id], Apply(s, CommitAck(p)).ops[id])
  {
    hide OpLasts, Delivered;
    CleanupLasts(s.ops[id]);
    DeliveryLasts(s.ops[p]);
    OpLastsRefl(s.ops[id]);
  }

  lemma {:induction false} CallLasts(s: State, step: Step, id: OpId)
    requires Inv(s) && Enabled(s, step) && id in s.ops && (step.RecordFailure? || step.Settle? || step.Forget?)
    ensures id in Apply(s, step).ops && OpLasts(s.ops[id], Apply(s, step).ops[id])
  {
    hide OpLasts, Inv, FailedOp, SettledOp;
    var p := s.calls[step.call].op;
    CleanupLasts(s.ops[p]);
    RewriteLasts(s, Apply(s, step), p, Apply(s, step).ops[p], id);
  }

  lemma {:induction false} OtherStepLasts(s: State, step: Step, id: OpId)
    requires Inv(s) && Enabled(s, step) && id in s.ops && !step.Local? && !step.TryLock?
    ensures id in Apply(s, step).ops && OpLasts(s.ops[id], Apply(s, step).ops[id])
  {
    hide OpLasts, Inv, Pruned, MutexFor, RegisteredFor, FailedOp, SettledOp, Delivered, Unregistered;
    OpLastsRefl(s.ops[id]);
    match step
    case FindMutex(p) =>
      MutexFoundLasts(s.ops[p], MutexFor(s, s.ops[p].key));
      RewriteLasts(s, Apply(s, step), p, Apply(s, step).ops[p], id);
    case CreateGuard(p) =>
      GuardLasts(s.ops[p], RegisteredFor(s, s.ops[p].key));
      RewriteLasts(s, Apply(s, step), p, Apply(s, step).ops[p], id);
    case CommitAck(p) => CommitAckLasts(s, p, id);
    case RecordFailure(_) => CallLasts(s, step, id);
    case Settle(_) => CallLasts(s, step, id);
    case Forget(_) => CallLasts(s, step, id);
    case _ =>
  }

  lemma {:induction false} TryLockLasts(s: State, step: Step, id: OpId)
    requires Inv(s) && Enabled(s, step) && id in s.ops && step.TryLock?
    ensures id in Apply(s, step).ops && OpLasts(s.ops[id], Apply(s, step).ops[id])
  {
    hide IsLocked, MutexInv, SnapshotInv, CallInv, Exclusive;
    assert OpInv(s.ops[id]);
  }

  lemma {:induction false} StepLasts(s: State, step: Step)
    requires Inv(s) && Enabled(s, step)
    ensures Lasts(s, Apply(s, step))
  {
    hide OpLasts, OpInv, ActionEnabled, Act;
    forall id | id in s.ops ensures id in Apply(s, step).ops && OpLasts(s.ops[id], Apply(s, step).ops[id]) {
      match step
      case Local(p, a) =>
        if p == id {
          ActLasts(s.ops[id], a);
        } else {
          OpLastsRefl(s.ops[id]);
        }
      case TryLock(_) => TryLockLasts(s, step, id);
      case _ => OtherStepLasts(s, step, id);
    }
  }

  /** What is settled at some point of a run is settled at its end. */
  lemma {:induction false} RunLasts(steps: seq<Step>, k: nat)
    requires k <= |steps| && After(steps).Some?
    ensures After(steps[..k]).Some? && Lasts(After(steps[..k]).value, After(steps).value)
  {
    hide Enabled, Apply, OpLasts;
    if k == |steps| {
      assert steps[..k] == steps;
      forall id | id in After(steps).value.ops
        ensures OpLasts(After(steps).value.ops[id], After(steps).value.ops[id])
      {
        OpLastsRefl(After(steps).value.ops[id]);
      }
    } else {
      var front := steps[..|steps| - 1];
      assert front[..k] == steps[..k];
      RunLasts(front, k);
      RunInv(front);
      StepLasts(After(front).value, steps[|steps| - 1]);
      var s, u, t := After(steps[..k]).value, After(front).value, After(steps).value;
      forall id | id in s.ops ensures id in t.ops && OpLasts(s.ops[id], t.ops[id]) {
        OpLastsTrans(s.ops[id], u.ops[id], t.ops[id]);
      }
    }
  }

  /** Persistence acknowledged, every effect lease ended, and none of them unresolved. */
  predicate Quiescent(o: Op) {
    !o.owned && o.leases == map[] && !o.unresolved
  }

  lemma {:induction false} HoldsUnlessQuiescent(o: Op)
    requires OpInv(o) && o.stage.Held?
    ensures Holds(o) <==> !Quiescent(o)
  {
  }

  predicate IsGranted(s: State, id: OpId)
    requires Enabled(s, TryLock(id))
  {
    Apply(s, TryLock(id)).ops[id].stage.Held?
  }

  ghost predicate AllQuiescent(s: State, k: Key) {
    forall p :: p in s.ops && s.ops[p].key == k && s.ops[p].stage.Held? ==> Quiescent(s.ops[p])
  }

  lemma {:induction false} GrantedUnlessLocked(s: State, id: OpId)
    requires Enabled(s, TryLock(id))
    ensures IsGranted(s, id) <==> !IsLocked(s, s.ops[id].stage.mutex)
  {
    hide IsLocked, Pruned, Act, RegisteredFor, MutexFor, Unregistered, Delivered, SettledOp, FailedOp, NewOp, Holds;
  }

  /** Admission is granted exactly when every operation admitted before on that key is quiescent. */
  lemma {:induction false} AdmittedWhenQuiescent(steps: seq<Step>, s: State, id: OpId)
    requires After(steps) == Some(s) && Enabled(s, TryLock(id))
    ensures IsGranted(s, id) <==> AllQuiescent(s, s.ops[id].key)
  {
    hide Apply, OpInv, Holds, SnapshotInv, CallInv, Exclusive, Quiescent;
    RunInv(steps);
    GrantedUnlessLocked(s, id);
    var m, k := s.ops[id].stage.mutex, s.ops[id].key;
    forall p | p in s.ops && s.ops[p].stage.Held? && s.ops[p].key == k
      ensures IsLocked(s, m) || Quiescent(s.ops[p])
    {
      HoldsUnlessQuiescent(s.ops[p]);
      if Holds(s.ops[p]) {
        HolderLocks(s, id, p);
      }
    }
    if IsLocked(s, m) {
      var p :| p in s.ops && s.ops[p].stage == Held(m) && Holds(s.ops[p]);
      HoldsUnlessQuiescent(s.ops[p]);
      assert Listed(s, id) && Listed(s, p);
      assert s.ops[p].key == k;
    }
  }

  /** An operation that gave up its admission has ended and left no running row. */
  lemma {:induction false} ReleasedIsOver(o: Op)
    requires OpInv(o) && o.stage.Held? && !o.owned
    ensures o.task.Ended? && o.row != Running && !o.settlement.failure
  {
  }

  /** Once a successor is admitted, no predecessor ever runs, persists or touches the filesystem again. */
  lemma {:induction false} SuccessorNeverOverlaps(steps: seq<Step>, k: nat, s: State, t: State, id: OpId, p: OpId)
    requires k < |steps| && steps[k] == TryLock(id)
    requires After(steps[..k]) == Some(s) && After(steps) == Some(t)
    requires Enabled(s, TryLock(id)) && IsGranted(s, id)
    requires p in s.ops && s.ops[p].key == s.ops[id].key && s.ops[p].stage.Held?
    ensures p in t.ops && Quiescent(t.ops[p]) && t.ops[p].task.Ended? && t.ops[p].row != Running
  {
    hide Apply, Enabled, IsGranted, After;
    AdmittedWhenQuiescent(steps[..k], s, id);
    RunLasts(steps, k);
    RunInv(steps);
    assert OpInv(t.ops[p]);
    ReleasedIsOver(t.ops[p]);
  }

  /** An unresolved effect blocks its session in this process for good. */
  lemma {:induction false} UnresolvedBlocksForever(steps: seq<Step>, k: nat, s: State, t: State, id: OpId, p: OpId)
    requires k <= |steps| && After(steps[..k]) == Some(s) && After(steps) == Some(t)
    requires p in s.ops && s.ops[p].unresolved
    requires Enabled(t, TryLock(id)) && p in t.ops && t.ops[id].key == t.ops[p].key
    ensures !IsGranted(t, id)
  {
    hide Apply, Enabled, IsGranted, After;
    RunLasts(steps, k);
    RunInv(steps[..k]);
    assert OpInv(s.ops[p]);
    AdmittedWhenQuiescent(steps, t, id);
  }

  /** All strong references of a key are to one mutex, and no mutex serves two keys. */
  lemma {:induction false} OneMutexPerKey(steps: seq<Step>, s: State, id: OpId, p: OpId)
    requires After(steps) == Some(s) && id in s.ops && p in s.ops
    requires Strong(s.ops[id]).Some? && Strong(s.ops[p]).Some?
    ensures s.ops[id].key == s.ops[p].key <==> Strong(s.ops[id]) == Strong(s.ops[p])
  {
    RunInv(steps);
    assert Listed(s, id) && Listed(s, p);
  }

  /** No running row of this process is ever orphaned. */
  lemma {:induction false} NoOrphan(steps: seq<Step>, s: State, id: OpId)
    requires After(steps) == Some(s) && id in s.ops && s.ops[id].row == Running
    ensures s.ops[id].guard == Armed || s.ops[id].registered
    ensures s.ops[id].owned
  {
    RunInv(steps);
    assert OpInv(s.ops[id]);
  }

  /** Cleanup never overwrites a committed end of a turn. */
  lemma {:induction false} EndIsFinal(steps: seq<Step>, k: nat, s: State, t: State, id: OpId)
    requires k <= |steps| && After(steps[..k]) == Some(s) && After(steps) == Some(t)
    requires id in s.ops && Terminal(s.ops[id].row)
    ensures id in t.ops && t.ops[id].row == s.ops[id].row
  {
    RunLasts(steps, k);
  }

  /** A reservation never meets a running row of its own process, so it never reports its own session busy. */
  lemma {:induction false} ReservationNeverCollides(steps: seq<Step>, s: State, id: OpId, p: OpId)
    requires After(steps) == Some(s) && id in s.ops && p in s.ops && p != id
    requires s.ops[id].key == s.ops[p].key && (s.ops[id].task.Reserving? || s.ops[id].task.Committing?)
    ensures s.ops[p].row != Running
  {
    RunInv(steps);
    assert OpInv(s.ops[id]) && OpInv(s.ops[p]);
    var k := s.ops[id].key;
    assert HoldsKey(s, id, k);
    assert !HoldsKey(s, p, k);
  }

  /** Waiting for effects succeeds only when every lease has ended, none of them unresolved, and stays so. */
  lemma {:induction false} EffectsSettledIsFinal(steps: seq<Step>, k: nat, s: State, t: State, id: OpId)
    requires k <= |steps| && After(steps[..k]) == Some(s) && After(steps) == Some(t)
    requires id in s.ops && AnswerOf(s.ops[id].effects) == EffectsOk
    ensures s.ops[id].leases == map[] && !s.ops[id].unresolved
    ensures id in t.ops && t.ops[id].leases == map[] && !t.ops[id].unresolved
    ensures AnswerOf(t.ops[id].effects) == EffectsOk
  {
    hide Apply, Enabled, After;
    RunLasts(steps, k);
    RunInv(steps[..k]);
    RunInv(steps);
    assert OpInv(s.ops[id]) && OpInv(t.ops[id]);
  }

  /** What `settled` answers: an error, success, or nothing yet. */
  datatype Answer = Waiting | SettledOk | SettledErr

  function SettledAnswer(o: Op): Answer {
    if o.settlement.failure then SettledErr else if o.settlement.pending == 0 then SettledOk else Waiting
  }

  /** Success exactly when no lease is left; an error only while the lease is held and a retry finds its owner. */
  lemma {:induction false} SettledIsSound(steps: seq<Step>, s: State, id: OpId)
    requires After(steps) == Some(s) && id in s.ops && s.ops[id].kind == TurnOp(true)
    ensures SettledAnswer(s.ops[id]) == SettledOk <==> !s.ops[id].worker && !s.ops[id].lease
    ensures SettledAnswer(s.ops[id]) == SettledErr ==> s.ops[id].lease && s.ops[id].registered
  {
    RunInv(steps);
    assert OpInv(s.ops[id]);
  }

  /** After success the turn's row is never running again, and success is never withdrawn. */
  lemma {:induction false} SettledIsFinal(steps: seq<Step>, k: nat, s: State, t: State, id: OpId)
    requires k <= |steps| && After(steps[..k]) == Some(s) && After(steps) == Some(t)
    requires id in s.ops && s.ops[id].kind == TurnOp(true) && SettledAnswer(s.ops[id]) == SettledOk
    ensures id in t.ops && SettledAnswer(t.ops[id]) == SettledOk && t.ops[id].row != Running
  {
    hide Apply, Enabled, After;
    RunLasts(steps, k);
    RunInv(steps[..k]);
    RunInv(steps);
    assert OpInv(s.ops[id]) && OpInv(t.ops[id]);
  }

  /** An acknowledged cleanup, a retried one included, clears the recorded failure for good. */
  lemma {:induction false} RetryClears(steps: seq<Step>, k: nat, s: State, t: State, c: CallId)
    requires k < |steps| && steps[k] == Settle(c) && After(steps[..k]) == Some(s) && After(steps) == Some(t)
    requires Enabled(s, Settle(c))
    ensures var id := s.calls[c].op;
            id in t.ops && !t.ops[id].settlement.failure && !t.ops[id].lease && t.ops[id].row != Running
  {
    var id := s.calls[c].op;
    RunInv(steps[..k]);
    assert CallInv(s, c) && OpInv(s.ops[id]);
    var next := steps[..k + 1];
    assert next[..|next| - 1] == steps[..k];
    assert After(next) == Some(Apply(s, Settle(c)));
    RunLasts(steps, k + 1);
    RunInv(steps);
    assert OpInv(t.ops[id]);
  }
}
