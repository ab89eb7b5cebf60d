/** What every step of the coordination protocol keeps. */
module CoordinationInvariant {
  import opened Prelude
  import opened TurnControls
  import opened Coordination

  /** Retained persistence owners are counted exactly, and a recorded failure can always be retried. */
  ghost predicate SettlementInv(o: Op) {
    && o.lease == (o.owned && o.kind == TurnOp(true))
    && o.settlement.pending == (if o.kind == TurnOp(true) && o.worker then 1 else 0) + (if o.lease then 1 else 0)
    && (o.settlement.failure ==> o.lease && o.registered)
  }

  /** Outstanding leases are counted exactly, and keep the admission until they end, or for good if unresolved. */
  ghost predicate EffectsInv(o: Op) {
    && o.effects.pending == |o.leases|
    && (o.effects.admission ==> o.leases != map[])
    && (o.stage.Held? && o.leases != map[] && !o.unresolved ==> o.effects.admission)
    && o.unresolved == o.parked
    && (o.unresolved ==> o.stage.Held? && o.effects.failure.Some?)
    && (o.kind.TurnOp? && o.worker ==> WORKER in o.leases)
    && (forall l :: l in o.leases && o.leases[l].unresolved ==> o.stage.Held?)
    && (o.kind.SwitchOp? ==> o.leases == map[])
  }

  /** Who is responsible for the stored row. */
  ghost predicate OwnerInv(o: Op) {
    && (match o.task
        case NoTask => !o.stage.Held? && o.guard == NoGuard && !o.owned && !o.effects.admission
        case Reserving => o.stage.Held? && o.kind.TurnOp? && o.guard == NoGuard && o.owned
        case Committing(_, committed) =>
          o.stage.Held? && o.guard == Armed && o.owned && !o.finalizing && (!committed ==> o.row == Absent)
        case Switching => o.stage.Held? && o.kind.SwitchOp? && o.guard == NoGuard && o.owned
        case Ended => o.stage.Held? && (o.owned ==> o.guard == Armed || o.guard == Abandoned))
    && (match o.guard
        case NoGuard => o.row == Absent && !o.registered && !o.finalizing
        case Armed => o.owned && !o.registered && (o.task.Ended? ==> o.worker)
        case Disarmed => o.task.Ended? && !o.owned && !o.registered
        case Abandoned => o.task.Ended? && (o.owned ==> o.registered))
    && (o.row == Running ==> o.owned)
    && (o.stage.Locking? ==> o.worker)
  }

  ghost predicate OpInv(o: Op) {
    SettlementInv(o) && EffectsInv(o) && OwnerInv(o)
  }

  /** Every strong reference is to the mutex listed for its key. */
  ghost predicate Listed(s: State, id: OpId) {
    id in s.ops && Strong(s.ops[id]).Some? ==>
      s.ops[id].key in s.mutexes && s.mutexes[s.ops[id].key] == Strong(s.ops[id]).value
  }

  ghost predicate MutexInv(s: State) {
    && (forall id :: Listed(s, id))
    && (forall k :: k in s.mutexes ==> s.mutexes[k] < s.nextMutex)
    && (forall k, l :: k in s.mutexes && l in s.mutexes && s.mutexes[k] == s.mutexes[l] ==> k == l)
  }

  ghost predicate HoldsKey(s: State, id: OpId, k: Key) {
    id in s.ops && Holds(s.ops[id]) && s.ops[id].key == k
  }

  ghost predicate Exclusive(s: State) {
    forall k, id, p :: HoldsKey(s, id, k) && HoldsKey(s, p, k) ==> id == p
  }

  /** `p` was abandoned for the same key before `id` prepared its reservation. */
  ghost predicate IsPredecessor(s: State, id: OpId, p: OpId) {
    p != id && id in s.ops && p in s.ops && s.ops[p].key == s.ops[id].key && s.ops[p].guard == Abandoned
  }

  ghost predicate SnapshotInv(s: State, id: OpId) {
    id in s.ops && s.ops[id].task.Committing? ==> forall p :: p in s.ops[id].task.snapshot ==> IsPredecessor(s, id, p)
  }

  ghost predicate CallInv(s: State, c: CallId) {
    c in s.calls ==>
      && s.calls[c].op in s.ops
      && s.ops[s.calls[c].op].guard == Abandoned
      && (s.calls[c].Answered? || s.calls[c].Settled? ==> s.ops[s.calls[c].op].row != Running)
      && (s.calls[c].Settled? ==> !s.ops[s.calls[c].op].owned)
  }

  ghost predicate OpsInv(s: State) {
    forall id :: id in s.ops ==> OpInv(s.ops[id])
  }

  ghost predicate Inv(s: State) {
    && OpsInv(s)
    && MutexInv(s)
    && Exclusive(s)
    && (forall id :: SnapshotInv(s, id))
    && (forall c :: CallInv(s, c))
  }

  /** The operation stays the same owner, and what was abandoned or settled about it stays so. */
  ghost predicate Steady(o: Op, n: Op) {
    && n.key == o.key
    && n.kind == o.kind
    && (o.guard == Abandoned ==> n.guard == Abandoned)
    && (o.guard == Abandoned && o.row != Running ==> n.row != Running)
    && (o.guard == Abandoned && !o.owned ==> !n.owned)
    && (n.task.Committing? ==> o.task.Committing? && n.task.snapshot == o.task.snapshot)
  }

  /** Changes to one operation that no other operation can be hurt by. */
  ghost predicate Calm(o: Op, n: Op) {
    Steady(o, n) && n.stage == o.stage && (Holds(n) ==> Holds(o))
  }

  // Single operations.

  lemma {:induction false} LeaseRemoved(leases: map<LeaseId, Lease>, id: LeaseId)
    requires id in leases
    ensures |leases - {id}| == |leases| - 1
  {
    assert (leases - {id}).Keys == leases.Keys - {id};
    assert |leases.Keys| == |leases| && |(leases - {id}).Keys| == |leases - {id}|;
  }

  lemma {:induction false} LeaseSet(leases: map<LeaseId, Lease>, id: LeaseId, l: Lease)
    ensures |leases[id := l]| == if id in leases then |leases| else |leases| + 1
  {
    assert leases[id := l].Keys == leases.Keys + {id};
    assert |leases.Keys| == |leases| && |leases[id := l].Keys| == |leases[id := l]|;
  }

  lemma {:induction false} NewOpInv(key: Key, kind: Kind)
    ensures OpInv(NewOp(key, kind)) && !Holds(NewOp(key, kind))
  {
  }

  lemma {:induction false} GrantedInv(o: Op, m: MutexId)
    requires OpInv(o) && o.stage.Locking?
    ensures OpInv(Granted(o, m)) && Steady(o, Granted(o, m)) && Granted(o, m).stage == Held(m)
  {
  }

  lemma {:induction false} RetainKeeps(o: Op, id: LeaseId)
    requires OpInv(o) && ActionEnabled(o, Retain(id))
    ensures OpInv(Act(o, Retain(id))) && Calm(o, Act(o, Retain(id)))
  {
    LeaseSet(o.leases, id, IDLE);
    assert id in Act(o, Retain(id)).leases;
  }

  /** Marking a lease changes neither the count nor what the leases keep. */
  lemma {:induction false} MarkKeeps(o: Op, id: LeaseId, l: Lease)
    requires OpInv(o) && id in o.leases && (l.unresolved ==> o.stage.Held?)
    ensures OpInv(o.(leases := o.leases[id := l])) && Calm(o, o.(leases := o.leases[id := l]))
  {
    LeaseSet(o.leases, id, l);
    assert id in o.leases[id := l];
  }

  lemma {:induction false} ReleaseKeeps(o: Op, id: LeaseId)
    requires OpInv(o) && ActionEnabled(o, Release(id))
    ensures OpInv(Act(o, Release(id))) && Calm(o, Act(o, Release(id)))
  {
    LeaseRemoved(o.leases, id);
    assert o.leases - {id} == map[] <==> |o.leases| == 1;
  }

  lemma {:induction false} EndingKeeps(o: Op, a: Action)
    requires OpInv(o) && ActionEnabled(o, a)
    requires a.EndWorker? || a.EndSwitch? || a.ReserveFails? || a.ReportUnrecorded?
    ensures OpInv(Act(o, a)) && Calm(o, Act(o, a))
  {
  }

  lemma {:induction false} OwningKeeps(o: Op, a: Action)
    requires OpInv(o) && ActionEnabled(o, a)
    requires a.Commit? || a.CommitFails? || a.DropGuard? || a.RowInterrupted?
    ensures OpInv(Act(o, a)) && Calm(o, Act(o, a))
  {
  }

  lemma {:induction false} FinalizingKeeps(o: Op, a: Action)
    requires OpInv(o) && ActionEnabled(o, a)
    requires a.StartFinal? || a.FinalCommit? || a.FinalAck?
    ensures OpInv(Act(o, a)) && Calm(o, Act(o, a))
  {
  }

  lemma {:induction false} UnresolvedIsHeld(o: Op, id: LeaseId)
    requires OpInv(o) && id in o.leases && o.leases[id].unresolved
    ensures o.stage.Held?
  {
  }

  lemma {:induction false} ActKeeps(o: Op, a: Action)
    requires OpInv(o) && ActionEnabled(o, a)
    ensures OpInv(Act(o, a)) && Calm(o, Act(o, a))
  {
    hide OpInv, Calm;
    match a
    case Retain(id) => RetainKeeps(o, id);
    case Begin(id) => MarkKeeps(o, id, Starting(o.leases[id]));
    case Acknowledge(id) => MarkKeeps(o, id, Acknowledged(o.leases[id]));
    case RecordOutcome(id) =>
      if o.leases[id].unresolved {
        UnresolvedIsHeld(o, id);
      }
      MarkKeeps(o, id, RecordedLease(o.leases[id]));
    case Release(id) => ReleaseKeeps(o, id);
    case EndWorker => EndingKeeps(o, a);
    case EndSwitch => EndingKeeps(o, a);
    case ReserveFails => EndingKeeps(o, a);
    case ReportUnrecorded => EndingKeeps(o, a);
    case StartFinal => FinalizingKeeps(o, a);
    case FinalCommit(_) => FinalizingKeeps(o, a);
    case FinalAck => FinalizingKeeps(o, a);
    case _ => OwningKeeps(o, a);
  }

  // The whole process.

  lemma {:induction false} CalmKeepsMutexes(s: State, id: OpId, n: Op)
    requires MutexInv(s) && id in s.ops && Calm(s.ops[id], n)
    ensures MutexInv(With(s, id, n))
  {
    var t := With(s, id, n);
    forall p ensures Listed(t, p) {
      assert Listed(s, p);
    }
  }

  lemma {:induction false} CalmKeepsExclusive(s: State, id: OpId, n: Op)
    requires Exclusive(s) && id in s.ops && Calm(s.ops[id], n)
    ensures Exclusive(With(s, id, n))
  {
    var t := With(s, id, n);
    forall k: Key, p: OpId, q: OpId | HoldsKey(t, p, k) && HoldsKey(t, q, k) ensures p == q {
      assert HoldsKey(s, p, k) && HoldsKey(s, q, k);
    }
  }

  ghost predicate AllSteady(s: State, t: State) {
    t.calls == s.calls && forall id :: id in s.ops ==> id in t.ops && Steady(s.ops[id], t.ops[id])
  }

  /** Snapshots and calls survive any change that keeps every operation steady. */
  lemma {:induction false} SteadySnapshot(s: State, t: State, p: OpId)
    requires AllSteady(s, t) && SnapshotInv(s, p) && (p in t.ops && t.ops[p].task.Committing? ==> p in s.ops)
    ensures SnapshotInv(t, p)
  {
    if p in t.ops && t.ops[p].task.Committing? {
      forall q | q in t.ops[p].task.snapshot ensures IsPredecessor(t, p, q) {
        assert IsPredecessor(s, p, q);
      }
    }
  }

  lemma {:induction false} SteadyCall(s: State, t: State, c: CallId)
    requires AllSteady(s, t) && CallInv(s, c)
    ensures CallInv(t, c)
  {
  }

  /** One operation changes steadily; the mutexes are accounted for elsewhere. */
  lemma {:induction false} SteadyOpKeeps(s: State, id: OpId, n: Op, t: State)
    requires Inv(s) && id in s.ops && OpInv(n) && Steady(s.ops[id], n)
    requires t.ops == s.ops[id := n] && t.calls == s.calls && MutexInv(t) && Exclusive(t)
    ensures Inv(t)
  {
    hide OpInv, SnapshotInv, CallInv, MutexInv, Exclusive;
    forall p ensures SnapshotInv(t, p) {
      SteadySnapshot(s, t, p);
    }
    forall c ensures CallInv(t, c) {
      SteadyCall(s, t, c);
    }
  }

  lemma {:induction false} CalmKeeps(s: State, id: OpId, n: Op)
    requires Inv(s) && id in s.ops && OpInv(n) && Calm(s.ops[id], n)
    ensures Inv(With(s, id, n))
  {
    hide OpInv, SnapshotInv, CallInv, MutexInv, Exclusive, Holds;
    CalmKeepsMutexes(s, id, n);
    CalmKeepsExclusive(s, id, n);
    SteadyOpKeeps(s, id, n, With(s, id, n));
  }

  /** Changing the calls in flight concerns the calls only. */
  lemma {:induction false} CallsKeep(s: State, calls: map<CallId, Call>)
    requires Inv(s) && forall c :: CallInv(s.(calls := calls), c)
    ensures Inv(s.(calls := calls))
  {
    var t := s.(calls := calls);
    forall p ensures Listed(t, p) {
      assert Listed(s, p);
    }
    forall k: Key, p: OpId, q: OpId | HoldsKey(t, p, k) && HoldsKey(t, q, k) ensures p == q {
      assert HoldsKey(s, p, k) && HoldsKey(s, q, k);
    }
    forall p ensures SnapshotInv(t, p) {
      assert SnapshotInv(s, p);
      if p in t.ops && t.ops[p].task.Committing? {
        forall q | q in t.ops[p].task.snapshot ensures IsPredecessor(t, p, q) {
          assert IsPredecessor(s, p, q);
        }
      }
    }
  }

  lemma {:induction false} StartKeeps(s: State, id: OpId, key: Key, kind: Kind)
    requires Inv(s) && id !in s.ops
    ensures Inv(With(s, id, NewOp(key, kind)))
  {
    hide OpInv, SnapshotInv, CallInv, Holds;
    var t := With(s, id, NewOp(key, kind));
    NewOpInv(key, kind);
    forall p ensures Listed(t, p) {
      assert Listed(s, p);
    }
    forall k: Key, p: OpId, q: OpId | HoldsKey(t, p, k) && HoldsKey(t, q, k) ensures p == q {
      assert HoldsKey(s, p, k) && HoldsKey(s, q, k);
    }
    forall p ensures SnapshotInv(t, p) {
      SteadySnapshot(s, t, p);
    }
    forall c ensures CallInv(t, c) {
      SteadyCall(s, t, c);
    }
  }

  /** Only unreferenced mutexes are pruned, so nobody's reference loses its entry. */
  lemma {:induction false} PruneKeepsListed(s: State, id: OpId, p: OpId)
    requires MutexInv(s) && id in s.ops && p in s.ops && Strong(s.ops[p]).Some?
    ensures var k, m := s.ops[id].key, MutexFor(s, s.ops[id].key);
            s.ops[p].key in Pruned(s)[k := m] && Pruned(s)[k := m][s.ops[p].key] == Strong(s.ops[p]).value
  {
    assert Listed(s, p);
    assert IsLive(s, s.mutexes[s.ops[p].key]);
  }

  lemma {:induction false} FindMutexKeeps(s: State, id: OpId)
    requires Inv(s) && Enabled(s, FindMutex(id))
    ensures Inv(Apply(s, FindMutex(id)))
  {
    hide OpInv, SnapshotInv, CallInv;
    var t := Apply(s, FindMutex(id));
    var o := s.ops[id];
    var n := t.ops[id];
    assert OpInv(n) && Steady(o, n) && !Holds(n) by { FoundIsSteady(o, MutexFor(s, o.key)); }
    forall p ensures Listed(t, p) {
      if p in s.ops && p != id && Strong(s.ops[p]).Some? {
        PruneKeepsListed(s, id, p);
      }
    }
    assert Exclusive(t) by {
      forall k: Key, p: OpId, q: OpId | HoldsKey(t, p, k) && HoldsKey(t, q, k) ensures p == q {
        assert HoldsKey(s, p, k) && HoldsKey(s, q, k);
      }
    }
    SteadyOpKeeps(s, id, n, t);
  }

  lemma {:induction false} FoundIsSteady(o: Op, m: MutexId)
    requires OpInv(o) && o.stage.Unadmitted? && o.worker
    ensures OpInv(o.(stage := Locking(m))) && Steady(o, o.(stage := Locking(m))) && !Holds(o)
  {
  }

  lemma {:induction false} HolderIsHeld(o: Op)
    requires OpInv(o) && Holds(o)
    ensures o.stage.Held? && Strong(o) == Some(o.stage.mutex)
  {
  }

  /** Whoever holds a key's admission holds the mutex that a later attempt tries. */
  lemma {:induction false} HolderLocks(s: State, id: OpId, p: OpId)
    requires Inv(s) && id in s.ops && s.ops[id].stage.Locking? && HoldsKey(s, p, s.ops[id].key)
    ensures IsLocked(s, s.ops[id].stage.mutex)
  {
    HolderIsHeld(s.ops[p]);
    assert Listed(s, id) && Listed(s, p);
  }

  lemma {:induction false} RefusedIsSteady(o: Op)
    requires OpInv(o) && o.stage.Locking?
    ensures OpInv(o.(stage := Refused)) && Steady(o, o.(stage := Refused))
    ensures !Holds(o.(stage := Refused)) && Strong(o.(stage := Refused)).None?
  {
  }

  lemma {:induction false} TryLockKeeps(s: State, id: OpId)
    requires Inv(s) && Enabled(s, TryLock(id))
    ensures Inv(Apply(s, TryLock(id)))
  {
    hide OpInv, SnapshotInv, CallInv;
    var t := Apply(s, TryLock(id));
    var o, n := s.ops[id], t.ops[id];
    var m := o.stage.mutex;
    if IsLocked(s, m) {
      RefusedIsSteady(o);
    } else {
      GrantedInv(o, m);
    }
    forall p ensures Listed(t, p) {
      assert Listed(s, p) && Listed(s, id);
    }
    assert Exclusive(t) by {
      forall k: Key, p: OpId, q: OpId | HoldsKey(t, p, k) && HoldsKey(t, q, k) ensures p == q {
        if p != id && q != id {
          assert HoldsKey(s, p, k) && HoldsKey(s, q, k);
        } else if p != q {
          HolderLocks(s, id, if p == id then q else p);
          assert false;
        }
      }
    }
    SteadyOpKeeps(s, id, n, t);
  }

  lemma {:induction false} GuardedInv(o: Op, snapshot: set<OpId>)
    requires OpInv(o) && o.task.Reserving?
    ensures var n := o.(task := Committing(snapshot, false), guard := Armed);
            OpInv(n) && Strong(n) == Strong(o) && Holds(n) == Holds(o)
  {
  }

  lemma {:induction false} CreateGuardKeeps(s: State, id: OpId)
    requires Inv(s) && Enabled(s, CreateGuard(id))
    ensures Inv(Apply(s, CreateGuard(id)))
  {
    hide OpInv, Strong, Holds;
    var t := Apply(s, CreateGuard(id));
    var o := s.ops[id];
    var snapshot := RegisteredFor(s, o.key);
    GuardedInv(o, snapshot);
    assert MutexInv(t) by {
      forall p ensures Listed(t, p) {
        assert Listed(s, p);
      }
    }
    assert Exclusive(t) by {
      forall k: Key, p: OpId, q: OpId | HoldsKey(t, p, k) && HoldsKey(t, q, k) ensures p == q {
        assert HoldsKey(s, p, k) && HoldsKey(s, q, k);
      }
    }
    forall p ensures SnapshotInv(t, p) {
      NewSnapshot(s, id, p);
    }
    forall c ensures CallInv(t, c) {
      assert CallInv(s, c);
      ReservingIsUncalled(o);
    }
  }

  lemma {:induction false} ReservingIsUncalled(o: Op)
    requires OpInv(o)
    ensures o.task.Reserving? ==> o.guard != Abandoned && !o.registered
    ensures o.registered ==> o.guard == Abandoned
  {
  }

  /** The owners a reservation will recover were abandoned, and stay so. */
  lemma {:induction false} NewSnapshot(s: State, id: OpId, p: OpId)
    requires Inv(s) && Enabled(s, CreateGuard(id))
    ensures SnapshotInv(Apply(s, CreateGuard(id)), p)
  {
    hide OpInv;
    var t := Apply(s, CreateGuard(id));
    assert SnapshotInv(s, p);
    ReservingIsUncalled(s.ops[id]);
    if p in t.ops && t.ops[p].task.Committing? {
      forall q | q in t.ops[p].task.snapshot ensures IsPredecessor(t, p, q) {
        if p == id {
          ReservingIsUncalled(s.ops[q]);
        } else {
          assert IsPredecessor(s, p, q);
        }
      }
    }
  }

  /** A registry entry may go once the admission has been given up. */
  lemma {:induction false} UnregisterIsCalm(o: Op)
    requires OpInv(o) && o.guard == Abandoned && !o.owned
    ensures OpInv(o.(registered := false)) && Calm(o, o.(registered := false))
  {
  }

  lemma {:induction false} DeliveredIsCalm(o: Op)
    requires OpInv(o) && o.task.Committing?
    ensures OpInv(Delivered(o)) && Calm(o, Delivered(o)) && Holds(o)
  {
  }

  /** Every owner in a reservation's snapshot gave up its admission before the reservation was admitted. */
  lemma {:induction false} PredecessorIsSettled(s: State, id: OpId, p: OpId)
    requires Inv(s) && id in s.ops && s.ops[id].task.Committing? && p in s.ops[id].task.snapshot
    ensures IsPredecessor(s, id, p) && !s.ops[p].owned && s.ops[p].row != Running
  {
    assert SnapshotInv(s, id) && IsPredecessor(s, id, p);
    DeliveredIsCalm(s.ops[id]);
    var k := s.ops[id].key;
    assert HoldsKey(s, id, k) && !HoldsKey(s, p, k);
  }

  /** Changes to many operations at once, each of them calm. */
  lemma {:induction false} AllCalmKeeps(s: State, t: State)
    requires Inv(s) && t.mutexes == s.mutexes && t.nextMutex == s.nextMutex && t.calls == s.calls
    requires t.ops.Keys == s.ops.Keys && OpsInv(t)
    requires forall id :: id in s.ops ==> Calm(s.ops[id], t.ops[id])
    ensures Inv(t)
  {
    hide OpInv, SnapshotInv, CallInv, OpsInv;
    forall p ensures Listed(t, p) {
      assert Listed(s, p);
    }
    forall k: Key, p: OpId, q: OpId | HoldsKey(t, p, k) && HoldsKey(t, q, k) ensures p == q {
      assert HoldsKey(s, p, k) && HoldsKey(s, q, k);
    }
    forall p ensures SnapshotInv(t, p) {
      SteadySnapshot(s, t, p);
    }
    forall c ensures CallInv(t, c) {
      SteadyCall(s, t, c);
    }
  }

  lemma {:induction false} CommitAckKeeps(s: State, id: OpId)
    requires Inv(s) && Enabled(s, CommitAck(id))
    ensures Inv(Apply(s, CommitAck(id)))
  {
    hide OpInv, Calm, Delivered, SnapshotInv, CallInv, MutexInv, Exclusive;
    var t := Apply(s, CommitAck(id));
    var snapshot := s.ops[id].task.snapshot;
    DeliveredIsCalm(s.ops[id]);
    forall p | p in s.ops ensures OpInv(t.ops[p]) && Calm(s.ops[p], t.ops[p]) {
      if p != id && p in snapshot {
        PredecessorIsSettled(s, id, p);
        UnregisterIsCalm(s.ops[p]);
      } else if p != id {
        CalmRefl(s.ops[p]);
      }
    }
    AllCalmKeeps(s, t);
  }

  lemma {:induction false} CalmRefl(o: Op)
    ensures Calm(o, o)
  {
  }

  lemma {:induction false} FailedIsCalm(o: Op)
    requires OpInv(o) && o.guard == Abandoned
    ensures OpInv(FailedOp(o)) && Calm(o, FailedOp(o))
  {
  }

  lemma {:induction false} SettledIsCalm(o: Op)
    requires OpInv(o) && o.guard == Abandoned && o.row != Running
    ensures OpInv(SettledOp(o)) && Calm(o, SettledOp(o)) && !SettledOp(o).owned
    ensures SettledOp(o).guard == Abandoned && SettledOp(o).row == o.row
  {
  }

  lemma {:induction false} InterruptKeeps(s: State, c: CallId, id: OpId)
    requires Inv(s) && Enabled(s, Interrupt(c, id))
    ensures Inv(Apply(s, Interrupt(c, id)))
  {
    hide OpsInv, MutexInv, Exclusive, SnapshotInv;
    var t := Apply(s, Interrupt(c, id));
    forall d ensures CallInv(t, d) {
      assert CallInv(s, d);
    }
    CallsKeep(s, t.calls);
  }

  lemma {:induction false} AnswerKeeps(s: State, c: CallId, ok: bool)
    requires Inv(s) && Enabled(s, Answer(c, ok))
    ensures Inv(Apply(s, Answer(c, ok)))
  {
    hide OpsInv, MutexInv, Exclusive, SnapshotInv;
    var t := Apply(s, Answer(c, ok));
    forall d ensures CallInv(t, d) {
      assert CallInv(s, d) && CallInv(s, c);
    }
    CallsKeep(s, t.calls);
  }

  lemma {:induction false} RecordFailureKeeps(s: State, c: CallId)
    requires Inv(s) && Enabled(s, RecordFailure(c))
    ensures Inv(Apply(s, RecordFailure(c)))
  {
    hide OpInv, Calm, FailedOp, MutexInv, Exclusive, SnapshotInv;
    var id := s.calls[c].op;
    assert CallInv(s, c);
    FailedIsCalm(s.ops[id]);
    var u := With(s, id, FailedOp(s.ops[id]));
    CalmKeeps(s, id, FailedOp(s.ops[id]));
    forall d ensures CallInv(u.(calls := s.calls - {c}), d) {
      assert CallInv(u, d);
    }
    CallsKeep(u, s.calls - {c});
  }

  lemma {:induction false} SettleKeeps(s: State, c: CallId)
    requires Inv(s) && Enabled(s, Settle(c))
    ensures Inv(Apply(s, Settle(c)))
  {
    hide OpInv, Calm, SettledOp, MutexInv, Exclusive, SnapshotInv;
    var id := s.calls[c].op;
    assert CallInv(s, c);
    SettledIsCalm(s.ops[id]);
    var u := With(s, id, SettledOp(s.ops[id]));
    CalmKeeps(s, id, SettledOp(s.ops[id]));
    var calls := s.calls[c := Settled(id)];
    forall d ensures CallInv(u.(calls := calls), d) {
      assert CallInv(u, d);
    }
    CallsKeep(u, calls);
  }

  lemma {:induction false} ForgetKeeps(s: State, c: CallId)
    requires Inv(s) && Enabled(s, Forget(c))
    ensures Inv(Apply(s, Forget(c)))
  {
    hide OpInv, Calm, MutexInv, Exclusive, SnapshotInv;
    var id := s.calls[c].op;
    assert CallInv(s, c);
    UnregisterIsCalm(s.ops[id]);
    var u := With(s, id, s.ops[id].(registered := false));
    CalmKeeps(s, id, s.ops[id].(registered := false));
    forall d ensures CallInv(u.(calls := s.calls - {c}), d) {
      assert CallInv(u, d);
    }
    CallsKeep(u, s.calls - {c});
  }

  lemma {:induction false} StepKeeps(s: State, step: Step)
    requires Inv(s) && Enabled(s, step)
    ensures Inv(Apply(s, step))
  {
    hide OpInv, Calm, MutexInv, Exclusive, SnapshotInv, CallInv, ActionEnabled, Act;
    match step
    case Start(id, key, kind) => StartKeeps(s, id, key, kind);
    case FindMutex(id) => FindMutexKeeps(s, id);
    case TryLock(id) => TryLockKeeps(s, id);
    case CreateGuard(id) => CreateGuardKeeps(s, id);
    case CommitAck(id) => CommitAckKeeps(s, id);
    case Local(id, a) =>
      ActKeeps(s.ops[id], a);
      CalmKeeps(s, id, Act(s.ops[id], a));
    case Interrupt(c, id) => InterruptKeeps(s, c, id);
    case Answer(c, ok) => AnswerKeeps(s, c, ok);
    case RecordFailure(c) => RecordFailureKeeps(s, c);
    case Settle(c) => SettleKeeps(s, c);
    case Forget(c) => ForgetKeeps(s, c);
  }

  /** Every reachable state satisfies the invariant. */
  lemma {:induction false} RunInv(steps: seq<Step>)
    ensures After(steps).Some? ==> Inv(After(steps).value)
  {
    if steps == [] {
      InitialInv();
    } else if After(steps).Some? {
      hide Apply, Enabled, Inv;
      RunInv(steps[..|steps| - 1]);
      StepKeeps(After(steps[..|steps| - 1]).value, steps[|steps| - 1]);
    }
  }

  lemma {:induction false} InitialInv()
    ensures Inv(INITIAL)
  {
  }
}
