/** The mutable objects behind the coordination steps: the weak mutex table and the admitting store decorator. */
module AdmittedStore {
  import opened TurnControls
  import opened Coordination

  class AdmissionTable {
    var entries: map<Key, MutexId>
    var next: MutexId

    constructor ()
      ensures entries == INITIAL.mutexes && next == INITIAL.nextMutex
    {
      entries, next := map[], 0;
    }

    /** Drops dead entries, reuses the key's live mutex or creates one, and lists it. */
    method Find(k: Key, live: set<MutexId>, ghost s: State) returns (m: MutexId)
      requires entries == s.mutexes && next == s.nextMutex
      requires forall i: MutexId :: i in live <==> IsLive(s, i)
      requires forall l :: l in entries ==> entries[l] < next
      modifies this
      ensures m == MutexFor(s, k) && entries == Pruned(s)[k := m]
      ensures next == if m == old(next) then m + 1 else old(next)
    {
      entries := map l | l in entries && entries[l] in live :: entries[l];
      assert entries == Pruned(s);
      if k in entries {
        m := entries[k];
      } else {
        m, next := next, next + 1;
      }
      entries := entries[k := m];
    }
  }

  /** Keeps a turn's admission and settlement lease until its persistence is acknowledged. */
  class Decorator {
    const controlled: bool
    var admission: bool
    var lease: bool
    var settlement: Settlement

    /** The fields are those of operation `o`. */
    ghost predicate Reflects(o: Op)
      reads this
    {
      && o.owned == admission && o.lease == lease && o.settlement == settlement
      && (lease ==> settlement.pending > 0)
      && (!controlled ==> !settlement.failure)
    }

    constructor (controlled: bool, settlement: Settlement)
      requires !controlled ==> !settlement.failure
      ensures this.controlled == controlled && admission && lease == controlled
      ensures this.settlement == if controlled then settlement.(pending := settlement.pending + 1) else settlement
    {
      this.controlled, admission, lease := controlled, true, controlled;
      this.settlement := if controlled then settlement.(pending := settlement.pending + 1) else settlement;
    }

    /** Runs under the lease lock; only an acknowledged end gives anything up. */
    method Settle(ok: bool, ghost o: Op)
      requires Reflects(o)
      modifies this
      ensures Reflects(if ok then SettledOp(o) else o)
      ensures ok ==> !admission && !lease && !settlement.failure
      ensures ok ==> settlement.pending == old(settlement.pending) - (if old(lease) then 1 else 0)
      ensures !ok ==> admission == old(admission) && lease == old(lease) && settlement == old(settlement)
    {
      if ok {
        if controlled {
          settlement := settlement.(failure := false);
        }
        admission := false;
        if lease {
          settlement := settlement.(pending := settlement.pending - 1);
        }
        lease := false;
      }
    }

    /** An interruption's answer: a failure is recorded only under a lease that is still held. */
    method Interrupted(ok: bool, ghost o: Op)
      requires Reflects(o)
      modifies this
      ensures Reflects(if ok then SettledOp(o) else if controlled then FailedOp(o) else o)
      ensures !ok ==> admission == old(admission) && lease == old(lease) && settlement.pending == old(settlement.pending)
      ensures !ok ==> (settlement.failure <==> old(settlement.failure) || (old(lease) && controlled))
      ensures ok ==> !admission && !lease && !settlement.failure
    {
      if !ok && lease && controlled {
        settlement := settlement.(failure := true);
      }
      Settle(ok, if ok || !controlled then o else FailedOp(o));
    }
  }
}
