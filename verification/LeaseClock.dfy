/**
 * Turn leases of one session shared by several processes: expiries are stored in whole seconds, while each
 * process trusts a deadline of its own, renews it, and recovers turns whose stored expiry has passed.
 */
module LeaseClock {
  import opened Prelude

  const SECOND: int := 1000
  const LEASE_SECONDS: int := 300
  const RENEWAL_INTERVAL: int := 100 * SECOND

  type OwnerId = nat

  /** A clock reading in milliseconds rounds down to the stored second. */
  function Seconds(t: Instant): int { t / SECOND }

  /** The expiry stored for a lease granted at wall-clock time `ts`. */
  function Expiry(ts: Instant): int { Seconds(ts) + LEASE_SECONDS }

  /** The deadline a process trusts for a lease requested at `d`: one second short of the lease. */
  function LocalDeadline(d: Instant): Instant { d + (LEASE_SECONDS - 1) * SECOND }

  /** When the monitor renews: after the interval, or halfway to the deadline when that is nearer. */
  function RenewAt(confirmedAt: Instant, confirmed: Instant): Instant {
    confirmedAt + Min(RENEWAL_INTERVAL, (if confirmed > confirmedAt then confirmed - confirmedAt else 0) / 2)
  }

  datatype RowStatus = Running | Settled

  datatype Row = Row(status: RowStatus, expires: int)

  /** Reserved: not yet acknowledged. Active: the model may run. Finalizing: the terminal write is under way. */
  datatype Phase = Reserved | Active | Finalizing | Finished | Dropped(finalizing: bool)

  /**
   * The renewal loop of an activated guard, since its last confirmation: waiting for its moment, asking the store,
   * or with a renewed deadline that is stored but not yet seen.
   */
  datatype Monitor =
    | Unmonitored
    | Waiting(confirmedAt: Instant)
    | Renewing(confirmedAt: Instant, startedAt: Instant)
    | Renewed(confirmedAt: Instant, renewed: Instant)

  datatype Guard = Guard(phase: Phase, deadline: Instant, monitor: Monitor, confirmations: nat)

  datatype State = State(now: Instant, lastCommit: Instant, rows: map<OwnerId, Row>, guards: map<OwnerId, Guard>)

  const INITIAL: State := State(0, 0, map[], map[])

  /**
   * A write transaction reads its deadline clock `d` and then its timestamp `ts` while it holds the writer lock,
   * so after every earlier commit. A recovery reads `r` before it has the lock, so `r` may be older than that.
   */
  datatype Step =
    | Tick(elapsed: nat)
    | Reserve(owner: OwnerId, d: Instant, ts: Instant)
    | Acknowledge(owner: OwnerId)
    | Activate(owner: OwnerId)
    | StartRenewal(owner: OwnerId)
    | Renew(owner: OwnerId, d: Instant, ts: Instant)
    | Confirm(owner: OwnerId)
    | Recover(r: Instant)
    | StartFinal(owner: OwnerId)
    | Complete(owner: OwnerId, ts: Instant)
    | Drop(owner: OwnerId)
    | Interrupt(owner: OwnerId)

  predicate InLock(s: State, d: Instant, ts: Instant) {
    s.lastCommit <= d <= ts <= s.now
  }

  predicate IsRunning(s: State, o: OwnerId) {
    o in s.rows && s.rows[o].status == Running
  }

  predicate HasPhase(s: State, o: OwnerId, phase: Phase) {
    o in s.guards && s.guards[o].phase == phase
  }

  /** The guard has not ended its turn. */
  predicate Live(phase: Phase) {
    phase.Reserved? || phase.Active? || phase.Finalizing?
  }

  predicate Enabled(s: State, step: Step) {
    match step
    case Tick(_) => true
    case Reserve(o, d, ts) =>
      && o !in s.rows && o !in s.guards && InLock(s, d, ts)
      && forall p :: p in s.rows ==> s.rows[p].status != Running
    case Acknowledge(o) => HasPhase(s, o, Reserved) && s.now < s.guards[o].deadline
    case Activate(o) => HasPhase(s, o, Active) && s.guards[o].monitor.Unmonitored?
    case StartRenewal(o) =>
      && HasPhase(s, o, Active) && s.guards[o].monitor.Waiting?
      && RenewAt(s.guards[o].monitor.confirmedAt, s.guards[o].deadline) <= s.now < s.guards[o].deadline
    case Renew(o, d, ts) =>
      && o in s.guards && s.guards[o].monitor.Renewing? && s.guards[o].monitor.startedAt <= d
      && IsRunning(s, o) && InLock(s, d, ts) && s.rows[o].expires > Seconds(ts)
    case Confirm(o) => HasPhase(s, o, Active) && s.guards[o].monitor.Renewed? && s.now < s.guards[o].deadline
    case Recover(r) => r <= s.now
    case StartFinal(o) => HasPhase(s, o, Active) && s.guards[o].monitor.Waiting? && s.now < s.guards[o].deadline
    case Complete(o, ts) =>
      && (HasPhase(s, o, Finalizing) || HasPhase(s, o, Dropped(true)))
      && IsRunning(s, o) && InLock(s, ts, ts) && s.rows[o].expires > Seconds(ts)
    case Drop(o) => o in s.guards && Live(s.guards[o].phase)
    case Interrupt(o) => o in s.guards && s.guards[o].phase.Dropped?
  }

  function Stale(row: Row, r: Instant): bool {
    row.status == Running && row.expires <= Seconds(r)
  }

  function Settle(s: State, o: OwnerId): map<OwnerId, Row> {
    if o in s.rows then s.rows[o := s.rows[o].(status := Settled)] else s.rows
  }

  function WithPhase(s: State, o: OwnerId, phase: Phase): map<OwnerId, Guard>
    requires o in s.guards
  {
    s.guards[o := s.guards[o].(phase := phase)]
  }

  function WithMonitor(s: State, o: OwnerId, monitor: Monitor): map<OwnerId, Guard>
    requires o in s.guards
  {
    s.guards[o := s.guards[o].(monitor := monitor)]
  }

  function Apply(s: State, step: Step): State
    requires Enabled(s, step)
  {
    match step
    case Tick(elapsed) => s.(now := s.now + elapsed)
    case Reserve(o, d, ts) =>
      s.(lastCommit := s.now,
         rows := s.rows[o := Row(Running, Expiry(ts))],
         guards := s.guards[o := Guard(Reserved, LocalDeadline(d), Unmonitored, 0)])
    case Acknowledge(o) => s.(guards := WithPhase(s, o, Active))
    case Activate(o) => s.(guards := WithMonitor(s, o, Waiting(s.now)))
    case StartRenewal(o) => s.(guards := WithMonitor(s, o, Renewing(s.guards[o].monitor.confirmedAt, s.now)))
    case Renew(o, d, ts) =>
      s.(lastCommit := s.now,
         rows := s.rows[o := Row(Running, Expiry(ts))],
         guards := WithMonitor(s, o, Renewed(s.guards[o].monitor.confirmedAt, LocalDeadline(d))))
    case Confirm(o) =>
      var g := s.guards[o];
      s.(guards := s.guards[o := Guard(g.phase, g.monitor.renewed, Waiting(s.now), g.confirmations + 1)])
    case Recover(r) =>
      s.(lastCommit := s.now,
         rows := map o | o in s.rows :: if Stale(s.rows[o], r) then s.rows[o].(status := Settled) else s.rows[o])
    case StartFinal(o) => s.(guards := WithPhase(s, o, Finalizing))
    case Complete(o, ts) =>
      s.(lastCommit := s.now, rows := Settle(s, o),
         guards := if s.guards[o].phase == Finalizing then WithPhase(s, o, Finished) else s.guards)
    case Drop(o) => s.(guards := WithPhase(s, o, Dropped(s.guards[o].phase.Finalizing?)))
    case Interrupt(o) => s.(lastCommit := s.now, rows := Settle(s, o))
  }

  /** While the row runs the promise `p` ends before its stored expiry; while the promise lasts the row runs. */
  predicate Backed(row: Row, phase: Phase, now: Instant, p: Instant) {
    && (row.status == Running ==> p <= SECOND * row.expires)
    && (Live(phase) && now < p ==> row.status == Running)
  }

  /** Every deadline the owner trusts, or will trust once an acknowledgment arrives, is backed by its row. */
  ghost predicate Covered(s: State, o: OwnerId) {
    o in s.guards ==>
      && o in s.rows
      && Backed(s.rows[o], s.guards[o].phase, s.now, s.guards[o].deadline)
      && (s.guards[o].monitor.Renewed? ==>
            Backed(s.rows[o], s.guards[o].phase, s.now, s.guards[o].monitor.renewed))
  }

  /** Deadlines and renewals move forward only: every promise was taken before the last commit, none before its turn. */
  predicate Scheduled(g: Guard, now: Instant, lastCommit: Instant) {
    && g.deadline <= LocalDeadline(lastCommit)
    && (g.monitor.Unmonitored? ==> g.confirmations == 0)
    && (!g.monitor.Unmonitored? ==>
          g.monitor.confirmedAt <= now && (g.confirmations > 0 ==> g.monitor.confirmedAt < g.deadline))
    && (g.monitor.Renewing? ==> RenewAt(g.monitor.confirmedAt, g.deadline) <= g.monitor.startedAt)
    && (g.monitor.Renewed? ==>
          && g.deadline <= g.monitor.renewed <= LocalDeadline(lastCommit)
          && LocalDeadline(RenewAt(g.monitor.confirmedAt, g.deadline)) <= g.monitor.renewed)
  }

  ghost predicate AllScheduled(s: State) {
    forall o :: o in s.guards ==> Scheduled(s.guards[o], s.now, s.lastCommit)
  }

  ghost predicate OneRunning(s: State) {
    forall o, q :: IsRunning(s, o) && IsRunning(s, q) ==> o == q
  }

  ghost predicate Inv(s: State) {
    && s.lastCommit <= s.now
    && (forall o :: Covered(s, o))
    && (forall o :: IsRunning(s, o) ==> s.rows[o].expires <= Expiry(s.lastCommit))
    && OneRunning(s)
    && AllScheduled(s)
  }

  lemma {:induction false} NoNewRunning(s: State, t: State)
    requires OneRunning(s) && forall o :: IsRunning(t, o) ==> IsRunning(s, o)
    ensures OneRunning(t)
  {
  }

  lemma {:induction false} SecondsMonotone(a: Instant, b: Instant)
    requires a <= b
    ensures Seconds(a) <= Seconds(b)
  {
  }

  /** A promise never outlives the stored expiry, whatever the fractions of a second were. */
  lemma {:induction false} PromiseWithinExpiry(d: Instant, ts: Instant)
    requires d <= ts
    ensures LocalDeadline(d) <= SECOND * Expiry(ts)
  {
  }

  predicate PromiseFits(d: Instant, ts: Instant, slack: int) {
    d + LEASE_SECONDS * SECOND - slack <= SECOND * Expiry(ts)
  }

  /** Shortening the local lease by `slack` milliseconds is safe for every pair of readings exactly from 999 on. */
  lemma {:induction false} SlackNeeded(slack: int)
    ensures (forall d: Instant, ts: Instant :: d <= ts ==> PromiseFits(d, ts, slack)) <==> slack >= 999
  {
    if slack < 999 {
      assert !PromiseFits(999, 999, slack);
    }
  }

  /** A stale reading that finds the row expired was taken after every promise had ended. */
  lemma {:induction false} StaleMeansOver(row: Row, phase: Phase, now: Instant, p: Instant, r: Instant)
    requires r <= now && Backed(row, phase, now, p) && Stale(row, r)
    ensures p <= now
  {
    assert SECOND * row.expires <= r;
  }

  lemma {:induction false} ReserveKeeps(s: State, o: OwnerId, d: Instant, ts: Instant)
    requires Inv(s) && Enabled(s, Reserve(o, d, ts))
    ensures Inv(Apply(s, Reserve(o, d, ts)))
  {
    var t := Apply(s, Reserve(o, d, ts));
    PromiseWithinExpiry(d, ts);
    SecondsMonotone(ts, t.lastCommit);
    forall q ensures Covered(t, q) {
      assert Covered(s, q);
    }
  }

  lemma {:induction false} RenewKeeps(s: State, o: OwnerId, d: Instant, ts: Instant)
    requires Inv(s) && Enabled(s, Renew(o, d, ts))
    ensures Inv(Apply(s, Renew(o, d, ts)))
  {
    var t := Apply(s, Renew(o, d, ts));
    PromiseWithinExpiry(d, ts);
    SecondsMonotone(ts, t.lastCommit);
    SecondsMonotone(s.lastCommit, ts);
    assert s.rows[o].expires <= t.rows[o].expires;
    forall q ensures Covered(t, q) {
      assert Covered(s, q);
    }
    NoNewRunning(s, t);
  }

  lemma {:induction false} RecoverKeeps(s: State, r: Instant)
    requires Inv(s) && Enabled(s, Recover(r))
    ensures Inv(Apply(s, Recover(r)))
  {
    var t := Apply(s, Recover(r));
    SecondsMonotone(s.lastCommit, t.lastCommit);
    forall q ensures Covered(t, q) {
      assert Covered(s, q);
      if q in s.guards && Stale(s.rows[q], r) {
        var phase := s.guards[q].phase;
        StaleMeansOver(s.rows[q], phase, s.now, s.guards[q].deadline, r);
        if s.guards[q].monitor.Renewed? {
          StaleMeansOver(s.rows[q], phase, s.now, s.guards[q].monitor.renewed, r);
        }
      }
    }
    NoNewRunning(s, t);
  }

  /** Settling a row is allowed once no live guard relies on it. */
  lemma {:induction false} SettleKeeps(s: State, o: OwnerId, guards: map<OwnerId, Guard>)
    requires Inv(s) && o in s.guards
    requires guards == s.guards || exists phase :: guards == WithPhase(s, o, phase)
    requires !Live(guards[o].phase)
    ensures Inv(s.(lastCommit := s.now, rows := Settle(s, o), guards := guards))
  {
    var t := s.(lastCommit := s.now, rows := Settle(s, o), guards := guards);
    SecondsMonotone(s.lastCommit, s.now);
    forall q ensures Covered(t, q) {
      assert Covered(s, q);
    }
    NoNewRunning(s, t);
  }

  lemma {:induction false} GuardStepKeeps(s: State, step: Step)
    requires Inv(s) && Enabled(s, step)
    requires step.Tick? || step.Acknowledge? || step.Activate? || step.StartRenewal? || step.Confirm?
             || step.StartFinal? || step.Drop?
    ensures Inv(Apply(s, step))
  {
    var t := Apply(s, step);
    forall q ensures Covered(t, q) {
      assert Covered(s, q);
    }
    NoNewRunning(s, t);
  }

  lemma {:induction false} StepKeeps(s: State, step: Step)
    requires Inv(s) && Enabled(s, step)
    ensures Inv(Apply(s, step))
  {
    match step
    case Reserve(o, d, ts) => ReserveKeeps(s, o, d, ts);
    case Renew(o, d, ts) => RenewKeeps(s, o, d, ts);
    case Recover(r) => RecoverKeeps(s, r);
    case Complete(o, _) =>
      if s.guards[o].phase == Finalizing {
        assert WithPhase(s, o, Finished) == WithPhase(s, o, Finished);
        SettleKeeps(s, o, WithPhase(s, o, Finished));
      } else {
        SettleKeeps(s, o, s.guards);
      }
    case Interrupt(o) => SettleKeeps(s, o, s.guards);
    case _ => GuardStepKeeps(s, step);
  }

  /** The state after a run; none when some step was not enabled when it was taken. */
  function After(steps: seq<Step>): Option<State> {
    if steps == [] then Some(INITIAL)
    else
      var before := After(steps[..|steps| - 1]);
      if before.Some? && Enabled(before.value, steps[|steps| - 1])
      then Some(Apply(before.value, steps[|steps| - 1]))
      else None
  }

  lemma {:induction false} RunInv(steps: seq<Step>)
    ensures After(steps).Some? ==> Inv(After(steps).value)
  {
    hide Apply, Enabled;
    if steps != [] && After(steps).Some? {
      RunInv(steps[..|steps| - 1]);
      StepKeeps(After(steps[..|steps| - 1]).value, steps[|steps| - 1]);
    }
  }

  /** The step ends the owner's running row. */
  predicate EndsRow(s: State, step: Step, o: OwnerId) {
    match step
    case Complete(q, _) => q == o
    case Interrupt(q) => q == o
    case Recover(r) => o in s.rows && s.rows[o].expires <= Seconds(r)
    case _ => false
  }

  /** A row runs from its reservation until its completion, its cleanup, or a recovery that finds it expired. */
  lemma {:induction false} RowFollowsSteps(s: State, step: Step, o: OwnerId)
    requires Enabled(s, step)
    ensures IsRunning(Apply(s, step), o) <==>
            (step.Reserve? && step.owner == o) || (IsRunning(s, o) && !EndsRow(s, step, o))
    ensures IsRunning(Apply(s, step), o) ==>
              Apply(s, step).rows[o].expires ==
              if (step.Reserve? || step.Renew?) && step.owner == o then Expiry(step.ts) else s.rows[o].expires
  {
  }

  /** A deadline is promised only by a reservation or a renewal, 299 seconds after its own reading, and seen as promised. */
  lemma {:induction false} PromiseFollowsSteps(s: State, step: Step, o: OwnerId)
    requires Enabled(s, step) && o in Apply(s, step).guards
    ensures var n := Apply(s, step).guards[o];
            && n.deadline == (if step.Reserve? && step.owner == o then step.d + 299 * SECOND
                              else if step.Confirm? && step.owner == o then s.guards[o].monitor.renewed
                              else s.guards[o].deadline)
            && (n.monitor.Renewed? ==>
                  n.monitor.renewed == if step.Renew? && step.owner == o then step.d + 299 * SECOND
                                       else s.guards[o].monitor.renewed)
  {
  }

  /** After a recovery no running row has an expiry at or below the second it was read against. */
  lemma {:induction false} RecoverEndsExpired(s: State, r: Instant, o: OwnerId)
    requires Enabled(s, Recover(r))
    ensures IsRunning(Apply(s, Recover(r)), o) <==> IsRunning(s, o) && s.rows[o].expires > Seconds(r)
  {
    RowFollowsSteps(s, Recover(r), o);
  }

  /** In no run does any process recover a turn whose owner still trusts an unexpired deadline. */
  lemma {:induction false} NeverRecoveredEarly(steps: seq<Step>, s: State, o: OwnerId, r: Instant)
    requires After(steps) == Some(s) && Enabled(s, Recover(r))
    requires o in s.guards && Live(s.guards[o].phase) && s.now < s.guards[o].deadline
    ensures IsRunning(Apply(s, Recover(r)), o)
  {
    RunInv(steps);
    assert Covered(s, o);
    assert r < SECOND * s.rows[o].expires;
  }

  /** In no run do two turns of the session execute at the same time. */
  lemma {:induction false} OneExecutor(steps: seq<Step>, s: State, o: OwnerId, q: OwnerId)
    requires After(steps) == Some(s)
    requires HasPhase(s, o, Active) && s.now < s.guards[o].deadline
    requires HasPhase(s, q, Active) && s.now < s.guards[q].deadline
    ensures o == q
  {
    RunInv(steps);
    assert Covered(s, o) && Covered(s, q);
    assert IsRunning(s, o) && IsRunning(s, q);
  }

  /** A terminal write that runs before the trusted deadline is never refused for lost ownership. */
  lemma {:induction false} FinalWriteInTime(steps: seq<Step>, s: State, o: OwnerId, ts: Instant)
    requires After(steps) == Some(s)
    requires HasPhase(s, o, Finalizing) && s.now < s.guards[o].deadline
    requires s.lastCommit <= ts <= s.now
    ensures Enabled(s, Complete(o, ts))
  {
    RunInv(steps);
    assert Covered(s, o);
  }

  /** When the next renewal of an activated guard is scheduled. */
  function NextRenewal(g: Guard): Instant
    requires !g.monitor.Unmonitored?
  {
    RenewAt(g.monitor.confirmedAt, g.deadline)
  }

  /**
   * In every run, through any number of renewals, the next renewal is scheduled no later than the trusted deadline.
   * The only exception is a guard never renewed yet that was activated too late, whose deadline is already over.
   */
  lemma {:induction false} RenewalIsScheduledInTime(steps: seq<Step>, s: State, o: OwnerId)
    requires After(steps) == Some(s) && o in s.guards && !s.guards[o].monitor.Unmonitored?
    ensures var g := s.guards[o];
            && (g.confirmations > 0 ==> NextRenewal(g) <= g.deadline)
            && (NextRenewal(g) <= g.deadline <==> g.monitor.confirmedAt <= g.deadline)
            && (NextRenewal(g) > g.deadline ==> g.confirmations == 0 && s.now > g.deadline)
            && g.monitor.confirmedAt <= NextRenewal(g) <= g.monitor.confirmedAt + RENEWAL_INTERVAL
  {
    RunInv(steps);
    assert Scheduled(s.guards[o], s.now, s.lastCommit);
  }

  /** A confirmation moves the deadline forward, to a whole local lease past the moment it was scheduled for. */
  lemma {:induction false} ConfirmationExtends(steps: seq<Step>, s: State, o: OwnerId)
    requires After(steps) == Some(s) && Enabled(s, Confirm(o))
    ensures var g, n := s.guards[o], Apply(s, Confirm(o)).guards[o];
            && n.deadline >= g.deadline && n.deadline >= LocalDeadline(NextRenewal(g))
            && NextRenewal(n) <= n.deadline
  {
    RunInv(steps);
    assert Scheduled(s.guards[o], s.now, s.lastCommit);
  }

  /** A renewal answered within half of what was left at the last confirmation, counted from its schedule, is in time. */
  lemma {:induction false} RenewalArrivesInTime(steps: seq<Step>, s: State, o: OwnerId, latency: nat)
    requires After(steps) == Some(s) && HasPhase(s, o, Active) && s.guards[o].monitor.Renewed?
    requires 2 * latency < s.guards[o].deadline - s.guards[o].monitor.confirmedAt
    requires s.now <= NextRenewal(s.guards[o]) + latency
    ensures Enabled(s, Confirm(o)) && IsRunning(s, o)
  {
    RunInv(steps);
    assert Covered(s, o);
  }

  lemma {:induction false} StepNeverMovesBack(s: State, step: Step, o: OwnerId)
    requires Inv(s) && Enabled(s, step) && o in s.guards
    ensures o in Apply(s, step).guards && s.guards[o].deadline <= Apply(s, step).guards[o].deadline
  {
    hide Covered, OneRunning;
    assert Scheduled(s.guards[o], s.now, s.lastCommit);
  }

  /** The deadline an owner trusts never moves back. */
  lemma {:induction false} DeadlineNeverMovesBack(steps: seq<Step>, k: nat, s: State, t: State, o: OwnerId)
    requires k <= |steps| && After(steps[..k]) == Some(s) && After(steps) == Some(t) && o in s.guards
    ensures o in t.guards && s.guards[o].deadline <= t.guards[o].deadline
    decreases |steps|
  {
    if k == |steps| {
      assert steps[..k] == steps;
    } else {
      var front := steps[..|steps| - 1];
      assert front[..k] == steps[..k];
      var u := After(front).value;
      hide Apply, Enabled;
      DeadlineNeverMovesBack(front, k, s, u, o);
      RunInv(front);
      StepNeverMovesBack(u, steps[|steps| - 1], o);
    }
  }
}
