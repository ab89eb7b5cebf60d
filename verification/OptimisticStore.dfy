/**
 * SQLite acquisition and model switching: a snapshot read outside the writer transaction,
 * revalidated by a small revision under it, against any transactions committed in between.
 */
module OptimisticStore {
  import opened Prelude
  import opened Messages
  import opened BoundedHistory
  import opened SessionRecords
  import opened StoreRuns

  // ---------- transactions of other handles ----------

  /** One committed writer transaction on a session, by any handle or process. */
  datatype Transaction =
    | RecoverStale(now: Instant)
    | InterruptOwner(owner: Owner, reason: string)
    | CompleteOwner(owner: Owner, messages: Turn, continuation: Option<string>, outcome: Option<Outcome>, now: Instant)
    | FailOwner(owner: Owner, errorType: string, now: Instant)
    | RenewOwner(owner: Owner, now: Instant, renewal: Instant)
    | Reserve(owner: Owner, submission: Submission, deadline: Instant)
    | Select(selection: Selection)

  /** Some turn holds this host identifier. */
  predicate HoldsRequest(turns: seq<TurnRecord>, request: Option<HostRequest>) {
    request.Some? && exists i :: 0 <= i < |turns| && HasRequest(turns[i], request.value.id)
  }

  /** Unique indexes on active turns and on host identifiers make a second row fail; a switch needs an idle session. */
  function Commit(r: Record, t: Transaction): Record {
    match t
    case RecoverStale(now) => Recovered(r, now)
    case InterruptOwner(owner, reason) => Interrupt(r, owner, reason)
    case CompleteOwner(owner, messages, continuation, outcome, now) =>
      Complete(r, owner, messages, continuation, outcome, now).0
    case FailOwner(owner, errorType, now) => Fail(r, owner, errorType, now).0
    case RenewOwner(owner, now, renewal) => Renew(r, owner, now, renewal).0
    case Reserve(owner, s, deadline) =>
      if LastRunning(r) || HoldsRequest(r.turns, s.request) then r
      else Reserved(r, owner, s.input, s.options, s.request, deadline)
    case Select(selection) => if LastRunning(r) then r else r.(config := Selected(r.config, selection))
  }

  function CommitAll(r: Record, ts: seq<Transaction>): Record {
    if ts == [] then r else Commit(CommitAll(r, ts[..|ts| - 1]), ts[|ts| - 1])
  }

  /** Only the newest turn can be active, and host identifiers are unique, with outcomes once completed. */
  ghost predicate Consistent(r: Record) {
    && r.nextTurn == |r.turns|
    && (forall i :: 0 <= i < |r.turns| - 1 ==> r.turns[i].status != Running)
    && Requests(r)
  }

  lemma {:induction false} UpdateLastKeeps(r: Record, turn: TurnRecord, continuation: Option<string>)
    requires Consistent(r) && LastRunning(r)
    requires turn.owner == Last(r).owner && turn.model == Last(r).model
    requires turn.options == Last(r).options && turn.request == Last(r).request
    requires turn.status == Completed && turn.request.Some? ==> turn.outcome.Some?
    ensures var next := WithLast(r, turn).(config := r.config.(continuation := continuation));
            Consistent(next) && Extends(r, next)
  {
    var next := WithLast(r, turn).(config := r.config.(continuation := continuation));
    forall i | 0 <= i < |r.turns| ensures KeepsTurn(r.turns[i], next.turns[i]) {}
  }

  lemma {:induction false} ReservedConsistent(r: Record, owner: Owner, s: Submission, deadline: Instant)
    requires Consistent(r) && !LastRunning(r) && !HoldsRequest(r.turns, s.request)
    ensures var next := Reserved(r, owner, s.input, s.options, s.request, deadline);
            Consistent(next) && Extends(r, next)
  {
    hide UsableContinuation;
  }

  lemma {:induction false} EndKeeps(r: Record, t: Transaction)
    requires Consistent(r) && LastRunning(r) && !t.Reserve? && !t.Select?
    ensures Consistent(Commit(r, t)) && Extends(r, Commit(r, t))
  {
    hide Consistent, Extends, Requests;
    SameKeeps(r);
    var last := Last(r);
    match t
    case RecoverStale(_) => UpdateLastKeeps(r, last.(status := Interrupted, errorType := Some("interrupted")), None);
    case InterruptOwner(_, reason) =>
      UpdateLastKeeps(r, last.(status := Interrupted, errorType := Some(reason)), None);
    case CompleteOwner(_, messages, continuation, outcome, _) =>
      if last.request.None? || outcome.Some? {
        UpdateLastKeeps(r, last.(outcome := outcome, messages := last.messages + messages, status := Completed),
                        continuation);
      }
    case FailOwner(_, errorType, _) =>
      UpdateLastKeeps(r, last.(status := Failed, errorType := Some(errorType)), None);
    case RenewOwner(_, _, renewal) =>
      UpdateLastKeeps(r, last.(deadline := renewal + TURN_LEASE), r.config.continuation);
      SameContinuation(WithLast(r, last.(deadline := renewal + TURN_LEASE)), r.config);
  }

  lemma {:induction false} SameKeeps(r: Record)
    ensures Extends(r, r)
  {
  }

  lemma {:induction false} SameContinuation(r: Record, config: Configuration)
    requires r.config == config
    ensures r.(config := config.(continuation := config.continuation)) == r
  {
    assert config.(continuation := config.continuation) == config;
  }

  lemma {:induction false} CommitKeeps(r: Record, t: Transaction)
    requires Consistent(r)
    ensures Consistent(Commit(r, t)) && Extends(r, Commit(r, t))
  {
    SameKeeps(r);
    if LastRunning(r) {
      if !t.Reserve? && !t.Select? {
        EndKeeps(r, t);
      }
    } else if t.Reserve? {
      if !HoldsRequest(r.turns, t.submission.request) {
        ReservedConsistent(r, t.owner, t.submission, t.deadline);
      }
    }
  }

  lemma {:induction false} CommitAllKeeps(r: Record, ts: seq<Transaction>)
    requires Consistent(r)
    ensures Consistent(CommitAll(r, ts)) && Extends(r, CommitAll(r, ts))
  {
    ExtendsReflexive(r);
    hide Consistent, Extends, Commit;
    if ts != [] {
      var before := CommitAll(r, ts[..|ts| - 1]);
      CommitAllKeeps(r, ts[..|ts| - 1]);
      CommitKeeps(before, ts[|ts| - 1]);
      ExtendsTransitive(r, before, Commit(before, ts[|ts| - 1]));
    }
  }

  // ---------- snapshots and their revision ----------

  function LatestCompleted(turns: seq<TurnRecord>): Option<nat> {
    if turns == [] then None
    else if turns[|turns| - 1].status == Completed then Some(|turns| - 1)
    else LatestCompleted(turns[..|turns| - 1])
  }

  /** What is compared under the writer lock: never the history itself. */
  datatype Revision = Revision(
    maxHistoryBytes: nat,
    generation: int,
    continuation: Option<string>,
    options: Option<TurnOptions>,
    nextPosition: int,
    latestCompleted: Option<nat>)

  function RevisionOf(r: Record): Revision {
    Revision(r.config.maxHistoryBytes, r.config.generation, r.config.continuation,
             LatestOptions(r.turns), r.nextTurn, LatestCompleted(r.turns))
  }

  datatype Snapshot = Snapshot(revision: Revision, history: seq<Turn>)

  function TakeSnapshot(r: Record): Snapshot {
    Snapshot(RevisionOf(r), History(r))
  }

  lemma {:induction false} SameTurnsSameHistory(a: seq<TurnRecord>, b: seq<TurnRecord>)
    requires |a| == |b|
    requires forall i :: 0 <= i < |a| ==>
               (a[i].status == Completed <==> b[i].status == Completed) &&
               (a[i].status == Completed ==> a[i].messages == b[i].messages)
    ensures CompletedTurns(a) == CompletedTurns(b)
  {
    if a != [] {
      SameTurnsSameHistory(a[..|a| - 1], b[..|b| - 1]);
    }
  }

  lemma {:induction false} LatestCompletedAbove(turns: seq<TurnRecord>, i: nat)
    requires i < |turns| && turns[i].status == Completed
    ensures LatestCompleted(turns).Some? && LatestCompleted(turns).value >= i
  {
    if turns[|turns| - 1].status != Completed {
      LatestCompletedAbove(turns[..|turns| - 1], i);
    }
  }

  lemma {:induction false} LatestCompletedIsCompleted(turns: seq<TurnRecord>)
    ensures LatestCompleted(turns).Some? ==>
              LatestCompleted(turns).value < |turns| && turns[LatestCompleted(turns).value].status == Completed
  {
    if turns != [] {
      LatestCompletedIsCompleted(turns[..|turns| - 1]);
    }
  }

  /** If the positions agree, every turn completed now was completed, with the same messages, at the snapshot. */
  lemma {:induction false} RevisionFixesCompleted(before: Record, after: Record)
    requires Consistent(before) && Extends(before, after)
    requires |before.turns| == |after.turns|
    requires LatestCompleted(before.turns) == LatestCompleted(after.turns)
    ensures CompletedTurns(before.turns) == CompletedTurns(after.turns)
  {
    forall i | 0 <= i < |before.turns|
      ensures (before.turns[i].status == Completed <==> after.turns[i].status == Completed) &&
              (before.turns[i].status == Completed ==> before.turns[i].messages == after.turns[i].messages)
    {
      assert KeepsTurn(before.turns[i], after.turns[i]);
      if before.turns[i].status == Running && after.turns[i].status == Completed {
        LatestCompletedAbove(after.turns, i);
        LatestCompletedIsCompleted(before.turns);
        assert false;
      }
    }
    SameTurnsSameHistory(before.turns, after.turns);
  }

  /** Optimistic revalidation is sound: an unchanged revision means an unchanged history. */
  lemma {:induction false} RevalidationIsSound(before: Record, ts: seq<Transaction>)
    requires Consistent(before)
    requires RevisionOf(before) == RevisionOf(CommitAll(before, ts))
    ensures History(before) == History(CommitAll(before, ts))
  {
    CommitAllKeeps(before, ts);
    RevisionFixesCompleted(before, CommitAll(before, ts));
  }

  // ---------- acquisition ----------

  /** The writer transaction's view after it recovers stale and abandoned turns. */
  function Prepared(r: Record, now: Instant, abandoned: seq<Owner>): Record {
    CommitAll(Recovered(r, now), Interrupts(abandoned))
  }

  function Interrupts(owners: seq<Owner>): seq<Transaction> {
    if owners == [] then []
    else Interrupts(owners[..|owners| - 1]) + [InterruptOwner(owners[|owners| - 1], "interrupted")]
  }

  datatype Reservation =
    | Taken(turn: Acquired)
    | AlreadyRecorded(record: HostTurn)
    | Retry
    | Refused(error: SessionError)

  /** One attempt: recover, classify the request, revalidate, insert. Errors roll the whole transaction back. */
  function ReserveTransaction(r: Record, snapshot: Snapshot, s: Submission, owner: Owner,
                              now: Instant, abandoned: seq<Owner>, deadline: Instant): (Record, Reservation) {
    ReservePrepared(r, Prepared(r, now, abandoned), snapshot, s, owner, deadline)
  }

  function ReservePrepared(r: Record, ready: Record, snapshot: Snapshot, s: Submission, owner: Owner,
                           deadline: Instant): (Record, Reservation) {
    var known := if s.request.Some? then FindRequest(ready, s.request.value.id) else None;
    if known.Some? then
      if known.value.request == s.request.value then (ready, AlreadyRecorded(known.value))
      else (r, Refused(HostTurnConflict))
    else if ready.config.generation != s.generation then (r, Refused(StaleModel))
    else if RevisionOf(ready) != snapshot.revision then (ready, Retry)
    else if LastRunning(ready) then (r, Refused(Busy))
    else
      var options := snapshot.revision.options;
      var compatible := options.Some? && Compatible(options.value, s.options);
      (Reserved(ready, owner, s.input, s.options, s.request, deadline),
       Taken(Acquired(owner, deadline, snapshot.history,
                          if compatible then snapshot.revision.continuation else None)))
  }

  lemma {:induction false} PreparedIsCommitted(r: Record, now: Instant, abandoned: seq<Owner>)
    ensures Prepared(r, now, abandoned) == CommitAll(r, [RecoverStale(now)] + Interrupts(abandoned))
  {
    assert CommitAll(r, [RecoverStale(now)]) == Recovered(r, now) by {
      assert [RecoverStale(now)][..0] == [];
    }
    CommitAllConcat(r, [RecoverStale(now)], Interrupts(abandoned));
  }

  lemma {:induction false} CommitAllConcat(r: Record, a: seq<Transaction>, b: seq<Transaction>)
    ensures CommitAll(r, a + b) == CommitAll(CommitAll(r, a), b)
  {
    if b == [] {
      assert a + b == a;
    } else {
      CommitAllConcat(r, a, b[..|b| - 1]);
      assert (a + b)[..|a + b| - 1] == a + b[..|b| - 1];
    }
  }

  /** The new record and the reply of an acquisition that is atomic on an idle record. */
  function AtomicGrant(ready: Record, s: Submission, owner: Owner, deadline: Instant): (Record, Reservation) {
    (Reserved(ready, owner, s.input, s.options, s.request, deadline),
     Taken(Acquired(owner, deadline, History(ready), UsableContinuation(ready, s.options))))
  }

  lemma {:induction false} CurrentGrantIsAtomic(r: Record, ready: Record, snapshot: Snapshot, s: Submission, owner: Owner, deadline: Instant)
    requires ReservePrepared(r, ready, snapshot, s, owner, deadline).1.Taken?
    requires snapshot.history == History(ready)
    ensures !LastRunning(ready) && RevisionOf(ready) == snapshot.revision
    ensures ReservePrepared(r, ready, snapshot, s, owner, deadline) == AtomicGrant(ready, s, owner, deadline)
  {
    hide History, Reserved, FindRequest;
  }

  /**
   * A granted attempt hands out exactly what an atomic acquisition at the commit point would:
   * the history and continuation of the record as it stands under the writer lock.
   */
  lemma {:induction false} GrantIsAtomic(before: Record, ts: seq<Transaction>, s: Submission, owner: Owner,
                      now: Instant, abandoned: seq<Owner>, deadline: Instant)
    requires Consistent(before)
    requires ReserveTransaction(CommitAll(before, ts), TakeSnapshot(before), s, owner, now, abandoned, deadline).1.Taken?
    ensures var r := CommitAll(before, ts);
            var ready := Prepared(r, now, abandoned);
            && Consistent(ready) && !LastRunning(ready)
            && ReserveTransaction(r, TakeSnapshot(before), s, owner, now, abandoned, deadline) ==
               AtomicGrant(ready, s, owner, deadline)
  {
    hide CommitAll, Interrupts, FindRequest, Reserved, Consistent, History, UsableContinuation, RevisionOf;
    var r := CommitAll(before, ts);
    var recovery := [RecoverStale(now)] + Interrupts(abandoned);
    PreparedIsCommitted(r, now, abandoned);
    CommitAllConcat(before, ts, recovery);
    CommitAllKeeps(before, ts + recovery);
    RevalidationIsSound(before, ts + recovery);
    CurrentGrantIsAtomic(r, Prepared(r, now, abandoned), TakeSnapshot(before), s, owner, deadline);
  }

  // ---------- what an attempt decides ----------

  /** `h` reports the turn at `i`: its request, model, status and writes. */
  ghost predicate Reports(h: HostTurn, r: Record, i: nat) {
    && i < |r.turns|
    && Some(h.request) == r.turns[i].request
    && Some(h.status) == HostStatusOf(r.turns[i])
    && h.model == r.turns[i].model
    && h.position == r.turns[i].owner.position
    && h.writes == WritesOf(r.writes, r.turns[i].owner.position)
  }

  /** The turn at `i` holds the submitted host identifier. */
  predicate HeldAt(r: Record, s: Submission, i: nat) {
    i < |r.turns| && s.request.Some? && HasRequest(r.turns[i], s.request.value.id)
  }

  predicate AnyRunning(r: Record) {
    exists i :: 0 <= i < |r.turns| && r.turns[i].status == Running
  }

  /**
   * The decision on the record `ready` that recovery leaves of `r`. A held host identifier decides first: the same
   * request gets its report, another fingerprint a conflict. Then come a stale generation, an overtaken snapshot,
   * and a running turn; otherwise the turn is granted atomically. Errors leave `r` as it was.
   */
  ghost predicate Decided(r: Record, ready: Record, snapshot: Snapshot, s: Submission, owner: Owner, deadline: Instant,
                          next: Record, reservation: Reservation) {
    && (forall i: nat :: HeldAt(ready, s, i) ==>
          if ready.turns[i].request == s.request
          then next == ready && reservation.AlreadyRecorded? && Reports(reservation.record, ready, i)
          else next == r && reservation == Refused(HostTurnConflict))
    && (!HoldsRequest(ready.turns, s.request) ==>
          if ready.config.generation != s.generation then next == r && reservation == Refused(StaleModel)
          else if RevisionOf(ready) != snapshot.revision then next == ready && reservation == Retry
          else if AnyRunning(ready) then next == r && reservation == Refused(Busy)
          else snapshot.history == History(ready) ==> (next, reservation) == AtomicGrant(ready, s, owner, deadline))
  }

  lemma {:induction false} FoundReports(r: Record, s: Submission, i: nat)
    requires Requests(r) && HeldAt(r, s, i)
    ensures FindRequest(r, s.request.value.id).Some? && Reports(FindRequest(r, s.request.value.id).value, r, i)
  {
    hide WritesOf, RequestIndex;
    KnownRequestIsFound(r, i, s.request.value.id);
  }

  lemma {:induction false} NotFound(r: Record, s: Submission)
    requires !HoldsRequest(r.turns, s.request)
    ensures s.request.Some? ==> FindRequest(r, s.request.value.id).None?
  {
    hide WritesOf;
  }

  lemma {:induction false} RunningIsLast(r: Record)
    requires Consistent(r)
    ensures AnyRunning(r) <==> LastRunning(r)
  {
    hide Requests;
    if LastRunning(r) {
      assert r.turns[|r.turns| - 1].status == Running;
    }
  }

  lemma {:induction false} HeldIsIndex(r: Record, s: Submission)
    ensures forall i: nat :: HeldAt(r, s, i) ==> i < |r.turns|
  {
  }

  lemma {:induction false} HeldDecides(r: Record, ready: Record, snapshot: Snapshot, s: Submission, owner: Owner, deadline: Instant, i: nat)
    requires Consistent(ready) && HeldAt(ready, s, i)
    ensures var (next, reservation) := ReservePrepared(r, ready, snapshot, s, owner, deadline);
            if ready.turns[i].request == s.request
            then next == ready && reservation.AlreadyRecorded? && Reports(reservation.record, ready, i)
            else next == r && reservation == Refused(HostTurnConflict)
  {
    hide FindRequest, Reserved, History, RevisionOf, Requests, HostStatusOf, WritesOf;
    FoundReports(ready, s, i);
  }

  lemma {:induction false} PreparedDecides(r: Record, ready: Record, snapshot: Snapshot, s: Submission, owner: Owner, deadline: Instant)
    requires Consistent(ready)
    ensures var (next, reservation) := ReservePrepared(r, ready, snapshot, s, owner, deadline);
            Decided(r, ready, snapshot, s, owner, deadline, next, reservation)
  {
    hide FindRequest, Reserved, History, RevisionOf, Consistent, LastRunning, AnyRunning, HoldsRequest, Reports, HeldAt,
         HasRequest, LatestOptions;
    HeldIsIndex(ready, s);
    RunningIsLast(ready);
    var (next, reservation) := ReservePrepared(r, ready, snapshot, s, owner, deadline);
    forall i: nat | HeldAt(ready, s, i)
      ensures if ready.turns[i].request == s.request
              then next == ready && reservation.AlreadyRecorded? && Reports(reservation.record, ready, i)
              else next == r && reservation == Refused(HostTurnConflict)
    {
      HeldDecides(r, ready, snapshot, s, owner, deadline, i);
    }
    if !HoldsRequest(ready.turns, s.request) {
      NotFound(ready, s);
      if reservation.Taken? && snapshot.history == History(ready) {
        CurrentGrantIsAtomic(r, ready, snapshot, s, owner, deadline);
      }
    }
  }

  /** Recovery interrupts the running turn exactly when it is stale or its owner abandoned, and nothing else. */
  lemma {:induction false} PreparedIsExact(r: Record, now: Instant, abandoned: seq<Owner>)
    requires Consistent(r)
    ensures var ready := Prepared(r, now, abandoned);
            && Consistent(ready) && Extends(r, ready) && |ready.turns| == |r.turns|
            && (AnyRunning(ready) <==> AnyRunning(r) && Last(r).deadline > now && Last(r).owner !in abandoned)
            && (AnyRunning(ready) ==> ready == r)
  {
    hide Consistent, Extends, CommitAll, AnyRunning, LastRunning;
    PreparedIsCommitted(r, now, abandoned);
    CommitAllKeeps(r, [RecoverStale(now)] + Interrupts(abandoned));
    CommitKeeps(r, RecoverStale(now));
    RunningIsLast(r);
    RecoveredIsExact(r, now);
    InterruptsAreExact(Recovered(r, now), abandoned);
    RunningIsLast(Prepared(r, now, abandoned));
  }

  lemma {:induction false} RecoveredIsExact(r: Record, now: Instant)
    ensures |Recovered(r, now).turns| == |r.turns|
    ensures LastRunning(Recovered(r, now)) <==> LastRunning(r) && Last(r).deadline > now
    ensures LastRunning(Recovered(r, now)) ==> Recovered(r, now) == r
  {
  }

  lemma {:induction false} InterruptsAreExact(r: Record, owners: seq<Owner>)
    ensures var next := CommitAll(r, Interrupts(owners));
            && |next.turns| == |r.turns|
            && (LastRunning(next) <==> LastRunning(r) && Last(r).owner !in owners)
            && (LastRunning(next) ==> next == r)
    decreases |owners|
  {
    if owners != [] {
      var front, last := owners[..|owners| - 1], owners[|owners| - 1];
      InterruptsAreExact(r, front);
      var ts := Interrupts(owners);
      assert ts[..|ts| - 1] == Interrupts(front) && ts[|ts| - 1] == InterruptOwner(last, "interrupted");
      assert forall o :: o in owners <==> o in front || o == last;
      InterruptIsExact(CommitAll(r, Interrupts(front)), last);
    }
  }

  lemma {:induction false} InterruptIsExact(r: Record, owner: Owner)
    ensures var next := Commit(r, InterruptOwner(owner, "interrupted"));
            && |next.turns| == |r.turns|
            && (LastRunning(next) <==> LastRunning(r) && Last(r).owner != owner)
            && (LastRunning(next) ==> next == r)
  {
  }

  /** Whatever an attempt decides, the session is only extended. */
  lemma {:induction false} AttemptKeeps(r: Record, snapshot: Snapshot, s: Submission, owner: Owner, now: Instant, abandoned: seq<Owner>,
                     deadline: Instant)
    requires Consistent(r)
    ensures var next := ReserveTransaction(r, snapshot, s, owner, now, abandoned, deadline).0;
            Consistent(next) && Extends(r, next)
  {
    hide CommitAll, Interrupts, FindRequest, Reserved, Consistent, Extends, History, UsableContinuation, RevisionOf,
         Prepared, HoldsRequest, AnyRunning;
    PreparedIsExact(r, now, abandoned);
    SameKeeps(r);
    var ready := Prepared(r, now, abandoned);
    if HoldsRequest(ready.turns, s.request) {
      var i := HolderOf(ready, s);
      HeldDecides(r, ready, snapshot, s, owner, deadline, i);
    } else if !LastRunning(ready) {
      NotFound(ready, s);
      ReservedConsistent(ready, owner, s, deadline);
      ExtendsTransitive(r, ready, Reserved(ready, owner, s.input, s.options, s.request, deadline));
    }
  }

  lemma {:induction false} HolderOf(r: Record, s: Submission) returns (i: nat)
    requires HoldsRequest(r.turns, s.request)
    ensures HeldAt(r, s, i)
  {
    i :| 0 <= i < |r.turns| && HasRequest(r.turns[i], s.request.value.id);
  }

  /** What others commit, and this handle reads, around one attempt. */
  datatype Interference = Interference(
    beforeSnapshot: seq<Transaction>, beforeCommit: seq<Transaction>, now: Instant, abandoned: seq<Owner>,
    deadline: Instant)

  /**
   * An answer told apart by the record `r` an attempt found and what recovery left of it: granted only when no turn
   * holds the host identifier, the generation is current and nothing runs, and then atomically; reported only for
   * exactly the held request; refused, without any change, only for its reason.
   */
  ghost predicate Answered(r: Record, ready: Record, s: Submission, owner: Owner, next: Record, reservation: Reservation) {
    && (reservation.Taken? ==>
          && !HoldsRequest(ready.turns, s.request) && ready.config.generation == s.generation && !AnyRunning(ready)
          && (next, reservation) == AtomicGrant(ready, s, owner, reservation.turn.deadline)
          && IsGrantOf(ready, s, owner, next, reservation.turn))
    && (reservation.AlreadyRecorded? ==>
          && next == ready
          && exists i: nat :: HeldAt(ready, s, i) && ready.turns[i].request == s.request
                              && Reports(reservation.record, ready, i))
    && (reservation.Refused? ==>
          && next == r
          && (match reservation.error
              case HostTurnConflict => exists i: nat :: HeldAt(ready, s, i) && ready.turns[i].request != s.request
              case StaleModel => ready.config.generation != s.generation
              case Busy => AnyRunning(ready)
              case _ => false))
    && (HoldsRequest(ready.turns, s.request) ==>
          reservation.AlreadyRecorded? || reservation == Refused(HostTurnConflict))
  }

  /**
   * The granted turn is the one running turn appended for this submission, under the selected model; it hands out the
   * longest suffix of completed turns within the limit, and the continuation it keeps.
   */
  ghost predicate IsGrantOf(ready: Record, s: Submission, owner: Owner, next: Record, granted: Acquired) {
    && IsLongestSuffix(granted.history, CompletedTurns(ready.turns), ready.config.maxHistoryBytes)
    && granted.owner == owner
    && granted.continuation == next.config.continuation
    && next.turns == ready.turns + [TurnRecord(owner, Recording(ready.config), s.options, s.request, Running,
                                               [UserMessage(s.input)], None, None, granted.deadline)]
    && next.nextTurn == ready.nextTurn + 1
    && next.writes == ready.writes
  }

  lemma {:induction false} AtomicGrantFits(ready: Record, s: Submission, owner: Owner, deadline: Instant)
    ensures var (next, reservation) := AtomicGrant(ready, s, owner, deadline);
            reservation.Taken? && IsGrantOf(ready, s, owner, next, reservation.turn)
  {
    hide UsableContinuation, CompletedTurns, Replay;
    ReplayIsLongest(CompletedTurns(ready.turns), ready.config.maxHistoryBytes);
    hide IsLongestSuffix;
  }

  lemma {:induction false} DecisionAnswers(r: Record, ready: Record, snapshot: Snapshot, s: Submission, owner: Owner, deadline: Instant,
                        next: Record, reservation: Reservation)
    requires Decided(r, ready, snapshot, s, owner, deadline, next, reservation)
    requires RevisionOf(ready) == snapshot.revision ==> snapshot.history == History(ready)
    ensures Answered(r, ready, s, owner, next, reservation)
  {
    HeldIsIndex(ready, s);
    GrantDeadline(ready, s, owner, deadline);
    AtomicGrantFits(ready, s, owner, deadline);
    hide IsGrantOf, AtomicGrant, RevisionOf, AnyRunning, HoldsRequest, HeldAt, Reports, History;
    if HoldsRequest(ready.turns, s.request) {
      var i := HolderOf(ready, s);
      assert HeldAt(ready, s, i);
    }
  }

  /** Every attempt is answered by the record it finds, whatever committed after its snapshot. */
  lemma {:induction false} AttemptAnswers(before: Record, ts: seq<Transaction>, s: Submission, owner: Owner, now: Instant,
                       abandoned: seq<Owner>, deadline: Instant)
    requires Consistent(before)
    ensures var r := CommitAll(before, ts);
            var (next, reservation) := ReserveTransaction(r, TakeSnapshot(before), s, owner, now, abandoned, deadline);
            Answered(r, Prepared(r, now, abandoned), s, owner, next, reservation)
  {
    hide CommitAll, Interrupts, FindRequest, AtomicGrant, Consistent, History, RevisionOf, AnyRunning, HoldsRequest,
         HeldAt, Reports, Prepared, ReservePrepared, Decided, Answered;
    var r, snapshot := CommitAll(before, ts), TakeSnapshot(before);
    var recovery := [RecoverStale(now)] + Interrupts(abandoned);
    CommitAllKeeps(before, ts);
    PreparedIsExact(r, now, abandoned);
    var ready := Prepared(r, now, abandoned);
    PreparedDecides(r, ready, snapshot, s, owner, deadline);
    PreparedIsCommitted(r, now, abandoned);
    CommitAllConcat(before, ts, recovery);
    if RevisionOf(ready) == snapshot.revision {
      RevalidationIsSound(before, ts + recovery);
    }
    var (next, reservation) := ReserveTransaction(r, snapshot, s, owner, now, abandoned, deadline);
    DecisionAnswers(r, ready, snapshot, s, owner, deadline, next, reservation);
  }

  /** Retries until an attempt is not overtaken; still `Retry` only when every attempt was. */
  method AcquireTurn(start: Record, interference: seq<Interference>, s: Submission, owner: Owner)
    returns (next: Record, reservation: Reservation, ghost current: Record, ghost ready: Record)
    requires Consistent(start)
    ensures Consistent(next) && Consistent(ready)
    ensures Extends(start, current) && Extends(current, ready) && Extends(current, next)
    ensures interference != [] ==> Answered(current, ready, s, owner, next, reservation)
  {
    hide CommitAll, ReserveTransaction, Consistent, Extends, TakeSnapshot, Prepared, Answered;
    next, reservation, current, ready := start, Retry, start, start;
    SameKeeps(start);
    for i := 0 to |interference|
      invariant Consistent(next) && Consistent(ready)
      invariant Extends(start, next) && Extends(start, current) && Extends(current, ready) && Extends(current, next)
      invariant reservation == Retry && (i > 0 ==> Answered(current, ready, s, owner, next, reservation))
    {
      var t := interference[i];
      CommitAllKeeps(next, t.beforeSnapshot);
      var seen := CommitAll(next, t.beforeSnapshot);
      ExtendsTransitive(start, next, seen);
      CommitAllKeeps(seen, t.beforeCommit);
      var found := CommitAll(seen, t.beforeCommit);
      ExtendsTransitive(start, seen, found);
      AttemptKeeps(found, TakeSnapshot(seen), s, owner, t.now, t.abandoned, t.deadline);
      PreparedIsExact(found, t.now, t.abandoned);
      AttemptAnswers(seen, t.beforeCommit, s, owner, t.now, t.abandoned, t.deadline);
      var attempt := ReserveTransaction(found, TakeSnapshot(seen), s, owner, t.now, t.abandoned, t.deadline);
      ExtendsTransitive(start, found, attempt.0);
      current, ready := found, Prepared(found, t.now, t.abandoned);
      next, reservation := attempt.0, attempt.1;
      if !reservation.Retry? {
        return;
      }
    }
  }

  lemma {:induction false} GrantDeadline(ready: Record, s: Submission, owner: Owner, deadline: Instant)
    ensures AtomicGrant(ready, s, owner, deadline).1.Taken?
    ensures AtomicGrant(ready, s, owner, deadline).1.turn.deadline == deadline
  {
  }

  // ---------- exactly-once requests ----------

  /** A committed transaction of anyone, or an acquisition attempt on any snapshot it may have read. */
  datatype Event =
    | Committed(transaction: Transaction)
    | Attempt(snapshot: Snapshot, submission: Submission, owner: Owner, now: Instant, abandoned: seq<Owner>,
              deadline: Instant)

  function AttemptAt(r: Record, e: Event): (Record, Reservation)
    requires e.Attempt?
  {
    ReserveTransaction(r, e.snapshot, e.submission, e.owner, e.now, e.abandoned, e.deadline)
  }

  function Happens(r: Record, e: Event): Record {
    if e.Attempt? then AttemptAt(r, e).0 else Commit(r, e.transaction)
  }

  function AfterEvents(start: Record, events: seq<Event>): Record {
    if events == [] then start else Happens(AfterEvents(start, events[..|events| - 1]), events[|events| - 1])
  }

  lemma {:induction false} HappensKeeps(r: Record, e: Event)
    requires Consistent(r)
    ensures Consistent(Happens(r, e)) && Extends(r, Happens(r, e))
  {
    hide Consistent, Extends, ReserveTransaction, Commit;
    match e
    case Committed(t) => CommitKeeps(r, t);
    case Attempt(snapshot, s, owner, now, abandoned, deadline) =>
      AttemptKeeps(r, snapshot, s, owner, now, abandoned, deadline);
  }

  lemma {:induction false} EventsKeep(start: Record, events: seq<Event>, i: nat)
    requires Consistent(start) && i <= |events|
    ensures Consistent(AfterEvents(start, events))
    ensures Extends(AfterEvents(start, events[..i]), AfterEvents(start, events))
    decreases |events|
  {
    hide Consistent, Extends, Happens;
    if events == [] {
      SameKeeps(start);
    } else {
      var n := |events| - 1;
      var before := AfterEvents(start, events[..n]);
      EventsKeep(start, events[..n], if i <= n then i else n);
      HappensKeeps(before, events[n]);
      if i <= n {
        assert events[..n][..i] == events[..i];
        ExtendsTransitive(AfterEvents(start, events[..i]), before, AfterEvents(start, events));
      } else {
        assert events[..i] == events;
        SameKeeps(AfterEvents(start, events));
      }
    }
  }

  predicate TakenAt(start: Record, events: seq<Event>, i: nat) {
    i < |events| && events[i].Attempt? && AttemptAt(AfterEvents(start, events[..i]), events[i]).1.Taken?
  }

  /** A taken turn holds its request, and was free to take. */
  lemma {:induction false} TakenHolds(r: Record, e: Event)
    requires Consistent(r) && e.Attempt? && AttemptAt(r, e).1.Taken?
    ensures e.submission.request.Some? ==> HoldsRequest(AttemptAt(r, e).0.turns, e.submission.request)
    ensures !HoldsRequest(r.turns, e.submission.request)
  {
    hide Consistent, FindRequest, UsableContinuation, RevisionOf, History, Interrupts, CommitAll, HasRequest;
    var ready := Prepared(r, e.now, e.abandoned);
    PreparedIsExact(r, e.now, e.abandoned);
    if HoldsRequest(r.turns, e.submission.request) {
      KeptHolder(r, ready, e.submission);
      var i := HolderOf(ready, e.submission);
      HeldDecides(r, ready, e.snapshot, e.submission, e.owner, e.deadline, i);
    }
    NewHolder(ready, e.owner, e.submission, e.deadline);
  }

  lemma {:induction false} KeptHolder(r: Record, next: Record, s: Submission)
    requires Extends(r, next) && HoldsRequest(r.turns, s.request)
    ensures HoldsRequest(next.turns, s.request)
  {
    var i := HolderOf(r, s);
    assert KeepsTurn(r.turns[i], next.turns[i]);
    assert HasRequest(next.turns[i], s.request.value.id);
  }

  lemma {:induction false} NewHolder(r: Record, owner: Owner, s: Submission, deadline: Instant)
    ensures s.request.Some? ==>
              HoldsRequest(Reserved(r, owner, s.input, s.options, s.request, deadline).turns, s.request)
  {
    if s.request.Some? {
      assert HasRequest(Reserved(r, owner, s.input, s.options, s.request, deadline).turns[|r.turns|], s.request.value.id);
    }
  }

  /** Over any interleaving of attempts and committed transactions, a host identifier is taken at most once. */
  lemma {:induction false} TakenAtMostOnce(start: Record, events: seq<Event>, i: nat, j: nat)
    requires Consistent(start) && TakenAt(start, events, i) && TakenAt(start, events, j)
    requires events[i].submission.request.Some? && events[j].submission.request.Some?
    requires events[i].submission.request.value.id == events[j].submission.request.value.id
    ensures i == j
  {
    hide Consistent, Extends, AttemptAt, HoldsRequest;
    if i < j {
      TakenOnceBefore(start, events, i, j);
    } else if j < i {
      TakenOnceBefore(start, events, j, i);
    }
  }

  lemma {:induction false} TakenOnceBefore(start: Record, events: seq<Event>, i: nat, j: nat)
    requires Consistent(start) && i < j && j < |events| && TakenAt(start, events, i) && events[j].Attempt?
    requires events[i].submission.request.Some? && events[j].submission.request.Some?
    requires events[i].submission.request.value.id == events[j].submission.request.value.id
    ensures !TakenAt(start, events, j)
  {
    hide Consistent, Extends, AttemptAt;
    var a, b := AfterEvents(start, events[..i]), AfterEvents(start, events[..j]);
    EventsKeep(start, events[..i], 0);
    TakenHolds(a, events[i]);
    assert events[..i + 1][..i] == events[..i] && events[..j][..i + 1] == events[..i + 1];
    EventsKeep(start, events[..j], i + 1);
    KeptHolder(AfterEvents(start, events[..i + 1]), b, events[i].submission);
    if TakenAt(start, events, j) {
      TakenHolds(b, events[j]);
    }
  }

  // ---------- model switching ----------

  datatype SwitchAttempt = SwitchedTo(generation: int) | SwitchRetry | SwitchRefused(error: SessionError)

  /** History is validated on the snapshot; only its completed-turn boundary is rechecked at commit. */
  function SwitchTransaction(before: Record, r: Record, generation: int, selection: Selection, now: Instant)
    : (Record, SwitchAttempt)
  {
    if generation >= I64_MAX then (r, SwitchRefused(InvalidData))
    else if before.config.generation != generation then (r, SwitchRefused(StaleModel))
    else if !HistoryPortable(CompletedTurns(before.turns), selection.capabilities) then
      (r, SwitchRefused(UnsupportedModelHistory))
    else
      var ready := Recovered(r, now);
      if ready.config.generation != generation then (r, SwitchRefused(StaleModel))
      else if LastRunning(ready) then (r, SwitchRefused(Busy))
      else if LatestCompleted(ready.turns) != LatestCompleted(before.turns) then (ready, SwitchRetry)
      else (ready.(config := Selected(ready.config, selection)), SwitchedTo(generation + 1))
  }

  /** The newest completed position bounds every completed turn, so equal boundaries mean equal completions. */
  lemma {:induction false} BoundaryFixesCompleted(before: Record, after: Record)
    requires Consistent(before) && Extends(before, after)
    requires LatestCompleted(before.turns) == LatestCompleted(after.turns)
    ensures CompletedTurns(before.turns) == CompletedTurns(after.turns)
  {
    var n := |before.turns|;
    var prefix := after.(turns := after.turns[..n]);
    forall i | n <= i < |after.turns| ensures after.turns[i].status != Completed {
      if after.turns[i].status == Completed {
        LatestCompletedAbove(after.turns, i);
        LatestCompletedIsCompleted(before.turns);
        assert false;
      }
    }
    NoLaterCompletions(after.turns, n);
    RevisionFixesCompleted(before, prefix.(writes := before.writes, config := before.config));
  }

  lemma {:induction false} NoLaterCompletions(turns: seq<TurnRecord>, n: nat)
    requires n <= |turns| && forall i :: n <= i < |turns| ==> turns[i].status != Completed
    ensures CompletedTurns(turns) == CompletedTurns(turns[..n])
    ensures LatestCompleted(turns) == LatestCompleted(turns[..n])
  {
    if n < |turns| {
      NoLaterCompletions(turns[..|turns| - 1], n);
      assert turns[..|turns| - 1][..n] == turns[..n];
    } else {
      assert turns[..n] == turns;
    }
  }

  /** A committed switch has validated every turn completed at its commit, and was idle then. */
  lemma {:induction false} SwitchValidatesCommit(before: Record, ts: seq<Transaction>, generation: int, selection: Selection, now: Instant)
    requires Consistent(before)
    requires SwitchTransaction(before, CommitAll(before, ts), generation, selection, now).1.SwitchedTo?
    ensures var ready := Recovered(CommitAll(before, ts), now);
            && !LastRunning(ready) && ready.config.generation == generation
            && HistoryPortable(CompletedTurns(ready.turns), selection.capabilities)
            && SwitchTransaction(before, CommitAll(before, ts), generation, selection, now).0 ==
               Switch(CommitAll(before, ts), generation, selection, now).0
  {
    var r := CommitAll(before, ts);
    CommitAllKeeps(before, ts);
    CommitKeeps(r, RecoverStale(now));
    ExtendsTransitive(before, r, Recovered(r, now));
    hide CommitAll, Consistent, Extends, HistoryPortable, Recovered, Selected;
    BoundaryFixesCompleted(before, Recovered(r, now));
  }

  /** Portability as the switch is promised it: of everything completed when it commits. */
  ghost predicate MaySwitch(before: Record, ready: Record, generation: int, selection: Selection) {
    && generation < I64_MAX
    && before.config.generation == generation == ready.config.generation
    && !AnyRunning(ready)
    && LatestCompleted(ready.turns) == LatestCompleted(before.turns)
    && HistoryPortable(CompletedTurns(ready.turns), selection.capabilities)
  }

  /**
   * A switch commits exactly when the generation is current at both reads, nothing runs, no turn completed in between
   * and everything completed is portable. It retries only when a turn completed in between, and a refusal changes
   * nothing and names its reason.
   */
  lemma {:induction false} SwitchIsExact(before: Record, ts: seq<Transaction>, generation: int, selection: Selection,
                                         now: Instant)
    requires Consistent(before)
    ensures var r := CommitAll(before, ts);
            var ready := Recovered(r, now);
            var (next, attempt) := SwitchTransaction(before, r, generation, selection, now);
            && (attempt.SwitchedTo? <==> MaySwitch(before, ready, generation, selection))
            && (match attempt
                case SwitchedTo(g) =>
                  g == generation + 1 && next == ready.(config := Selected(ready.config, selection))
                case SwitchRetry => next == ready && LatestCompleted(ready.turns) != LatestCompleted(before.turns)
                case SwitchRefused(error) =>
                  && next == r
                  && match error
                     case InvalidData => generation >= I64_MAX
                     case StaleModel => before.config.generation != generation || ready.config.generation != generation
                     case UnsupportedModelHistory =>
                       !HistoryPortable(CompletedTurns(before.turns), selection.capabilities)
                     case Busy => AnyRunning(ready)
                     case _ => false)
  {
    var r := CommitAll(before, ts);
    CommitAllKeeps(before, ts);
    CommitKeeps(r, RecoverStale(now));
    ExtendsTransitive(before, r, Recovered(r, now));
    RunningIsLast(Recovered(r, now));
    hide CommitAll, Consistent, Extends, HistoryPortable, Recovered, Selected, AnyRunning, LastRunning;
    var ready := Recovered(r, now);
    if LatestCompleted(ready.turns) == LatestCompleted(before.turns) {
      BoundaryFixesCompleted(before, ready);
    }
  }
}
