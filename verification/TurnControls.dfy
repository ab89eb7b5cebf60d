/** What a turn's control observes: retained filesystem effects and retained persistence owners. */
module TurnControls {
  import opened Prelude

  /** An outstanding managed write: an unacknowledged replacement, or an acknowledged one still to be recorded. */
  datatype Lease = Lease(recording: bool, unresolved: bool)

  datatype EffectFailure = EffectFailure(unresolved: bool)

  /** The effect state of one turn; `admission` says whether it retains the session's admission. */
  datatype Effects = Effects(pending: nat, admission: bool, failure: Option<EffectFailure>)

  const IDLE: Lease := Lease(false, false)
  const NO_EFFECTS: Effects := Effects(0, false, None)

  function Retained(e: Effects): Effects { e.(pending := e.pending + 1) }

  function Admitted(e: Effects): Effects { e.(admission := true) }

  function Starting(l: Lease): Lease { l.(unresolved := true) }

  function Acknowledged(l: Lease): Lease { Lease(true, false) }

  function RecordedLease(l: Lease): Lease { l.(recording := false) }

  /** Whether dropping the lease hands the admission to the process-wide unresolved list. */
  predicate Parks(e: Effects, l: Lease) { l.unresolved && e.admission }

  function Released(e: Effects, l: Lease): Effects
    requires e.pending > 0
  {
    Effects(e.pending - 1,
            e.admission && !l.unresolved && e.pending > 1,
            if l.unresolved then Some(EffectFailure(true))
            else if l.recording then Some(EffectFailure(false))
            else e.failure)
  }

  /** What happens to the effect state of a turn; a worker reports a failed outcome record directly. */
  datatype Event = LeaseRetained | AdmissionRetained | FailureReported | LeaseDropped(lease: Lease)

  predicate EventEnabled(e: Effects, event: Event) {
    event.LeaseDropped? ==> e.pending > 0
  }

  function Next(e: Effects, event: Event): Effects
    requires EventEnabled(e, event)
  {
    match event
    case LeaseRetained => Retained(e)
    case AdmissionRetained => Admitted(e)
    case FailureReported => e.(failure := Some(EffectFailure(false)))
    case LeaseDropped(l) => Released(e, l)
  }

  /** The state after a run of events; none when a lease was dropped that nobody held. */
  function AfterEvents(events: seq<Event>): Option<Effects> {
    if events == [] then Some(NO_EFFECTS)
    else
      var before := AfterEvents(events[..|events| - 1]);
      if before.Some? && EventEnabled(before.value, events[|events| - 1])
      then Some(Next(before.value, events[|events| - 1]))
      else None
  }

  /** The event leaves a failure: a direct report, or a lease dropped unacknowledged or unrecorded. */
  predicate Fails(event: Event) {
    event.FailureReported? || (event.LeaseDropped? && (event.lease.recording || event.lease.unresolved))
  }

  predicate EndsUnresolved(event: Event) {
    event.LeaseDropped? && event.lease.unresolved
  }

  ghost predicate NoneFails(events: seq<Event>) {
    forall i :: 0 <= i < |events| ==> !Fails(events[i])
  }

  ghost predicate AnyUnresolved(events: seq<Event>) {
    exists i :: 0 <= i < |events| && EndsUnresolved(events[i])
  }

  /** Some lease ended unresolved, and nothing failed afterwards. */
  ghost predicate LastFailureUnresolved(events: seq<Event>) {
    exists i :: 0 <= i < |events| && UnresolvedLast(events, i)
  }

  ghost predicate UnresolvedLast(events: seq<Event>, i: nat)
    requires i < |events|
  {
    EndsUnresolved(events[i]) && forall j :: i < j < |events| ==> !Fails(events[j])
  }

  /** Leases retained and not yet dropped. */
  function Outstanding(events: seq<Event>): int {
    if events == [] then 0
    else
      Outstanding(events[..|events| - 1])
      + (match events[|events| - 1]
         case LeaseRetained => 1
         case LeaseDropped(_) => -1
         case _ => 0)
  }

  lemma {:induction false} PendingIsOutstanding(events: seq<Event>)
    requires AfterEvents(events).Some?
    ensures AfterEvents(events).value.pending == Outstanding(events)
  {
    if events != [] {
      PendingIsOutstanding(events[..|events| - 1]);
    }
  }

  /** No failure is reported exactly when no lease failed and no worker reported a failed record. */
  lemma {:induction false} SettledIsClean(events: seq<Event>)
    requires AfterEvents(events).Some?
    ensures AfterEvents(events).value.failure.None? <==> NoneFails(events)
  {
    if events != [] {
      var front, last := events[..|events| - 1], events[|events| - 1];
      SettledIsClean(front);
      assert events == front + [last];
      assert NoneFails(events) <==> NoneFails(front) && !Fails(last) by {
        if NoneFails(events) {
          assert !Fails(events[|events| - 1]);
          forall i | 0 <= i < |front| ensures !Fails(front[i]) {
            assert front[i] == events[i];
          }
        }
      }
    }
  }

  /** One more event keeps the last failure unresolved, decides it, or hides it. */
  lemma {:induction false} LastFailureStep(front: seq<Event>, last: Event)
    ensures LastFailureUnresolved(front + [last]) <==>
            EndsUnresolved(last) || (LastFailureUnresolved(front) && !Fails(last))
  {
    var events, n := front + [last], |front|;
    if EndsUnresolved(last) {
      assert UnresolvedLast(events, n);
    } else {
      if LastFailureUnresolved(front) && !Fails(last) {
        var i :| 0 <= i < n && UnresolvedLast(front, i);
        assert UnresolvedLast(events, i);
      }
      if LastFailureUnresolved(events) {
        var i :| 0 <= i <= n && UnresolvedLast(events, i);
        assert i < n && !Fails(events[n]);
        assert forall j :: i < j < n ==> front[j] == events[j];
        assert UnresolvedLast(front, i);
      }
    }
  }

  /** An unknown completion is reported as such exactly when nothing failed after it. */
  lemma {:induction false} ReportedUnresolved(events: seq<Event>)
    requires AfterEvents(events).Some?
    ensures AfterEvents(events).value.failure == Some(EffectFailure(true)) <==> LastFailureUnresolved(events)
  {
    if events != [] {
      var front, last := events[..|events| - 1], events[|events| - 1];
      ReportedUnresolved(front);
      LastFailureStep(front, last);
      assert events == front + [last];
    }
  }

  /** Unresolved effects of this run are hidden: the report says resolved. */
  ghost predicate Hides(events: seq<Event>) {
    && AfterEvents(events).Some?
    && AnyUnresolved(events)
    && AfterEvents(events).value.failure == Some(EffectFailure(false))
  }

  lemma {:induction false} AfterSnoc(front: seq<Event>, last: Event)
    requires AfterEvents(front).Some? && EventEnabled(AfterEvents(front).value, last)
    ensures AfterEvents(front + [last]) == Some(Next(AfterEvents(front).value, last))
  {
    assert (front + [last])[..|front|] == front;
  }

  /** An admitted turn whose first write lost its worker. */
  const UNRESOLVED_WRITE: seq<Event> :=
    [LeaseRetained, AdmissionRetained, LeaseRetained, LeaseDropped(Starting(IDLE))]

  /** A later recording failure hides an unknown completion, although the admission stays blocked for it. */
  lemma {:induction false} RecordingHidesUnresolved()
    ensures AfterEvents(UNRESOLVED_WRITE) == Some(Effects(1, false, Some(EffectFailure(true))))
    ensures Hides(UNRESOLVED_WRITE + [FailureReported])
    ensures Hides(UNRESOLVED_WRITE + [LeaseDropped(Acknowledged(IDLE))])
  {
    var held := [LeaseRetained, AdmissionRetained, LeaseRetained];
    AfterSnoc([], LeaseRetained);
    AfterSnoc([LeaseRetained], AdmissionRetained);
    AfterSnoc([LeaseRetained, AdmissionRetained], LeaseRetained);
    AfterSnoc(held, LeaseDropped(Starting(IDLE)));
    assert UNRESOLVED_WRITE == held + [LeaseDropped(Starting(IDLE))];
    HidesAfter(UNRESOLVED_WRITE, 3, FailureReported);
    HidesAfter(UNRESOLVED_WRITE, 3, LeaseDropped(Acknowledged(IDLE)));
  }

  /** The ordinary way there: the turn's next write is installed, fails to be recorded, and drops its lease clean. */
  lemma {:induction false} UnrecordedWriteHidesUnresolved()
    ensures var clean := LeaseDropped(RecordedLease(Acknowledged(Starting(IDLE))));
            var events := UNRESOLVED_WRITE + [LeaseRetained] + [FailureReported] + [clean] + [LeaseDropped(IDLE)];
            Hides(events) && AnswerOf(AfterEvents(events).value) == EffectsErr(EffectFailure(false))
  {
    var clean := LeaseDropped(RecordedLease(Acknowledged(Starting(IDLE))));
    RecordingHidesUnresolved();
    var retained := UNRESOLVED_WRITE + [LeaseRetained];
    AfterSnoc(UNRESOLVED_WRITE, LeaseRetained);
    HidesAfter(retained, 3, FailureReported);
    var reported := retained + [FailureReported];
    AfterSnoc(retained, FailureReported);
    AfterSnoc(reported, clean);
    AfterSnoc(reported + [clean], LeaseDropped(IDLE));
    assert EndsUnresolved((reported + [clean] + [LeaseDropped(IDLE)])[3]);
  }

  /** Every resolved failure after an unresolved drop hides it. */
  lemma {:induction false} HidesAfter(events: seq<Event>, i: nat, last: Event)
    requires AfterEvents(events).Some? && EventEnabled(AfterEvents(events).value, last)
    requires i < |events| && EndsUnresolved(events[i]) && Fails(last) && !EndsUnresolved(last)
    ensures Hides(events + [last])
  {
    AfterSnoc(events, last);
    assert EndsUnresolved((events + [last])[i]);
  }

  /** The admission was retained at event `i` and nothing since has given it up. */
  ghost predicate KeptSince(events: seq<Event>, i: nat)
    requires i < |events|
  {
    && events[i].AdmissionRetained?
    && forall j :: i < j < |events| && events[j].LeaseDropped? ==>
         !EndsUnresolved(events[j]) && Outstanding(events[..j + 1]) > 0
  }

  ghost predicate Kept(events: seq<Event>) {
    exists i :: 0 <= i < |events| && KeptSince(events, i)
  }

  lemma {:induction false} KeptStep(front: seq<Event>, last: Event)
    ensures Kept(front + [last]) <==>
            last.AdmissionRetained? || (Kept(front) &&
                            (last.LeaseDropped? ==> !EndsUnresolved(last) && Outstanding(front + [last]) > 0))
  {
    hide Outstanding;
    var events, n := front + [last], |front|;
    assert events[..n + 1] == events;
    forall j | 0 <= j < n ensures events[j] == front[j] && events[..j + 1] == front[..j + 1] {}
    if last.AdmissionRetained? {
      assert KeptSince(events, n);
    } else {
      if Kept(front) && (last.LeaseDropped? ==> !EndsUnresolved(last) && Outstanding(events) > 0) {
        var i :| 0 <= i < n && KeptSince(front, i);
        assert KeptSince(events, i);
      }
      if Kept(events) {
        var i :| 0 <= i <= n && KeptSince(events, i);
        assert i < n;
        assert events[n].LeaseDropped? ==> !EndsUnresolved(events[n]) && Outstanding(events[..n + 1]) > 0;
        forall j | i < j < n && front[j].LeaseDropped?
          ensures !EndsUnresolved(front[j]) && Outstanding(front[..j + 1]) > 0
        {
          assert events[j] == front[j];
        }
        assert KeptSince(front, i);
      }
    }
  }

  /** The effects retain the admission exactly from `admit` to the last lease's end or an unresolved one. */
  lemma {:induction false} AdmissionIsKept(events: seq<Event>)
    requires AfterEvents(events).Some?
    ensures AfterEvents(events).value.admission <==> Kept(events)
  {
    if events != [] {
      var front, last := events[..|events| - 1], events[|events| - 1];
      AdmissionIsKept(front);
      KeptStep(front, last);
      PendingIsOutstanding(front);
      PendingIsOutstanding(events);
      assert events == front + [last];
    }
  }

  /** Persistence owners of one turn and the failed cleanup, if any. */
  datatype Settlement = Settlement(pending: nat, failure: bool)

  /** What waiting for effects answers now: keep waiting, success, or the recorded failure. */
  datatype EffectAnswer = EffectsPending | EffectsOk | EffectsErr(failure: EffectFailure)

  function AnswerOf(e: Effects): EffectAnswer {
    if e.pending > 0 then EffectsPending
    else if e.failure.Some? then EffectsErr(e.failure.value)
    else EffectsOk
  }

  /** The shared effect state, updated under its watch lock; `events` is what has happened to it. */
  class TurnEffects {
    var pending: nat
    var admission: bool
    var failure: Option<EffectFailure>
    ghost var events: seq<Event>

    function Value(): Effects
      reads this
    {
      Effects(pending, admission, failure)
    }

    /** The fields are what the events add up to. */
    ghost predicate Valid()
      reads this
    {
      AfterEvents(events) == Some(Value())
    }

    constructor ()
      ensures Valid() && events == []
    {
      pending, admission, failure, events := 0, false, None, [];
    }

    method Retain()
      requires Valid()
      modifies this
      ensures Valid() && events == old(events) + [LeaseRetained]
    {
      AfterSnoc(events, LeaseRetained);
      pending := pending + 1;
      events := events + [LeaseRetained];
    }

    method Admit()
      requires Valid()
      modifies this
      ensures Valid() && events == old(events) + [AdmissionRetained]
    {
      AfterSnoc(events, AdmissionRetained);
      admission := true;
      events := events + [AdmissionRetained];
    }

    method RecordingFailed()
      requires Valid()
      modifies this
      ensures Valid() && events == old(events) + [FailureReported]
    {
      AfterSnoc(events, FailureReported);
      failure := Some(EffectFailure(false));
      events := events + [FailureReported];
    }

    /** Drops a lease; `parked` when the retained admission moves to the unresolved list. */
    method Release(l: Lease) returns (parked: bool)
      requires Valid() && pending > 0
      modifies this
      ensures Valid() && events == old(events) + [LeaseDropped(l)]
      ensures parked <==> EndsUnresolved(LeaseDropped(l)) && Kept(old(events))
    {
      AdmissionIsKept(events);
      AfterSnoc(events, LeaseDropped(l));
      parked := false;
      if l.recording {
        failure := Some(EffectFailure(false));
      }
      if l.unresolved {
        failure := Some(EffectFailure(true));
        if admission {
          admission := false;
          parked := true;
        }
      }
      pending := pending - 1;
      if pending == 0 {
        admission := false;
      }
      events := events + [LeaseDropped(l)];
    }

    /** One look at the state by a waiter. */
    method Settled() returns (answer: EffectAnswer)
      requires Valid()
      ensures answer.EffectsPending? <==> Outstanding(events) > 0
      ensures answer.EffectsOk? <==> Outstanding(events) == 0 && NoneFails(events)
      ensures answer == EffectsErr(EffectFailure(true)) <==> Outstanding(events) == 0 && LastFailureUnresolved(events)
    {
      PendingIsOutstanding(events);
      SettledIsClean(events);
      ReportedUnresolved(events);
      answer := AnswerOf(Value());
    }
  }
}
