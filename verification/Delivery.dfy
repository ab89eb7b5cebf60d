/**
 * Lifecycle events of one emitter delivered to a set of observers by many threads, with callbacks that may emit
 * again on their own thread. Every step is one critical section, one callback entry or one callback return.
 */
module Delivery {
  import opened Prelude

  type Thread = nat

  /** Where the outermost emission of a thread stands; `calling` while observer `index` runs its callback. */
  datatype Outer =
    | Entered(sequence: nat)
    | Delivering(sequence: nat, index: nat, calling: bool)
    | Returning

  /** An emission made by a callback. */
  datatype Nested = NoNested | NestedEntered(sequence: nat) | NestedQueued

  datatype Frame = Frame(outer: Outer, nested: Nested)

  /** The coordinator (owner, depth, next), the set (setOwner, pending) and what each observer received. */
  datatype State = State(
    owner: Option<Thread>,
    depth: nat,
    next: nat,
    setOwner: Option<Thread>,
    pending: seq<nat>,
    received: seq<seq<nat>>,
    frames: map<Thread, Frame>)

  datatype Step =
    | Enter(t: Thread)
    | Observe(t: Thread)
    | Call(t: Thread)
    | Return(t: Thread)
    | Drain(t: Thread)
    | Exit(t: Thread)

  function Initial(observers: nat): State {
    State(None, 0, 0, None, [], seq(observers, _ => []), map[])
  }

  /** The thread's code may call `emit`: from outside, or from inside a callback. */
  predicate MayEmit(s: State, t: Thread) {
    t in s.frames ==>
      s.frames[t].outer.Delivering? && s.frames[t].outer.calling && s.frames[t].nested.NoNested?
  }

  predicate Enabled(s: State, step: Step) {
    match step
    case Enter(t) => (s.owner.None? || s.owner == Some(t)) && MayEmit(s, t)
    case Observe(t) =>
      && t in s.frames
      && (s.frames[t].nested.NestedEntered? || (s.frames[t].nested.NoNested? && s.frames[t].outer.Entered?))
      && (s.setOwner.None? || s.setOwner == Some(t))
    case Call(t) =>
      && t in s.frames && s.frames[t].outer.Delivering? && !s.frames[t].outer.calling
      && s.frames[t].outer.index < |s.received|
    case Return(t) =>
      && t in s.frames && s.frames[t].outer.Delivering? && s.frames[t].outer.calling && s.frames[t].nested.NoNested?
    case Drain(t) =>
      && t in s.frames && s.frames[t].outer.Delivering? && !s.frames[t].outer.calling
      && s.frames[t].outer.index >= |s.received|
    case Exit(t) =>
      && t in s.frames && s.depth > 0
      && (s.frames[t].nested.NestedQueued? || (s.frames[t].nested.NoNested? && s.frames[t].outer.Returning?))
  }

  function With(s: State, t: Thread, frame: Frame): State {
    s.(frames := s.frames[t := frame])
  }

  function EnterStep(s: State, t: Thread): State {
    var frame := if t in s.frames then s.frames[t].(nested := NestedEntered(s.next))
                 else Frame(Entered(s.next), NoNested);
    With(s, t, frame).(depth := s.depth + 1, owner := Some(t), next := s.next + 1)
  }

  /** The set's owner queues; any other thread becomes the owner and starts delivering. */
  function ObserveStep(s: State, t: Thread): State
    requires Enabled(s, Observe(t))
  {
    var frame := s.frames[t];
    var event := if frame.nested.NestedEntered? then frame.nested.sequence else frame.outer.sequence;
    var queues := s.setOwner == Some(t);
    var entering := if queues then s.(pending := s.pending + [event]) else s.(setOwner := Some(t));
    With(entering, t,
         if frame.nested.NestedEntered? then frame.(nested := NestedQueued)
         else frame.(outer := if queues then Returning else Delivering(event, 0, false)))
  }

  function CallStep(s: State, t: Thread): State
    requires Enabled(s, Call(t))
  {
    var outer := s.frames[t].outer;
    With(s, t, s.frames[t].(outer := outer.(calling := true)))
      .(received := s.received[outer.index := s.received[outer.index] + [outer.sequence]])
  }

  function DrainStep(s: State, t: Thread): State
    requires Enabled(s, Drain(t))
  {
    if s.pending == [] then
      With(s, t, s.frames[t].(outer := Returning)).(setOwner := None)
    else
      With(s, t, s.frames[t].(outer := Delivering(s.pending[0], 0, false))).(pending := s.pending[1..])
  }

  function ExitStep(s: State, t: Thread): State
    requires Enabled(s, Exit(t))
  {
    s.(depth := s.depth - 1,
       owner := if s.depth == 1 then None else s.owner,
       frames := if s.frames[t].nested.NestedQueued? then s.frames[t := s.frames[t].(nested := NoNested)]
                 else s.frames - {t})
  }

  function Apply(s: State, step: Step): State
    requires Enabled(s, step)
  {
    match step
    case Enter(t) => EnterStep(s, t)
    case Observe(t) => ObserveStep(s, t)
    case Call(t) => CallStep(s, t)
    case Return(t) =>
      With(s, t, s.frames[t].(outer := Delivering(s.frames[t].outer.sequence, s.frames[t].outer.index + 1, false)))
    case Drain(t) => DrainStep(s, t)
    case Exit(t) => ExitStep(s, t)
  }

  function After(observers: nat, steps: seq<Step>): Option<State> {
    if steps == [] then Some(Initial(observers))
    else
      var before := After(observers, steps[..|steps| - 1]);
      if before.Some? && Enabled(before.value, steps[|steps| - 1])
      then Some(Apply(before.value, steps[|steps| - 1]))
      else None
  }

  /** The sequence numbers lo, lo + 1, ..., hi - 1. */
  function Range(lo: nat, hi: nat): (r: seq<nat>)
    requires lo <= hi
    ensures |r| == hi - lo && forall i :: 0 <= i < |r| ==> r[i] == lo + i
  {
    seq(hi - lo, i requires 0 <= i < hi - lo => lo + i)
  }

  lemma {:induction false} RangeExtends(lo: nat, hi: nat)
    requires lo <= hi
    ensures Range(lo, hi) + [hi] == Range(lo, hi + 1)
  {
  }

  lemma {:induction false} RangeTail(lo: nat, hi: nat)
    requires lo < hi
    ensures Range(lo, hi)[0] == lo && Range(lo, hi)[1..] == Range(lo + 1, hi)
  {
  }

  /** The first `count` observers have received everything below `hi`, the others everything below `lo`. */
  ghost predicate ReceivedBy(s: State, count: nat, hi: nat, lo: nat) {
    && (forall o :: 0 <= o < |s.received| && o < count ==> s.received[o] == Range(0, hi))
    && (forall o :: count <= o < |s.received| ==> s.received[o] == Range(0, lo))
  }

  ghost predicate AllReceived(s: State, n: nat) {
    forall o :: 0 <= o < |s.received| ==> s.received[o] == Range(0, n)
  }

  /** Events handed to the set so far; a callback's own new event may still be on its way. */
  function Handed(s: State, frame: Frame): int {
    if frame.nested.NestedEntered? then s.next - 1 else s.next
  }

  ghost predicate OwnerInv(s: State, t: Thread, frame: Frame) {
    && s.owner == Some(t)
    && s.depth == (if frame.nested.NoNested? then 1 else 2)
    && (frame.nested.NestedEntered? ==> frame.nested.sequence == s.next - 1)
    && match frame.outer
       case Entered(n) =>
         frame.nested.NoNested? && s.setOwner.None? && s.pending == [] && n + 1 == s.next && AllReceived(s, n)
       case Delivering(n, i, calling) =>
         && (!calling ==> frame.nested.NoNested?)
         && i <= |s.received| && (calling ==> i < |s.received|)
         && s.setOwner == Some(t)
         && n < Handed(s, frame)
         && s.pending == Range(n + 1, Handed(s, frame))
         && ReceivedBy(s, if calling then i + 1 else i, n + 1, n)
       case Returning =>
         frame.nested.NoNested? && s.setOwner.None? && s.pending == [] && AllReceived(s, s.next)
  }

  ghost predicate IdleInv(s: State) {
    s.owner.None? && s.depth == 0 && s.setOwner.None? && s.pending == [] && AllReceived(s, s.next)
  }

  /** Either nobody emits, or exactly the coordinator's owner does. */
  ghost predicate Inv(s: State) {
    && (forall t :: t in s.frames ==> OwnerInv(s, t, s.frames[t]))
    && (s.frames == map[] ==> IdleInv(s))
  }

  /** All emitting threads are the owner. */
  lemma {:induction false} OneEmitter(s: State, t: Thread, u: Thread)
    requires Inv(s) && t in s.frames && u in s.frames
    ensures t == u
  {
    assert OwnerInv(s, t, s.frames[t]) && OwnerInv(s, u, s.frames[u]);
  }

  lemma {:induction false} OnlyFrame(s: State, t: Thread)
    requires Inv(s) && t in s.frames
    ensures s.frames == map[t := s.frames[t]]
  {
    forall u | u in s.frames ensures u == t {
      OneEmitter(s, t, u);
    }
  }

  lemma {:induction false} EnterKeeps(s: State, t: Thread)
    requires Inv(s) && Enabled(s, Enter(t))
    ensures Inv(EnterStep(s, t))
  {
    var n := EnterStep(s, t);
    if t in s.frames {
      OnlyFrame(s, t);
      assert OwnerInv(n, t, n.frames[t]);
    } else {
      NobodyEmits(s, t);
      assert n.frames == map[t := Frame(Entered(s.next), NoNested)];
    }
  }

  lemma {:induction false} NobodyEmits(s: State, t: Thread)
    requires Inv(s) && t !in s.frames && (s.owner.None? || s.owner == Some(t))
    ensures s.frames == map[]
  {
    assert forall u :: u in s.frames ==> s.owner == Some(u);
  }

  lemma {:induction false} ObserveKeeps(s: State, t: Thread)
    requires Inv(s) && Enabled(s, Observe(t))
    ensures Inv(ObserveStep(s, t))
  {
    OnlyFrame(s, t);
    var frame := s.frames[t];
    var n := ObserveStep(s, t);
    if frame.nested.NestedEntered? {
      RangeExtends(frame.outer.sequence + 1, s.next - 1);
    }
    assert OwnerInv(n, t, n.frames[t]);
  }

  lemma {:induction false} CallKeeps(s: State, t: Thread)
    requires Inv(s) && Enabled(s, Call(t))
    ensures Inv(CallStep(s, t))
  {
    OnlyFrame(s, t);
    RangeExtends(0, s.frames[t].outer.sequence);
    var n := CallStep(s, t);
    assert OwnerInv(n, t, n.frames[t]);
  }

  lemma {:induction false} DrainKeeps(s: State, t: Thread)
    requires Inv(s) && Enabled(s, Drain(t))
    ensures Inv(DrainStep(s, t))
  {
    hide Range;
    OnlyFrame(s, t);
    var sequence := s.frames[t].outer.sequence;
    var n := DrainStep(s, t);
    if sequence + 1 < s.next {
      RangeTail(sequence + 1, s.next);
    }
    assert n.received == s.received;
    assert OwnerInv(n, t, n.frames[t]);
  }

  lemma {:induction false} ExitKeeps(s: State, t: Thread)
    requires Inv(s) && Enabled(s, Exit(t))
    ensures Inv(ExitStep(s, t))
  {
    OnlyFrame(s, t);
    var n := ExitStep(s, t);
    if s.frames[t].nested.NestedQueued? {
      assert OwnerInv(n, t, n.frames[t]);
    } else {
      assert n.frames == map[];
    }
  }

  lemma {:induction false} StepKeeps(s: State, step: Step)
    requires Inv(s) && Enabled(s, step)
    ensures Inv(Apply(s, step)) && |Apply(s, step).received| == |s.received|
  {
    match step
    case Enter(t) => EnterKeeps(s, t);
    case Observe(t) => ObserveKeeps(s, t);
    case Call(t) => CallKeeps(s, t);
    case Return(t) =>
      OnlyFrame(s, t);
      assert OwnerInv(Apply(s, step), t, Apply(s, step).frames[t]);
    case Drain(t) => DrainKeeps(s, t);
    case Exit(t) => ExitKeeps(s, t);
  }

  lemma {:induction false} RunInv(observers: nat, steps: seq<Step>)
    ensures After(observers, steps).Some? ==>
              Inv(After(observers, steps).value) && |After(observers, steps).value.received| == observers
  {
    hide Apply, Enabled;
    if steps != [] && After(observers, steps).Some? {
      RunInv(observers, steps[..|steps| - 1]);
      StepKeeps(After(observers, steps[..|steps| - 1]).value, steps[|steps| - 1]);
    }
  }

  /** In every run each observer has received 0, 1, 2, ... without gap, repetition or reordering. */
  lemma {:induction false} ReceivedInOrder(observers: nat, steps: seq<Step>, s: State, o: nat)
    requires After(observers, steps) == Some(s) && o < observers
    ensures o < |s.received| && |s.received[o]| <= s.next && s.received[o] == Range(0, |s.received[o]|)
  {
    RunInv(observers, steps);
    if s.frames != map[] {
      var t :| t in s.frames;
      assert OwnerInv(s, t, s.frames[t]);
    }
  }

  /** When an outermost emission returns, every event emitted so far has reached every observer. */
  lemma {:induction false} DrainedBeforeReturn(observers: nat, steps: seq<Step>, s: State, t: Thread)
    requires After(observers, steps) == Some(s) && Enabled(s, Exit(t)) && s.frames[t].nested.NoNested?
    ensures s.pending == [] && AllReceived(s, s.next) && t !in Apply(s, Exit(t)).frames
    ensures Apply(s, Exit(t)).owner.None?
  {
    RunInv(observers, steps);
    assert OwnerInv(s, t, s.frames[t]);
  }

  /** Callbacks never deliver recursively: an emission inside a callback only queues its event. */
  lemma {:induction false} NestingIsFlat(observers: nat, steps: seq<Step>, s: State)
    requires After(observers, steps) == Some(s)
    ensures s.depth <= 2 && |s.frames| <= 1
  {
    RunInv(observers, steps);
    if s.frames != map[] {
      var t :| t in s.frames;
      assert OwnerInv(s, t, s.frames[t]);
      OnlyFrame(s, t);
    }
  }
}
