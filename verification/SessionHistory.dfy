/** The history held by an open session handle. */
module SessionHistory {
  import opened Prelude
  import opened BoundedHistory

  datatype Held = Held(bytes: nat, turns: seq<Turn>)

  /** Drops turns from the front until the counted bytes fit. */
  function Evict(held: Held, budget: nat): Held
    decreases |held.turns|
  {
    if held.bytes > budget && held.turns != [] then
      Evict(Held(SaturatingSub(held.bytes, TurnBytes(held.turns[0])), held.turns[1..]), budget)
    else held
  }

  function Pushed(held: Held, turn: Turn, budget: nat): Held {
    Evict(Held(SaturatingAdd(held.bytes, TurnBytes(turn)), held.turns + [turn]), budget)
  }

  function PushedAll(held: Held, turns: seq<Turn>, budget: nat): Held
    decreases |turns|
  {
    if turns == [] then held else PushedAll(Pushed(held, turns[0], budget), turns[1..], budget)
  }

  /** The byte count is exact, as it is until a sum leaves the machine range. */
  predicate Exact(held: Held, budget: nat) {
    held.bytes == Total(held.turns) <= budget
  }

  lemma {:induction false} EvictIsReplay(held: Held, budget: nat)
    requires held.bytes == Total(held.turns)
    ensures Evict(held, budget).turns == Replay(held.turns, budget)
    ensures Exact(Evict(held, budget), budget)
    decreases |held.turns|
  {
    if held.bytes > budget && held.turns != [] {
      var rest := Held(held.bytes - TurnBytes(held.turns[0]), held.turns[1..]);
      EvictIsReplay(rest, budget);
      ReplayDropsFirst(held.turns, budget);
    } else if held.turns != [] {
      ReplayWithinBudget(held.turns, budget);
    }
  }

  /** Without overflow, pushing a turn keeps the longest suffix of the extended history. */
  lemma {:induction false} PushIsReplay(held: Held, turn: Turn, budget: nat)
    requires Exact(held, budget)
    requires held.bytes + TurnBytes(turn) <= USIZE_MAX
    ensures Pushed(held, turn, budget).turns == Replay(held.turns + [turn], budget)
    ensures Exact(Pushed(held, turn, budget), budget)
  {
    hide Evict, Replay, Total, TurnBytes;
    TotalSnoc(held.turns, turn);
    EvictIsReplay(Held(held.bytes + TurnBytes(turn), held.turns + [turn]), budget);
  }

  /** A loaded history, already within budget, is kept whole. */
  lemma {:induction false} PushAllKeepsLoaded(held: Held, turns: seq<Turn>, budget: nat)
    requires Exact(held, budget)
    requires held.bytes + Total(turns) <= budget <= USIZE_MAX
    ensures PushedAll(held, turns, budget) == Held(held.bytes + Total(turns), held.turns + turns)
    decreases |turns|
  {
    if turns == [] {
      assert held.turns + turns == held.turns;
    } else {
      TotalSnoc(held.turns, turns[0]);
      var next := Held(held.bytes + TurnBytes(turns[0]), held.turns + [turns[0]]);
      assert Pushed(held, turns[0], budget) == next;
      PushAllKeepsLoaded(next, turns[1..], budget);
      assert held.turns + turns == next.turns + turns[1..];
    }
  }

  /** Replacing by a loaded history and pushing the completed turn equals a fresh load. */
  lemma {:induction false} HandleAgreesWithLoad(stored: seq<Turn>, completed: Turn, budget: nat)
    requires budget <= USIZE_MAX && Total(Replay(stored, budget)) + TurnBytes(completed) <= USIZE_MAX
    ensures var replaced := PushedAll(Held(0, []), Replay(stored, budget), budget);
            && replaced == Held(Total(Replay(stored, budget)), Replay(stored, budget))
            && Pushed(replaced, completed, budget).turns == Replay(stored + [completed], budget)
  {
    var k := ReplayFits(stored, budget);
    var loaded := Replay(stored, budget);
    PushAllKeepsLoaded(Held(0, []), loaded, budget);
    assert [] + loaded == loaded;
    var replaced := Held(Total(loaded), loaded);
    assert PushedAll(Held(0, []), loaded, budget) == replaced;
    PushIsReplay(replaced, completed, budget);
    AppendAfterReplay(stored, completed, budget);
  }

  class HandleHistory {
    var bytes: nat
    const maxBytes: nat
    var turns: seq<Turn>

    function Value(): Held
      reads this
    {
      Held(bytes, turns)
    }

    constructor (maxBytes: nat)
      ensures this.maxBytes == maxBytes && Value() == Held(0, [])
    {
      this.maxBytes := maxBytes;
      bytes, turns := 0, [];
    }

    method Push(turn: Turn)
      modifies this
      ensures Value() == Pushed(old(Value()), turn, maxBytes)
      ensures old(Exact(Value(), maxBytes)) && old(bytes) + TurnBytes(turn) <= USIZE_MAX ==>
                turns == Replay(old(turns) + [turn], maxBytes) && Exact(Value(), maxBytes)
    {
      if Exact(Value(), maxBytes) && bytes + TurnBytes(turn) <= USIZE_MAX {
        PushIsReplay(Value(), turn, maxBytes);
      }
      bytes := SaturatingAdd(bytes, TurnBytes(turn));
      turns := turns + [turn];
      while bytes > maxBytes && turns != []
        invariant Evict(Value(), maxBytes) == Pushed(old(Value()), turn, maxBytes)
        decreases |turns|
      {
        bytes := SaturatingSub(bytes, TurnBytes(turns[0]));
        turns := turns[1..];
      }
    }

    method Replace(loaded: seq<Turn>)
      modifies this
      ensures Value() == PushedAll(Held(0, []), loaded, maxBytes)
      ensures Total(loaded) <= maxBytes <= USIZE_MAX ==> turns == loaded && Exact(Value(), maxBytes)
    {
      bytes, turns := 0, [];
      for i := 0 to |loaded|
        invariant PushedAll(Value(), loaded[i..], maxBytes) == PushedAll(Held(0, []), loaded, maxBytes)
      {
        assert loaded[i..][0] == loaded[i] && loaded[i..][1..] == loaded[i + 1..];
        Push(loaded[i]);
      }
      if Total(loaded) <= maxBytes <= USIZE_MAX {
        PushAllKeepsLoaded(Held(0, []), loaded, maxBytes);
        assert [] + loaded == loaded;
      }
    }
  }
}
