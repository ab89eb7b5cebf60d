/** The longest suffix of whole turns that fits a byte budget, and the two in-process ways to keep it. */
module BoundedHistory {
  import opened Prelude
  import opened Messages

  type Turn = seq<ModelMessage>

  function TurnBytes(turn: Turn): nat {
    if turn == [] then 0 else SaturatingAdd(TurnBytes(turn[..|turn| - 1]), RetainedBytes(turn[|turn| - 1]))
  }

  /** Exact, unsaturated total. */
  function Total(turns: seq<Turn>): nat {
    if turns == [] then 0 else TurnBytes(turns[0]) + Total(turns[1..])
  }

  /** `kept` is a suffix within budget that no longer suffix extends within budget. */
  ghost predicate IsLongestSuffix(kept: seq<Turn>, turns: seq<Turn>, budget: nat) {
    exists k :: 0 <= k <= |turns| && FitsFrom(turns, k, kept, budget)
  }

  ghost predicate FitsFrom(turns: seq<Turn>, k: nat, kept: seq<Turn>, budget: nat)
    requires k <= |turns|
  {
    && kept == turns[k..]
    && Total(kept) <= budget
    && forall j :: 0 <= j < k ==> Total(turns[j..]) > budget
  }

  /** The replayed history, found by scanning back from the newest turn. */
  function Replay(turns: seq<Turn>, budget: nat): (kept: seq<Turn>)
  {
    if turns == [] then []
    else
      var last := turns[|turns| - 1];
      if TurnBytes(last) > budget then []
      else Replay(turns[..|turns| - 1], budget - TurnBytes(last)) + [last]
  }

  lemma {:induction false} TotalConcat(a: seq<Turn>, b: seq<Turn>)
    ensures Total(a + b) == Total(a) + Total(b)
  {
    if a == [] {
      assert a + b == b;
    } else {
      TotalConcat(a[1..], b);
      assert (a + b)[1..] == a[1..] + b;
    }
  }

  lemma {:induction false} TotalSuffix(turns: seq<Turn>, k: nat)
    requires k <= |turns|
    ensures Total(turns[k..]) <= Total(turns)
  {
    TotalConcat(turns[..k], turns[k..]);
    assert turns == turns[..k] + turns[k..];
  }

  lemma {:induction false} TotalSnoc(turns: seq<Turn>, last: Turn)
    ensures Total(turns + [last]) == Total(turns) + TurnBytes(last)
  {
    TotalConcat(turns, [last]);
    assert [last][1..] == [];
  }

  lemma {:induction false} NothingFits(front: seq<Turn>, last: Turn, budget: nat)
    requires TurnBytes(last) > budget
    ensures FitsFrom(front + [last], |front| + 1, [], budget)
  {
    var turns := front + [last];
    forall j | 0 <= j < |turns| ensures Total(turns[j..]) > budget {
      assert turns[j..] == front[j..] + [last];
      TotalSnoc(front[j..], last);
    }
  }

  lemma {:induction false} LastFits(front: seq<Turn>, last: Turn, k: nat, kept: seq<Turn>, rest: nat)
    requires k <= |front| && FitsFrom(front, k, kept, rest)
    ensures FitsFrom(front + [last], k, kept + [last], rest + TurnBytes(last))
  {
    var turns := front + [last];
    forall j | 0 <= j <= k ensures Total(turns[j..]) == Total(front[j..]) + TurnBytes(last) {
      assert turns[j..] == front[j..] + [last];
      TotalSnoc(front[j..], last);
    }
    assert turns[k..] == kept + [last];
  }

  lemma {:induction false} ReplayFits(turns: seq<Turn>, budget: nat) returns (k: nat)
    ensures k <= |turns| && FitsFrom(turns, k, Replay(turns, budget), budget)
  {
    if turns == [] {
      k := 0;
    } else {
      var front, last := turns[..|turns| - 1], turns[|turns| - 1];
      assert turns == front + [last];
      if TurnBytes(last) > budget {
        NothingFits(front, last, budget);
        k := |turns|;
      } else {
        var rest := budget - TurnBytes(last);
        k := ReplayFits(front, rest);
        LastFits(front, last, k, Replay(front, rest), rest);
      }
    }
  }

  /** Replay is the longest suffix within budget. */
  lemma {:induction false} ReplayIsLongest(turns: seq<Turn>, budget: nat)
    ensures IsLongestSuffix(Replay(turns, budget), turns, budget)
  {
    var k := ReplayFits(turns, budget);
  }

  /** There is only one longest suffix. */
  lemma {:induction false} LongestIsUnique(a: seq<Turn>, b: seq<Turn>, turns: seq<Turn>, budget: nat)
    requires IsLongestSuffix(a, turns, budget) && IsLongestSuffix(b, turns, budget)
    ensures a == b
  {
    var k :| 0 <= k <= |turns| && FitsFrom(turns, k, a, budget);
    var l :| 0 <= l <= |turns| && FitsFrom(turns, l, b, budget);
    assert k == l;
  }

  lemma {:induction false} FitsIsReplay(turns: seq<Turn>, k: nat, kept: seq<Turn>, budget: nat)
    requires k <= |turns| && FitsFrom(turns, k, kept, budget)
    ensures kept == Replay(turns, budget)
  {
    ReplayIsLongest(turns, budget);
    LongestIsUnique(kept, Replay(turns, budget), turns, budget);
  }

  /** A history over budget keeps what its tail keeps. */
  lemma {:induction false} ReplayDropsFirst(turns: seq<Turn>, budget: nat)
    requires turns != [] && Total(turns) > budget
    ensures Replay(turns, budget) == Replay(turns[1..], budget)
  {
    var rest := turns[1..];
    var k := ReplayFits(rest, budget);
    var kept := Replay(rest, budget);
    forall j | 0 <= j < k + 1 ensures Total(turns[j..]) > budget {
      if j > 0 {
        assert turns[j..] == rest[j - 1..];
      } else {
        assert turns[0..] == turns;
      }
    }
    assert turns[k + 1..] == rest[k..];
    FitsIsReplay(turns, k + 1, kept, budget);
  }

  lemma {:induction false} ReplayWithinBudget(turns: seq<Turn>, budget: nat)
    requires Total(turns) <= budget
    ensures Replay(turns, budget) == turns
  {
    assert FitsFrom(turns, 0, turns, budget) by { assert turns[0..] == turns; }
    FitsIsReplay(turns, 0, turns, budget);
  }

  /** Evicting to a budget and then appending loses nothing that a fresh load would keep. */
  lemma {:induction false} AppendAfterReplay(turns: seq<Turn>, last: Turn, budget: nat)
    ensures Replay(Replay(turns, budget) + [last], budget) == Replay(turns + [last], budget)
  {
    hide Replay, Total, TurnBytes;
    var k := ReplayFits(turns, budget);
    var kept := Replay(turns, budget);
    var all := turns + [last];
    var j := ReplayFits(kept + [last], budget);
    var newest := Replay(kept + [last], budget);
    forall i | 0 <= i <= |kept| + 1 ensures all[k + i..] == (kept + [last])[i..] {}
    forall i | 0 <= i < k + j ensures Total(all[i..]) > budget {
      if i >= k {
        assert all[i..] == (kept + [last])[i - k..];
      } else {
        assert all[i..] == turns[i..] + [last];
        TotalSnoc(turns[i..], last);
      }
    }
    FitsIsReplay(all, k + j, newest, budget);
  }
}
