/** The SQLite history load: sizes scanned newest-first in pages, then message rows regrouped by turn. */
module PagedHistory {
  import opened Prelude
  import opened Messages
  import opened BoundedHistory

  const PAGE_SIZE: nat := 64

  /** A completed turn and the messages stored for it, in order. */
  datatype StoredTurn = StoredTurn(position: int, messages: Turn)

  datatype Row = Row(position: int, message: ModelMessage)

  /** Completed turns oldest first; every turn stores at least its user message. */
  ghost predicate Stored(turns: seq<StoredTurn>) {
    && (forall i, j :: 0 <= i < j < |turns| ==> turns[i].position < turns[j].position)
    && (forall i :: 0 <= i < |turns| ==> 0 <= turns[i].position <= I64_MAX && turns[i].messages != [])
  }

  function StoredMessageBytes(m: ModelMessage): nat { Min(RetainedBytes(m), I64_MAX) }

  /** The summed byte column of one turn. */
  function StoredBytes(turn: Turn): nat {
    if turn == [] then 0 else StoredBytes(turn[..|turn| - 1]) + StoredMessageBytes(turn[|turn| - 1])
  }

  function ExactBytes(turn: Turn): nat {
    if turn == [] then 0 else ExactBytes(turn[..|turn| - 1]) + RetainedBytes(turn[|turn| - 1])
  }

  /** Every turn's bytes fit the signed column. */
  ghost predicate Fits(turns: seq<StoredTurn>) {
    forall i :: 0 <= i < |turns| ==> ExactBytes(turns[i].messages) <= I64_MAX
  }

  lemma {:induction false} StoredIsExact(turn: Turn)
    requires ExactBytes(turn) <= I64_MAX
    ensures StoredBytes(turn) == ExactBytes(turn) == TurnBytes(turn)
  {
    if turn != [] {
      StoredIsExact(turn[..|turn| - 1]);
    }
  }

  function Contents(turns: seq<StoredTurn>): (contents: seq<Turn>)
    ensures |contents| == |turns|
    ensures forall i :: 0 <= i < |turns| ==> contents[i] == turns[i].messages
  {
    seq(|turns|, i requires 0 <= i < |turns| => turns[i].messages)
  }

  /** Number of turns at or below a position; they form a prefix. */
  function CountThrough(turns: seq<StoredTurn>, end: int): (n: nat)
    requires Stored(turns)
    ensures n <= |turns|
    ensures forall i :: 0 <= i < n ==> turns[i].position <= end
    ensures forall i :: n <= i < |turns| ==> turns[i].position > end
  {
    if turns == [] || turns[|turns| - 1].position <= end then |turns|
    else CountThrough(turns[..|turns| - 1], end)
  }

  lemma {:induction false} CountThroughEnd(turns: seq<StoredTurn>, end: int, n: nat)
    requires Stored(turns) && n <= |turns|
    requires n > 0 ==> turns[n - 1].position <= end
    requires n < |turns| ==> turns[n].position > end
    ensures CountThrough(turns, end) == n
  {
    var c := CountThrough(turns, end);
    assert c <= n;
    assert n <= c;
  }

  /** The newest turns through a position, newest first, at most one page. */
  function Page(turns: seq<StoredTurn>, end: int): (page: seq<StoredTurn>)
    requires Stored(turns)
    ensures var n := CountThrough(turns, end);
            && |page| == Min(n, PAGE_SIZE)
            && forall k :: 0 <= k < |page| ==> page[k] == turns[n - 1 - k]
  {
    var n := CountThrough(turns, end);
    seq(Min(n, PAGE_SIZE), k requires 0 <= k < Min(n, PAGE_SIZE) => turns[n - 1 - k])
  }

  /** Exactly the newest `count` turns are accepted so far, within budget. */
  ghost predicate Accepted(turns: seq<StoredTurn>, count: nat, retained: nat, budget: nat) {
    && count <= |turns|
    && retained == Total(Contents(turns)[|turns| - count..]) <= budget
  }

  ghost predicate Stopped(turns: seq<StoredTurn>, count: nat, budget: nat)
    requires count <= |turns|
  {
    FitsFrom(Contents(turns), |turns| - count, Contents(turns)[|turns| - count..], budget)
  }

  lemma {:induction false} TotalBefore(turns: seq<StoredTurn>, k: nat)
    requires 0 < k <= |turns|
    ensures Total(Contents(turns)[k - 1..]) == TurnBytes(turns[k - 1].messages) + Total(Contents(turns)[k..])
  {
    var c := Contents(turns);
    assert c[k - 1..][1..] == c[k..] && c[k - 1..][0] == turns[k - 1].messages;
  }

  /** Rejecting one turn stops the scan for good: every longer suffix is larger still. */
  lemma {:induction false} RejectedStops(turns: seq<StoredTurn>, count: nat, retained: nat, budget: nat)
    requires Accepted(turns, count, retained, budget)
    requires count == |turns| || retained + TurnBytes(turns[|turns| - count - 1].messages) > budget
    ensures Stopped(turns, count, budget)
  {
    var c, k := Contents(turns), |turns| - count;
    if k > 0 {
      TotalBefore(turns, k);
      forall j | 0 <= j < k ensures Total(c[j..]) > budget {
        TotalSuffix(c[j..], k - 1 - j);
        assert c[j..][k - 1 - j..] == c[k - 1..];
      }
    }
  }

  /** One turn older still fits. */
  lemma {:induction false} AcceptNext(turns: seq<StoredTurn>, count: nat, retained: nat, budget: nat)
    requires Accepted(turns, count, retained, budget) && count < |turns|
    requires retained + TurnBytes(turns[|turns| - count - 1].messages) <= budget
    ensures Accepted(turns, count + 1, retained + TurnBytes(turns[|turns| - count - 1].messages), budget)
  {
    TotalBefore(turns, |turns| - count);
  }

  /** The stored size is the exact one, and adding it to a retained size cannot saturate below the budget. */
  lemma {:induction false} NextSize(turns: seq<StoredTurn>, i: nat, retained: nat, budget: nat)
    requires Fits(turns) && i < |turns| && retained <= budget <= I64_MAX
    ensures StoredBytes(turns[i].messages) == TurnBytes(turns[i].messages)
    ensures SaturatingAdd(retained, StoredBytes(turns[i].messages)) == retained + TurnBytes(turns[i].messages)
  {
    StoredIsExact(turns[i].messages);
  }

  /** Position of the oldest of the newest `count` turns. */
  ghost function Oldest(turns: seq<StoredTurn>, count: nat): Option<int>
    requires count <= |turns|
  {
    if count == 0 then None else Some(turns[|turns| - count].position)
  }

  /** Scans one page; `rejected` when a turn did not fit. */
  method ScanPage(turns: seq<StoredTurn>, page: seq<StoredTurn>, ghost start: nat,
                  oldest: Option<int>, retained: nat, budget: nat)
    returns (nextOldest: Option<int>, nextRetained: nat, rejected: bool, ghost count: nat)
    requires Fits(turns) && budget <= I64_MAX
    requires start + |page| <= |turns| && Accepted(turns, start, retained, budget) && retained <= budget
    requires forall k :: 0 <= k < |page| ==> page[k] == turns[|turns| - start - 1 - k]
    requires oldest == Oldest(turns, start)
    ensures start <= count <= start + |page| && Accepted(turns, count, nextRetained, budget) && nextRetained <= budget
    ensures nextOldest == Oldest(turns, count)
    ensures !rejected ==> count == start + |page|
    ensures rejected ==> Stopped(turns, count, budget)
  {
    hide Accepted, Stopped, StoredBytes, TurnBytes, SaturatingAdd, Fits;
    nextOldest, nextRetained, rejected, count := oldest, retained, false, start;
    for k := 0 to |page|
      invariant count == start + k && Accepted(turns, count, nextRetained, budget) && nextRetained <= budget
      invariant nextOldest == Oldest(turns, count)
    {
      ghost var i := |turns| - count - 1;
      NextSize(turns, i, nextRetained, budget);
      var next := SaturatingAdd(nextRetained, StoredBytes(page[k].messages));
      if next > budget {
        RejectedStops(turns, count, nextRetained, budget);
        rejected := true;
        return;
      }
      AcceptNext(turns, count, nextRetained, budget);
      nextRetained, nextOldest := next, Some(page[k].position);
      count := count + 1;
    }
  }

  /** Position of the oldest turn in the longest suffix within budget, scanning one page of sizes at a time. */
  method OldestWithinBudget(turns: seq<StoredTurn>, budget: nat) returns (oldest: Option<int>, ghost count: nat)
    requires Stored(turns) && Fits(turns) && budget <= I64_MAX
    ensures count <= |turns| && Stopped(turns, count, budget)
    ensures oldest == Oldest(turns, count)
  {
    hide Stopped, Fits, Accepted, CountThrough;
    var retained: nat := 0;
    oldest, count := None, 0;
    NoneAccepted(turns, budget);
    while true
      invariant count <= |turns| && Accepted(turns, count, retained, budget) && retained <= budget
      invariant oldest == Oldest(turns, count)
      decreases |turns| - count
    {
      var end := if oldest.None? then I64_MAX else oldest.value - 1;
      var page := Page(turns, end);
      CountThroughEnd(turns, end, |turns| - count);
      if page == [] {
        break;
      }
      var rejected;
      oldest, retained, rejected, count := ScanPage(turns, page, count, oldest, retained, budget);
      if rejected {
        return;
      }
      if |page| < PAGE_SIZE {
        break;
      }
    }
    RejectedStops(turns, count, retained, budget);
  }

  lemma {:induction false} NoneAccepted(turns: seq<StoredTurn>, budget: nat)
    ensures Accepted(turns, 0, 0, budget)
  {
    assert Contents(turns)[|turns|..] == [];
  }

  /** Rows of the kept turns, ordered by turn and message position. */
  function Rows(turns: seq<StoredTurn>): seq<Row> {
    if turns == [] then []
    else Rows(turns[..|turns| - 1]) + TurnRows(turns[|turns| - 1])
  }

  function TurnRows(turn: StoredTurn): (rows: seq<Row>)
    ensures |rows| == |turn.messages|
    ensures forall i :: 0 <= i < |rows| ==> rows[i] == Row(turn.position, turn.messages[i])
  {
    seq(|turn.messages|, i requires 0 <= i < |turn.messages| => Row(turn.position, turn.messages[i]))
  }

  /** Starting a new turn whenever the position changes. */
  function Grouped(rows: seq<Row>): (turns: seq<StoredTurn>)
    ensures (rows == []) == (turns == [])
    ensures rows != [] ==> turns[|turns| - 1].position == rows[|rows| - 1].position
  {
    if rows == [] then []
    else
      var groups, row := Grouped(rows[..|rows| - 1]), rows[|rows| - 1];
      if groups != [] && groups[|groups| - 1].position == row.position then
        var last := groups[|groups| - 1];
        groups[|groups| - 1 := last.(messages := last.messages + [row.message])]
      else groups + [StoredTurn(row.position, [row.message])]
  }

  /** A row of another turn starts a group; a row of the last turn joins it. */
  lemma {:induction false} GroupedSnoc(rows: seq<Row>, row: Row)
    ensures Grouped(rows + [row]) ==
            var groups := Grouped(rows);
            if groups != [] && groups[|groups| - 1].position == row.position then
              var last := groups[|groups| - 1];
              groups[|groups| - 1 := last.(messages := last.messages + [row.message])]
            else groups + [StoredTurn(row.position, [row.message])]
  {
    assert (rows + [row])[..|rows|] == rows;
  }

  lemma {:induction false} GroupedTurnRows(earlier: seq<Row>, turn: StoredTurn, n: nat)
    requires earlier != [] ==> earlier[|earlier| - 1].position != turn.position
    requires 0 < n <= |turn.messages|
    ensures Grouped(earlier + TurnRows(turn)[..n]) ==
            Grouped(earlier) + [StoredTurn(turn.position, turn.messages[..n])]
  {
    hide Grouped, TurnRows;
    var row := Row(turn.position, turn.messages[n - 1]);
    var before := earlier + TurnRows(turn)[..n - 1];
    assert earlier + TurnRows(turn)[..n] == before + [row];
    GroupedSnoc(before, row);
    if n == 1 {
      assert before == earlier;
      assert turn.messages[..1] == [turn.messages[0]];
    } else {
      GroupedTurnRows(earlier, turn, n - 1);
      assert turn.messages[..n] == turn.messages[..n - 1] + [turn.messages[n - 1]];
    }
  }

  lemma {:induction false} StoredPrefix(turns: seq<StoredTurn>)
    requires Stored(turns) && turns != []
    ensures Stored(turns[..|turns| - 1])
  {
  }

  lemma {:induction false} GroupedLast(earlier: seq<Row>, turn: StoredTurn)
    requires earlier != [] ==> earlier[|earlier| - 1].position != turn.position
    requires turn.messages != []
    ensures Grouped(earlier + TurnRows(turn)) == Grouped(earlier) + [turn]
  {
    hide Grouped;
    GroupedTurnRows(earlier, turn, |turn.messages|);
    assert TurnRows(turn)[..|turn.messages|] == TurnRows(turn);
    assert turn.messages[..|turn.messages|] == turn.messages;
  }

  /** Regrouping the rows of distinct turns gives back the turns. */
  lemma {:induction false} GroupedRows(turns: seq<StoredTurn>)
    requires Stored(turns)
    ensures Grouped(Rows(turns)) == turns
    ensures turns != [] ==> Rows(turns) != [] && Rows(turns)[|Rows(turns)| - 1].position == turns[|turns| - 1].position
  {
    hide Grouped;
    if turns != [] {
      var earlier, last := turns[..|turns| - 1], turns[|turns| - 1];
      StoredPrefix(turns);
      GroupedRows(earlier);
      GroupedLast(Rows(earlier), last);
      assert turns == earlier + [last];
    }
  }

  function AppendToLast(turns: seq<Turn>, m: ModelMessage): seq<Turn>
    requires turns != []
  {
    turns[|turns| - 1 := turns[|turns| - 1] + [m]]
  }

  lemma {:induction false} ContentsStep(rows: seq<Row>, row: Row)
    ensures var before := Contents(Grouped(rows));
            Contents(Grouped(rows + [row])) ==
            AppendToLast(if rows != [] && rows[|rows| - 1].position == row.position then before else before + [[]],
                         row.message)
  {
    assert (rows + [row])[..|rows|] == rows;
    var before, groups := Contents(Grouped(rows)), Grouped(rows + [row]);
    if rows != [] && rows[|rows| - 1].position == row.position {
      assert Contents(groups) == AppendToLast(before, row.message);
    } else {
      var none: Turn := [];
      assert none + [row.message] == [row.message];
      assert Contents(groups) == AppendToLast(before + [none], row.message);
    }
  }

  method GroupRows(rows: seq<Row>) returns (turns: seq<Turn>)
    ensures turns == Contents(Grouped(rows))
  {
    hide Grouped, Contents;
    turns := [];
    var current: Option<int> := None;
    for i := 0 to |rows|
      invariant turns == Contents(Grouped(rows[..i]))
      invariant current == if i == 0 then None else Some(rows[i - 1].position)
    {
      ContentsStep(rows[..i], rows[i]);
      assert rows[..i + 1] == rows[..i] + [rows[i]];
      if current != Some(rows[i].position) {
        turns := turns + [[]];
        current := Some(rows[i].position);
      }
      turns := AppendToLast(turns, rows[i].message);
    }
    assert rows[..|rows|] == rows;
  }

  /** Turns from a position on. */
  function From(turns: seq<StoredTurn>, position: int): seq<StoredTurn> {
    if turns == [] || turns[0].position >= position then turns else From(turns[1..], position)
  }

  lemma {:induction false} FromIsSuffix(turns: seq<StoredTurn>, k: nat)
    requires Stored(turns) && k < |turns|
    ensures From(turns, turns[k].position) == turns[k..]
  {
    if k > 0 {
      FromIsSuffix(turns[1..], k - 1);
    }
  }

  lemma {:induction false} StoredSuffix(turns: seq<StoredTurn>, k: nat)
    requires Stored(turns) && k <= |turns|
    ensures Stored(turns[k..]) && Contents(turns[k..]) == Contents(turns)[k..]
  {
  }

  /** The paged load returns exactly the longest suffix of completed turns within budget. */
  method LoadTurns(turns: seq<StoredTurn>, budget: nat) returns (history: seq<Turn>)
    requires Stored(turns) && Fits(turns) && budget <= I64_MAX
    ensures history == Replay(Contents(turns), budget)
  {
    hide Replay, Grouped, Rows, FitsFrom, Fits, From, Stored;
    var oldest, count := OldestWithinBudget(turns, budget);
    ghost var k := |turns| - count;
    FitsIsReplay(Contents(turns), k, Contents(turns)[k..], budget);
    if oldest.None? {
      return [];
    }
    FromIsSuffix(turns, k);
    StoredSuffix(turns, k);
    var kept := From(turns, oldest.value);
    GroupedRows(kept);
    history := GroupRows(Rows(kept));
  }
}
