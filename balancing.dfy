/**
  The greedy column balancer of a resolution pass (`_assignColumns`), on values.
  Its state is the running total per column (a missing key is a total the
  source has not yet written), the 1-based cursor to the column that receives
  the next image, and the highest total seen (null before the first image).
 */
module Balancing {

  import opened Wrappers

  datatype Balancer = Balancer(totals: map<int, real>, counting: int, highest: Option<real>)

  /** The state at the start of every pass. */
  const INITIAL: Balancer := Balancer(map[], 1, None)

  /** A column's total, absent counted as 0. */
  function TotalAt(b: Balancer, column: int): real
  {
    if column in b.totals then b.totals[column] else 0.0
  }

  /** The highest total as a number, null counted as 0. */
  function HighestValue(b: Balancer): real
  {
    if b.highest.None? then 0.0 else b.highest.value
  }

  /** JavaScript falsiness of the highest total: null or 0. */
  predicate HighestFalsy(b: Balancer)
  {
    b.highest.None? || b.highest.value == 0.0
  }

  /** The number of column positions the cursor can take: `nColumns`, or 1 when `nColumns < 1`. */
  function Width(nColumns: int): int
  {
    if nColumns < 1 then 1 else nColumns
  }

  /** The cursor stays in `[1, Width(nColumns)]` and totals exist only for column indices the cursor can name. */
  predicate Valid(b: Balancer, nColumns: int)
  {
    1 <= b.counting <= Width(nColumns) &&
    forall column :: column in b.totals ==> 0 <= column < Width(nColumns)
  }

  /** The cursor advances exactly when the highest total is falsy or the new total reaches it. */
  predicate Advances(b: Balancer, height: real)
  {
    HighestFalsy(b) || b.highest.value <= TotalAt(b, b.counting - 1) + height
  }

  /** The highest total is the maximum of all column totals, all of which are non-negative. */
  predicate RunningMax(b: Balancer)
  {
    (forall column :: column in b.totals ==> 0.0 <= b.totals[column] <= HighestValue(b)) &&
    (HighestValue(b) == 0.0 || exists column :: column in b.totals && b.totals[column] == HighestValue(b))
  }

  /**
    One call of `_assignColumns`: the image of height `height` goes to the
    column the cursor names; returns the new state and that column's index.
   */
  function Assign(b: Balancer, height: real, nColumns: int): (r: (Balancer, int))
  {
    var column := b.counting - 1;
    var total :=
      if column !in b.totals || b.totals[column] == 0.0 then height
      else b.totals[column] + height;
    var totals := b.totals[column := total];
    var next := if b.counting < nColumns then b.counting + 1 else 1;
    if HighestFalsy(b) then
      (Balancer(totals, next, Some(total)), column)
    else if b.highest.value <= total then
      (Balancer(totals, next, Some(total)), column)
    else
      (Balancer(totals, b.counting, b.highest), column)
  }

  /**
    The returned index is the cursor's value before the call, less one; it
    stays in range and the cursor stays in `[1, Width(nColumns)]`.
   */
  lemma AssignInRange(b: Balancer, height: real, nColumns: int)
    requires Valid(b, nColumns)
    ensures Assign(b, height, nColumns).1 == b.counting - 1
    ensures 0 <= Assign(b, height, nColumns).1 < Width(nColumns)
    ensures nColumns >= 1 ==> Assign(b, height, nColumns).1 < nColumns
    ensures Valid(Assign(b, height, nColumns).0, nColumns)
  {
  }

  /**
    Only the assigned column's total changes, and it grows by exactly the
    height (an absent or zero total counts as 0 + height).
   */
  lemma AssignOnlyTouchesItsColumn(b: Balancer, height: real, nColumns: int)
    ensures var (b', column) := Assign(b, height, nColumns);
            TotalAt(b', column) == TotalAt(b, column) + height &&
            (forall other :: other != column ==> TotalAt(b', other) == TotalAt(b, other)) &&
            b'.totals.Keys == b.totals.Keys + {column}
  {
  }

  /**
    The cursor advances (wrapping from `nColumns` to 1) and the highest total
    becomes the new total exactly when `Advances` holds; otherwise both stay.
   */
  lemma AssignMovesCursor(b: Balancer, height: real, nColumns: int)
    ensures var (b', column) := Assign(b, height, nColumns);
            if Advances(b, height) then
              b'.counting == (if b.counting < nColumns then b.counting + 1 else 1) &&
              b'.highest == Some(TotalAt(b', column))
            else
              b'.counting == b.counting && b'.highest == b.highest
  {
  }

  /** With a non-negative height, one assignment keeps the running maximum and never lowers it. */
  lemma AssignKeepsRunningMax(b: Balancer, height: real, nColumns: int)
    requires 0.0 <= height && RunningMax(b)
    ensures RunningMax(Assign(b, height, nColumns).0)
    ensures HighestValue(b) <= HighestValue(Assign(b, height, nColumns).0)
  {
    var (b', column) := Assign(b, height, nColumns);
    if !Advances(b, height) {
      var m := HighestValue(b);
      assert m != 0.0;
      var top :| top in b.totals && b.totals[top] == m;
      assert top != column;
      assert top in b'.totals && b'.totals[top] == HighestValue(b');
    } else {
      assert column in b'.totals && b'.totals[column] == HighestValue(b');
    }
  }

  /**
    Feeding heights one at a time, in completion order, from state `b`.
    Returns the final state and the column assigned to each height.
   */
  function Replay(b: Balancer, heights: seq<real>, nColumns: int): (r: (Balancer, seq<int>))
    ensures |r.1| == |heights|
    decreases |heights|
  {
    if heights == [] then (b, [])
    else
      var step := Assign(b, heights[0], nColumns);
      var rest := Replay(step.0, heights[1..], nColumns);
      (rest.0, [step.1] + rest.1)
  }

  /** Feeding one more height extends a replay by exactly one assignment. */
  lemma {:induction false} ReplayAppend(b: Balancer, heights: seq<real>, height: real, nColumns: int)
    ensures Replay(b, heights + [height], nColumns).0 ==
            Assign(Replay(b, heights, nColumns).0, height, nColumns).0
    ensures Replay(b, heights + [height], nColumns).1 ==
            Replay(b, heights, nColumns).1 + [Assign(Replay(b, heights, nColumns).0, height, nColumns).1]
    decreases |heights|
  {
    if heights == [] {
      assert [height][1..] == [];
    } else {
      var step := Assign(b, heights[0], nColumns);
      assert (heights + [height])[0] == heights[0];
      assert (heights + [height])[1..] == heights[1..] + [height];
      ReplayAppend(step.0, heights[1..], height, nColumns);
    }
  }

  /** A replay from a valid state stays valid and assigns every height a column in `[0, Width(nColumns))`. */
  lemma {:induction false} ReplayValid(b: Balancer, heights: seq<real>, nColumns: int)
    requires Valid(b, nColumns)
    ensures Valid(Replay(b, heights, nColumns).0, nColumns)
    ensures forall i :: 0 <= i < |heights| ==> 0 <= Replay(b, heights, nColumns).1[i] < Width(nColumns)
    decreases |heights|
  {
    if heights != [] {
      AssignInRange(b, heights[0], nColumns);
      ReplayValid(Assign(b, heights[0], nColumns).0, heights[1..], nColumns);
    }
  }

  /** The sum of the heights assigned to `column`. */
  function ColumnSum(heights: seq<real>, columns: seq<int>, column: int): real
    requires |heights| == |columns|
    decreases |heights|
  {
    if heights == [] then 0.0
    else (if columns[0] == column then heights[0] else 0.0) + ColumnSum(heights[1..], columns[1..], column)
  }

  /** Replaying assignments in completion order re-derives every column total. */
  lemma {:induction false} ReplayTotals(b: Balancer, heights: seq<real>, nColumns: int, column: int)
    ensures TotalAt(Replay(b, heights, nColumns).0, column) ==
            TotalAt(b, column) + ColumnSum(heights, Replay(b, heights, nColumns).1, column)
    decreases |heights|
  {
    if heights != [] {
      AssignOnlyTouchesItsColumn(b, heights[0], nColumns);
      ReplayTotals(Assign(b, heights[0], nColumns).0, heights[1..], nColumns, column);
    }
  }

  /** With non-negative heights the running maximum holds after every assignment of a replay. */
  lemma {:induction false} ReplayRunningMax(b: Balancer, heights: seq<real>, nColumns: int)
    requires RunningMax(b)
    requires forall i :: 0 <= i < |heights| ==> 0.0 <= heights[i]
    ensures RunningMax(Replay(b, heights, nColumns).0)
    ensures HighestValue(b) <= HighestValue(Replay(b, heights, nColumns).0)
    decreases |heights|
  {
    if heights != [] {
      AssignKeepsRunningMax(b, heights[0], nColumns);
      ReplayRunningMax(Assign(b, heights[0], nColumns).0, heights[1..], nColumns);
    }
  }

  /** The initial state satisfies the balancer's invariants for any column count. */
  lemma InitialValid(nColumns: int)
    ensures Valid(INITIAL, nColumns) && RunningMax(INITIAL)
  {
  }

  /**
    Three columns and heights 10, 10, 10, 5, 5, 20: the columns used are
    0, 1, 2, 0, 1, 2 and the totals end at 15, 15 and 30, which differ by no
    more than the tallest image.
   */
  lemma ThreeColumnExample()
    ensures Replay(INITIAL, [10.0, 10.0, 10.0, 5.0, 5.0, 20.0], 3).1 == [0, 1, 2, 0, 1, 2]
    ensures Replay(INITIAL, [10.0, 10.0, 10.0, 5.0, 5.0, 20.0], 3).0 ==
            Balancer(map[0 := 15.0, 1 := 15.0, 2 := 30.0], 1, Some(30.0))
  {
  }

  /**
    The heuristic does not bound the spread of totals by the tallest image in
    general: with three columns and heights 10, 9, 10, 9, 9, 10 the columns
    used are 0, 1, 1, 2, 2, 2 and the totals end at 10, 19 and 28, a spread of
    18 against a tallest image of 10.
   */
  lemma SpreadNotBoundedByTallest()
    ensures Replay(INITIAL, [10.0, 9.0, 10.0, 9.0, 9.0, 10.0], 3).1 == [0, 1, 1, 2, 2, 2]
    ensures Replay(INITIAL, [10.0, 9.0, 10.0, 9.0, 9.0, 10.0], 3).0 ==
            Balancer(map[0 := 10.0, 1 := 19.0, 2 := 28.0], 1, Some(28.0))
  {
  }
}
