/** The panel table both simulators build and the row selections made before
    each regression. A panel of `n` units is the cross merge of the units
    `0..n-1` with the five periods `-3..1` (`np.arange(-3, 2)`), unit by unit. */
module Panels {

  /** The first and the last period of every panel; period 1 is the only
      post-treatment period. */
  const FirstPeriod: int := -3
  const PostPeriod: int := 1

  /** One row of the data frame. The current simulator carries the two drawn
      effects as columns; the legacy one does not. `treat` is 1 for a treated
      unit and 0 otherwise, `timeIndicator` 1 on post-treatment rows. */
  datatype Row =
    | Row(unit: int, treat: int, period: int, timeIndicator: int,
          unitBaselineEffect: real, timeEffect: real, outcome: real)
    | LegacyRow(unit: int, treat: int, period: int, timeIndicator: int, outcome: real)

  /** `(df['time_period'] == 1).astype(int)` */
  function PostIndicator(period: int): (ti: int)
    ensures ti == 1 <==> period == PostPeriod
    ensures ti == 0 || ti == 1
  {
    if period == PostPeriod then 1 else 0
  }

  /** The periods of an `n`-unit panel sit unit by unit: row `r` is at period
      `r % 5 - 3`. */
  predicate HasPanelPeriods(rows: seq<Row>, n: nat) {
    |rows| == 5 * n &&
    forall r :: 0 <= r < |rows| ==> rows[r].period == r % 5 + FirstPeriod
  }

  /** The full layout of the cross merge: row `r` is unit `r / 5` at period
      `r % 5 - 3`, with the post indicator set on period 1 only. */
  predicate IsPanel(rows: seq<Row>, n: nat) {
    HasPanelPeriods(rows, n) &&
    forall r :: 0 <= r < |rows| ==>
      rows[r].unit == r / 5 && rows[r].timeIndicator == PostIndicator(rows[r].period)
  }

  /** The row of unit `u` at period `p`. */
  function At(rows: seq<Row>, n: nat, u: int, p: int): (row: Row)
    requires HasPanelPeriods(rows, n)
    requires 0 <= u < n && FirstPeriod <= p <= PostPeriod
    ensures row.period == p
    ensures IsPanel(rows, n) ==> row.unit == u
  {
    rows[5 * u + p - FirstPeriod]
  }

  /** The index of unit `u`'s row at period `p` in unit-major order. */
  function Position(u: int, p: int): int {
    5 * u + p - FirstPeriod
  }

  /** Row `r` of a table of `n` units is unit `r / 5` at period `r % 5 - 3`. */
  lemma RowIndex(r: int, n: int)
    requires 0 <= r < 5 * n
    ensures 0 <= r / 5 < n && FirstPeriod <= r % 5 + FirstPeriod <= PostPeriod
    ensures Position(r / 5, r % 5 + FirstPeriod) == r
  {
  }

  /** Unit `u` at period `p` sits at index `5 * u + p + 3`, and that index
      divides back into the unit and the period. */
  lemma CellIndex(u: int, p: int)
    requires FirstPeriod <= p <= PostPeriod
    ensures (5 * u + p - FirstPeriod) / 5 == u
    ensures (5 * u + p - FirstPeriod) % 5 + FirstPeriod == p
  {
  }

  /** Every (unit, period) pair has exactly one row in a panel. */
  lemma OneRowPerCell(rows: seq<Row>, n: nat, u: int, p: int)
    requires IsPanel(rows, n)
    requires 0 <= u < n && FirstPeriod <= p <= PostPeriod
    ensures 0 <= Position(u, p) < |rows|
    ensures rows[Position(u, p)].unit == u && rows[Position(u, p)].period == p
    ensures forall r :: 0 <= r < |rows| && rows[r].unit == u && rows[r].period == p ==>
      r == Position(u, p)
    ensures forall r :: 0 <= r < |rows| && rows[r].unit == u && rows[r].period == p ==>
      rows[r] == At(rows, n, u, p)
    ensures At(rows, n, u, p) in rows
  {
  }

  /** The period masks the code applies before a regression. */
  datatype Mask =
    | EstimationMask     // `df['time_period'].isin([0, 1])`
    | PlaceboMask        // `df['time_period'].isin([-1, 0])`
    | PreTreatmentMask   // `df['time_period'] <= 0`

  /** Whether a row at period `p` passes the mask. */
  predicate Keeps(mask: Mask, p: int) {
    match mask
    case EstimationMask => p == 0 || p == 1
    case PlaceboMask => p == -1 || p == 0
    case PreTreatmentMask => p <= 0
  }

  /** `df[mask]`: the rows whose period passes the mask, in their original
      order, unchanged. */
  function Filter(rows: seq<Row>, mask: Mask): (kept: seq<Row>)
    ensures |kept| <= |rows|
  {
    if rows == [] then []
    else (if Keeps(mask, rows[0].period) then [rows[0]] else []) + Filter(rows[1..], mask)
  }

  /** The selection holds the rows that pass the mask and no others. */
  lemma {:induction false} FilterMembers(rows: seq<Row>, mask: Mask)
    ensures forall x :: x in Filter(rows, mask) <==> x in rows && Keeps(mask, x.period)
  {
    if rows != [] {
      FilterMembers(rows[1..], mask);
      assert rows == [rows[0]] + rows[1..];
    }
  }

  /** The rows `estimate_did` hands to the regression. */
  function EstimationWindow(rows: seq<Row>): seq<Row> {
    Filter(rows, EstimationMask)
  }

  /** `time_indicator` recomputed as `1 if time_period == 0 else 0`. */
  function RelabelPlacebo(row: Row): (relabelled: Row)
    ensures relabelled.timeIndicator == (if row.period == 0 then 1 else 0)
    ensures relabelled.(timeIndicator := row.timeIndicator) == row
  {
    row.(timeIndicator := if row.period == 0 then 1 else 0)
  }

  /** The rows `placebo_test` hands to the regression: the window `{-1, 0}`
      with period 0 relabelled as the pretend post period. The two `ensures`
      only unfold the comprehension for the proofs below; what the selection
      means is stated by `PlaceboMembers` and `PlaceboWindowOfPanel`. */
  function PlaceboWindow(rows: seq<Row>): (placebo: seq<Row>)
    ensures |placebo| == |Filter(rows, PlaceboMask)|
    ensures forall j :: 0 <= j < |placebo| ==> placebo[j] == RelabelPlacebo(Filter(rows, PlaceboMask)[j])
  {
    var kept := Filter(rows, PlaceboMask);
    seq(|kept|, j requires 0 <= j < |kept| => RelabelPlacebo(kept[j]))
  }

  /** `placebo_test` on any table: its rows are exactly the table's rows of
      periods -1 and 0, each with only the time indicator rewritten, which
      then marks period 0 and nothing else. */
  lemma PlaceboMembers(rows: seq<Row>)
    ensures forall x :: x in PlaceboWindow(rows) <==>
      exists y :: y in rows && (y.period == -1 || y.period == 0) &&
        x == y.(timeIndicator := if y.period == 0 then 1 else 0)
    ensures forall x :: x in PlaceboWindow(rows) ==>
      (x.period == -1 || x.period == 0) && (x.timeIndicator == 1 <==> x.period == 0)
  {
    var kept := Filter(rows, PlaceboMask);
    var placebo := PlaceboWindow(rows);
    FilterMembers(rows, PlaceboMask);
    forall x | x in placebo
      ensures exists y :: y in rows && (y.period == -1 || y.period == 0) &&
                          x == y.(timeIndicator := if y.period == 0 then 1 else 0)
    {
      var j :| 0 <= j < |placebo| && placebo[j] == x;
      assert kept[j] in kept;
    }
    forall x | exists y :: y in rows && (y.period == -1 || y.period == 0) &&
                           x == y.(timeIndicator := if y.period == 0 then 1 else 0)
      ensures x in placebo
    {
      var y :| y in rows && (y.period == -1 || y.period == 0) &&
        x == y.(timeIndicator := if y.period == 0 then 1 else 0);
      assert Keeps(PlaceboMask, y.period);
      assert y in kept;
      var j :| 0 <= j < |kept| && kept[j] == y;
      assert placebo[j] == x;
    }
  }

  /** The rows the notebook's `placebo_test` hands to the regression. */
  function PreTreatmentWindow(rows: seq<Row>): seq<Row> {
    Filter(rows, PreTreatmentMask)
  }

  // ---------------------------------------------------------------------
  // Filtering a panel by a window of consecutive periods
  // ---------------------------------------------------------------------

  /** On the periods -3..1 every mask keeps a run of consecutive periods:
      `Width(mask)` of them, starting `Start(mask)` periods after -3. */
  function Start(mask: Mask): (s: nat)
    ensures s + Width(mask) <= 5
  {
    match mask
    case EstimationMask => 3
    case PlaceboMask => 2
    case PreTreatmentMask => 0
  }

  function Width(mask: Mask): nat {
    match mask
    case EstimationMask => 2
    case PlaceboMask => 2
    case PreTreatmentMask => 4
  }

  lemma MaskIsWindow(mask: Mask, p: int)
    requires FirstPeriod <= p <= PostPeriod
    ensures Keeps(mask, p) <==> Start(mask) <= p - FirstPeriod < Start(mask) + Width(mask)
  {
  }

  lemma {:induction false} FilterAppend(a: seq<Row>, b: seq<Row>, mask: Mask)
    ensures Filter(a + b, mask) == Filter(a, mask) + Filter(b, mask)
  {
    if a != [] {
      var first := if Keeps(mask, a[0].period) then [a[0]] else [];
      assert (a + b)[0] == a[0];
      assert (a + b)[1..] == a[1..] + b;
      FilterAppend(a[1..], b, mask);
      calc {
        Filter(a + b, mask);
        first + Filter(a[1..] + b, mask);
        first + (Filter(a[1..], mask) + Filter(b, mask));
        (first + Filter(a[1..], mask)) + Filter(b, mask);
        Filter(a, mask) + Filter(b, mask);
      }
    } else {
      assert a + b == b;
    }
  }

  function Max(x: int, y: int): int {
    if x < y then y else x
  }

  /** A selection from position `m` on is the row at `m`, if kept, followed
      by the selection from `m + 1` on. */
  lemma FilterStep(b: seq<Row>, m: nat, mask: Mask)
    requires m < |b|
    ensures Filter(b[m..], mask) ==
      (if Keeps(mask, b[m].period) then [b[m]] else []) + Filter(b[m + 1..], mask)
  {
    assert b[m..][0] == b[m];
    assert b[m..][1..] == b[m + 1..];
  }

  /** A run of rows at consecutive periods keeps, from position `m` on,
      exactly the slice whose positions fall in the window `[lo, hi)`. */
  lemma {:induction false} FilterRun(b: seq<Row>, m: nat, mask: Mask, lo: nat, hi: nat)
    requires m <= |b| && lo <= hi <= |b|
    requires forall k :: 0 <= k < |b| ==> (Keeps(mask, b[k].period) <==> lo <= k < hi)
    ensures Filter(b[m..], mask) == b[Max(m, lo) .. Max(m, hi)]
    decreases |b| - m
  {
    if m < |b| {
      FilterStep(b, m, mask);
      FilterRun(b, m + 1, mask, lo, hi);
      if lo <= m < hi {
        assert Keeps(mask, b[m].period);
        assert Max(m, lo) == m && Max(m + 1, lo) == m + 1;
        assert Max(m, hi) == hi && Max(m + 1, hi) == hi;
        assert b[m .. hi] == [b[m]] + b[m + 1 .. hi];
      } else {
        assert !Keeps(mask, b[m].period);
        if m < lo {
          assert Max(m, lo) == lo && Max(m + 1, lo) == lo;
          assert Max(m, hi) == hi && Max(m + 1, hi) == hi;
        } else {
          assert Max(m, lo) == m && Max(m, hi) == m;
          assert Max(m + 1, lo) == m + 1 && Max(m + 1, hi) == m + 1;
        }
      }
    } else {
      assert Max(m, lo) == m && Max(m, hi) == m;
      assert b[m..] == [];
    }
  }

  /** One position of the selection from a panel: row `Slot(w, u, k)` of the
      selection is the `k`-th kept row of unit `u`. */
  function Slot(w: nat, u: nat, k: nat): nat {
    if u == 0 then k else w + Slot(w, u - 1, k)
  }

  /** The first five rows of a panel are at the periods -3..1, in order. */
  lemma FirstUnitPeriods(rows: seq<Row>, n: nat)
    requires HasPanelPeriods(rows, n) && n > 0
    ensures 5 <= |rows|
    ensures forall k :: 0 <= k < 5 ==> rows[k].period == FirstPeriod + k
  {
    forall k | 0 <= k < 5
      ensures rows[k].period == FirstPeriod + k
    {
      assert k % 5 == k;
    }
  }

  /** The five rows of one unit keep the run of the mask. */
  lemma FirstUnitWindow(head: seq<Row>, mask: Mask)
    requires |head| == 5
    requires forall k :: 0 <= k < 5 ==> head[k].period == FirstPeriod + k
    ensures Filter(head, mask) == head[Start(mask) .. Start(mask) + Width(mask)]
  {
    var lo, hi := Start(mask), Start(mask) + Width(mask);
    forall k | 0 <= k < |head|
      ensures Keeps(mask, head[k].period) <==> lo <= k < hi
    {
      var p := head[k].period;
      assert p - FirstPeriod == k;
      MaskIsWindow(mask, p);
    }
    FilterRun(head, 0, mask, lo, hi);
  }

  lemma SliceOfPrefix(rows: seq<Row>, k: nat, i: nat, j: nat)
    requires i <= j <= k <= |rows|
    ensures rows[..k][i..j] == rows[i..j]
  {
  }

  /** Selecting from a table is selecting from its first `k` rows, then from
      the rest. */
  lemma FilterSplit(rows: seq<Row>, k: nat, mask: Mask)
    requires k <= |rows|
    ensures Filter(rows, mask) == Filter(rows[..k], mask) + Filter(rows[k..], mask)
  {
    assert rows == rows[..k] + rows[k..];
    FilterAppend(rows[..k], rows[k..], mask);
  }

  /** Dropping the first unit of a panel leaves a panel. */
  lemma OtherUnitsPeriods(rows: seq<Row>, n: nat)
    requires HasPanelPeriods(rows, n) && n > 0
    ensures HasPanelPeriods(rows[5..], n - 1)
  {
    var tail := rows[5..];
    forall r | 0 <= r < |tail|
      ensures tail[r].period == r % 5 + FirstPeriod
    {
      assert tail[r] == rows[r + 5];
      assert (r + 5) % 5 == r % 5;
    }
  }

  /** The periods of a panel read unit by unit: each block of five rows is at
      the periods -3..1 in order. */
  predicate UnitBlocks(rows: seq<Row>, n: nat)
    decreases n
  {
    |rows| == 5 * n &&
    (n > 0 ==>
      (forall k :: 0 <= k < 5 ==> rows[k].period == FirstPeriod + k) && UnitBlocks(rows[5..], n - 1))
  }

  lemma {:induction false} PanelBlocks(rows: seq<Row>, n: nat)
    requires HasPanelPeriods(rows, n)
    ensures UnitBlocks(rows, n)
  {
    if n > 0 {
      FirstUnitPeriods(rows, n);
      OtherUnitsPeriods(rows, n);
      PanelBlocks(rows[5..], n - 1);
    }
  }

  /** When the first `m` rows keep a slice of themselves, the selection from
      the whole table is that slice followed by the selection from the rest;
      on a panel with `m = 5` this splits off the first unit. */
  lemma SplitAt(rows: seq<Row>, m: nat, mask: Mask, i: nat, j: nat)
    requires i <= j <= m <= |rows|
    requires Filter(rows[..m], mask) == rows[..m][i..j]
    ensures Filter(rows, mask) == rows[i..j] + Filter(rows[m..], mask)
  {
    FilterSplit(rows, m, mask);
    SliceOfPrefix(rows, m, i, j);
  }

  /** Position `x` of the selection `SplitAt` describes: inside the slice, or
      past it in the selection from the rest. */
  lemma SplitAtIndex(rows: seq<Row>, m: nat, mask: Mask, i: nat, j: nat, x: nat)
    requires i <= j <= m <= |rows|
    requires Filter(rows[..m], mask) == rows[..m][i..j]
    requires x < j - i + |Filter(rows[m..], mask)|
    ensures |Filter(rows, mask)| == j - i + |Filter(rows[m..], mask)|
    ensures x < j - i ==> Filter(rows, mask)[x] == rows[i + x]
    ensures j - i <= x ==> Filter(rows, mask)[x] == Filter(rows[m..], mask)[x - (j - i)]
  {
    SplitAt(rows, m, mask, i, j);
  }

  /** A mask keeps `Width(mask)` rows of every unit. */
  lemma {:induction false} WindowLength(rows: seq<Row>, n: nat, mask: Mask)
    requires UnitBlocks(rows, n)
    ensures |Filter(rows, mask)| == Width(mask) * n
  {
    if n > 0 {
      var s, w := Start(mask), Width(mask);
      FirstUnitWindow(rows[..5], mask);
      SplitAt(rows, 5, mask, s, s + w);
      WindowLength(rows[5..], n - 1, mask);
      assert w * n == w * (n - 1) + w;
    }
  }

  /** ... and they come unit by unit, in period order, each row unchanged:
      position `Slot(Width(mask), u, k)` of the selection is the `k`-th row of
      unit `u` that the mask keeps. */
  lemma {:induction false} WindowAt(rows: seq<Row>, n: nat, mask: Mask, u: nat, k: nat)
    requires UnitBlocks(rows, n)
    requires u < n && k < Width(mask)
    ensures Slot(Width(mask), u, k) < |Filter(rows, mask)|
    ensures Filter(rows, mask)[Slot(Width(mask), u, k)] == rows[5 * u + Start(mask) + k]
    decreases u
  {
    var s, w := Start(mask), Width(mask);
    FirstUnitWindow(rows[..5], mask);
    if u == 0 {
      SplitAtIndex(rows, 5, mask, s, s + w, k);
    } else {
      var tail := rows[5..];
      WindowAt(tail, n - 1, mask, u - 1, k);
      SplitAtIndex(rows, 5, mask, s, s + w, w + Slot(w, u - 1, k));
      assert tail[5 * (u - 1) + s + k] == rows[5 * u + s + k];
    }
  }

  /** Both facts for every unit and every kept period at once. */
  lemma WindowOfPanel(rows: seq<Row>, n: nat, mask: Mask)
    requires HasPanelPeriods(rows, n)
    ensures |Filter(rows, mask)| == Width(mask) * n
    ensures forall u, k :: 0 <= u < n && 0 <= k < Width(mask) ==>
      Slot(Width(mask), u, k) < Width(mask) * n &&
      Filter(rows, mask)[Slot(Width(mask), u, k)] == At(rows, n, u, FirstPeriod + Start(mask) + k)
  {
    PanelBlocks(rows, n);
    WindowLength(rows, n, mask);
    forall u, k | 0 <= u < n && 0 <= k < Width(mask)
      ensures Slot(Width(mask), u, k) < Width(mask) * n &&
        Filter(rows, mask)[Slot(Width(mask), u, k)] == At(rows, n, u, FirstPeriod + Start(mask) + k)
    {
      WindowAt(rows, n, mask, u, k);
    }
  }

  /** Two tables that differ only on rows a mask drops give the same selection. */
  lemma {:induction false} FilterIgnoresDropped(a: seq<Row>, b: seq<Row>, mask: Mask)
    requires |a| == |b|
    requires forall r :: 0 <= r < |a| ==> a[r].period == b[r].period
    requires forall r :: 0 <= r < |a| && Keeps(mask, a[r].period) ==> a[r] == b[r]
    ensures Filter(a, mask) == Filter(b, mask)
  {
    if a != [] {
      FilterIgnoresDropped(a[1..], b[1..], mask);
    }
  }

  /** Relabelling commutes with agreement on the kept rows. */
  lemma PlaceboIgnoresDropped(a: seq<Row>, b: seq<Row>)
    requires |a| == |b|
    requires forall r :: 0 <= r < |a| ==> a[r].period == b[r].period
    requires forall r :: 0 <= r < |a| && Keeps(PlaceboMask, a[r].period) ==> a[r] == b[r]
    ensures PlaceboWindow(a) == PlaceboWindow(b)
  {
    FilterIgnoresDropped(a, b, PlaceboMask);
  }

  // ---------------------------------------------------------------------
  // The three selections on a panel
  // ---------------------------------------------------------------------

  /** `estimate_did` sees 2 rows per unit, periods 0 then 1, with every column
      as the panel had it. */
  lemma EstimationWindowOfPanel(rows: seq<Row>, n: nat)
    requires HasPanelPeriods(rows, n)
    ensures |EstimationWindow(rows)| == 2 * n
    ensures forall u, k :: 0 <= u < n && 0 <= k < 2 ==>
      Slot(2, u, k) < 2 * n && EstimationWindow(rows)[Slot(2, u, k)] == At(rows, n, u, k)
    ensures forall x :: x in EstimationWindow(rows) <==> x in rows && (x.period == 0 || x.period == 1)
  {
    WindowOfPanel(rows, n, EstimationMask);
    FilterMembers(rows, EstimationMask);
  }

  /** `placebo_test` sees 2 rows per unit, periods -1 then 0, with only the
      post indicator rewritten: 0 on period -1 and 1 on period 0. */
  lemma PlaceboWindowOfPanel(rows: seq<Row>, n: nat)
    requires HasPanelPeriods(rows, n)
    ensures |PlaceboWindow(rows)| == 2 * n
    ensures forall u, k :: 0 <= u < n && 0 <= k < 2 ==>
      Slot(2, u, k) < 2 * n &&
      PlaceboWindow(rows)[Slot(2, u, k)] == At(rows, n, u, k - 1).(timeIndicator := k)
  {
    WindowOfPanel(rows, n, PlaceboMask);
  }

  /** The notebook's placebo selection keeps 4 rows per unit, periods -3..0,
      and on a panel none of them carries the post indicator. */
  lemma PreTreatmentWindowOfPanel(rows: seq<Row>, n: nat)
    requires IsPanel(rows, n)
    ensures |PreTreatmentWindow(rows)| == 4 * n
    ensures forall u, k :: 0 <= u < n && 0 <= k < 4 ==>
      Slot(4, u, k) < 4 * n && PreTreatmentWindow(rows)[Slot(4, u, k)] == At(rows, n, u, k - 3)
    ensures forall x :: x in PreTreatmentWindow(rows) <==> x in rows && x.period <= 0
    ensures forall x :: x in PreTreatmentWindow(rows) ==> x.timeIndicator == 0
  {
    WindowOfPanel(rows, n, PreTreatmentMask);
    FilterMembers(rows, PreTreatmentMask);
  }

}
