/**
 Drawing flow sizes from a table: `lookup` finds the row by binary search, `value` interpolates
 within it, and the stepwise variable scans the rows one by one.
 */
module EmpiricalCdf {

  const MAX_ENTRY := 65536

  datatype Row = Row(cdf: real, val: real)

  ghost predicate Sorted(t: seq<Row>) {
    forall i, j | 0 <= i < j < |t| :: t[i].cdf <= t[j].cdf
  }

  ghost predicate SortedValues(t: seq<Row>) {
    forall i, j | 0 <= i < j < |t| :: t[i].val <= t[j].val
  }

  // ---- The two searches ----

  /** The first row from `i` on that reaches `u`, or the last row. */
  function Scan(t: seq<Row>, u: real, i: nat): (r: nat)
    requires i <= |t| && t != []
    ensures r < |t| && (i < |t| ==> i <= r)
    ensures forall k | i <= k < r :: t[k].cdf < u
    ensures i < |t| ==> u <= t[r].cdf || r == |t| - 1
    decreases |t| - i
  {
    if i == |t| then |t| - 1
    else if u <= t[i].cdf then i
    else Scan(t, u, i + 1)
  }

  function Bisect(t: seq<Row>, u: real, lo: nat, hi: nat): (r: nat)
    requires lo <= hi < |t|
    ensures lo <= r <= hi
    decreases hi - lo
  {
    if lo == hi then lo
    else
      var mid := (lo + hi) / 2;
      if u > t[mid].cdf then Bisect(t, u, mid + 1, hi) else Bisect(t, u, lo, mid)
  }

  /** Rows 1 to the last are searched, without a look at whether there are any. */
  function Lookup(t: seq<Row>, u: real): nat
    requires t != []
  {
    if u <= t[0].cdf then 0
    else if |t| == 1 then 1
    else Bisect(t, u, 1, |t| - 1)
  }

  lemma {:induction false} BisectFindsFirst(t: seq<Row>, u: real, lo: nat, hi: nat)
    requires Sorted(t) && lo <= hi < |t|
    requires forall k | 0 <= k < lo :: t[k].cdf < u
    requires hi == |t| - 1 || u <= t[hi].cdf
    ensures Bisect(t, u, lo, hi) == Scan(t, u, 0)
    decreases hi - lo
  {
    if lo != hi {
      var mid := (lo + hi) / 2;
      if u > t[mid].cdf {
        BisectFindsFirst(t, u, mid + 1, hi);
      } else {
        BisectFindsFirst(t, u, lo, mid);
      }
    }
  }

  /** The binary search finds the row the scan finds, exactly unless a one-row table is overshot. */
  lemma SearchesAgreeExactlyWhen(t: seq<Row>, u: real)
    requires Sorted(t) && t != []
    ensures Lookup(t, u) == Scan(t, u, 0) <==> |t| >= 2 || u <= t[0].cdf
  {
    if |t| >= 2 && u > t[0].cdf {
      BisectFindsFirst(t, u, 1, |t| - 1);
    }
  }

  // ---- Drawing ----

  function Interpolate(x: real, x1: real, y1: real, x2: real, y2: real): real
    requires x1 != x2
  {
    y1 + (x - x1) * (y2 - y1) / (x2 - x1)
  }

  /** A buffer whose first `n` rows are a table; a one-row table can be overshot into the next row. */
  ghost predicate Holds(buffer: seq<Row>, n: nat) {
    n <= |buffer| && (n == 1 ==> 1 < |buffer|) && forall i, j | 0 <= i < j < n :: buffer[i].cdf <= buffer[j].cdf
  }

  /** The row found lies strictly after one that does not reach `u`: the divisor is positive. */
  lemma NeverDividesByZero(buffer: seq<Row>, n: nat, u: real)
    requires Holds(buffer, n) && n > 0
    requires var mid := Lookup(buffer[..n], u); mid > 0 && u < buffer[mid].cdf
    ensures var mid := Lookup(buffer[..n], u); buffer[mid - 1].cdf < u < buffer[mid].cdf
  {
    SearchesAgreeExactlyWhen(buffer[..n], u);
    var mid := Lookup(buffer[..n], u);
    assert buffer[mid - 1] == buffer[..n][mid - 1];
  }

  /** What a draw of `u` gives; no table gives 0. */
  function Draw(buffer: seq<Row>, n: nat, u: real): real
    requires Holds(buffer, n)
  {
    if n == 0 then 0.0
    else
      var mid := Lookup(buffer[..n], u);
      if mid > 0 && u < buffer[mid].cdf then
        NeverDividesByZero(buffer, n, u);
        Interpolate(u, buffer[mid - 1].cdf, buffer[mid - 1].val, buffer[mid].cdf, buffer[mid].val)
      else buffer[mid].val
  }

  function DrawStep(t: seq<Row>, u: real): real
    requires t != []
  {
    t[Scan(t, u, 0)].val
  }

  lemma QuotientGrows(a: real, b: real, d: real)
    requires d > 0.0 && a <= b
    ensures a / d <= b / d
  {
  }

  lemma ProductGrows(a: real, b: real, m: real)
    requires a <= b && m >= 0.0
    ensures a * m <= b * m
  {
  }

  lemma WholeQuotient(m: real, d: real)
    requires d > 0.0
    ensures d * m / d == m
  {
  }

  /** Interpolation is monotone and stays between the row's two values. */
  lemma InterpolationIsMonotone(u: real, v: real, x1: real, y1: real, x2: real, y2: real)
    requires x1 <= u <= v <= x2 && x1 < x2 && y1 <= y2
    ensures y1 <= Interpolate(u, x1, y1, x2, y2) <= Interpolate(v, x1, y1, x2, y2) <= y2
  {
    var d, m := x2 - x1, y2 - y1;
    ProductGrows(0.0, u - x1, m);
    ProductGrows(u - x1, v - x1, m);
    ProductGrows(v - x1, d, m);
    QuotientGrows(0.0, (u - x1) * m, d);
    QuotientGrows((u - x1) * m, (v - x1) * m, d);
    QuotientGrows((v - x1) * m, d * m, d);
    WholeQuotient(m, d);
  }

  /** A draw stays within the row it falls in, and is never more than the stepwise draw. */
  lemma DrawStaysInRow(t: seq<Row>, u: real)
    requires Sorted(t) && SortedValues(t) && |t| >= 2
    ensures var mid := Scan(t, u, 0);
            (if mid == 0 then t[0].val else t[mid - 1].val) <= Draw(t, |t|, u) <= DrawStep(t, u) == t[mid].val
  {
    assert t[..|t|] == t;
    SearchesAgreeExactlyWhen(t, u);
    var mid := Scan(t, u, 0);
    if mid > 0 && u < t[mid].cdf {
      NeverDividesByZero(t, |t|, u);
      InterpolationIsMonotone(u, u, t[mid - 1].cdf, t[mid - 1].val, t[mid].cdf, t[mid].val);
    }
  }

  lemma Undivided(a: real, b: real, d: real)
    requires d != 0.0
    ensures a * b / d * d == a * b
  {
  }

  lemma InterpolationDivides(u: real, x1: real, y1: real, x2: real, y2: real)
    requires x1 != x2
    ensures (Interpolate(u, x1, y1, x2, y2) - y1) * (x2 - x1) == (u - x1) * (y2 - y1)
  {
    Undivided(u - x1, y2 - y1, x2 - x1);
    assert Interpolate(u, x1, y1, x2, y2) - y1 == (u - x1) * (y2 - y1) / (x2 - x1);
  }

  /** `y` divides the two values as `u` divides the two shares. */
  ghost predicate DividesAlike(u: real, y: real, before: Row, row: Row) {
    (y - before.val) * (row.cdf - before.cdf) == (u - before.cdf) * (row.val - before.val)
  }

  lemma RowEndDividesAlike(before: Row, row: Row)
    ensures DividesAlike(row.cdf, row.val, before, row)
  {
  }

  /**
   A draw within a row divides the row's values in the ratio in which it divides the row's shares; one
   that the first row covers, or none, gives the first or the last value.
   */
  lemma DrawDividesRow(t: seq<Row>, u: real)
    requires Sorted(t) && |t| >= 2
    ensures var mid, y := Scan(t, u, 0), Draw(t, |t|, u);
            if mid == 0 || u > t[mid].cdf then y == t[mid].val
            else t[mid - 1].cdf < u <= t[mid].cdf && DividesAlike(u, y, t[mid - 1], t[mid])
  {
    assert t[..|t|] == t;
    SearchesAgreeExactlyWhen(t, u);
    var mid := Scan(t, u, 0);
    if mid > 0 && u < t[mid].cdf {
      NeverDividesByZero(t, |t|, u);
      InterpolationDivides(u, t[mid - 1].cdf, t[mid - 1].val, t[mid].cdf, t[mid].val);
    } else if mid > 0 {
      RowEndDividesAlike(t[mid - 1], t[mid]);
    }
  }

  /** Larger draws never give smaller values. */
  lemma DrawIsMonotone(t: seq<Row>, u: real, v: real)
    requires Sorted(t) && SortedValues(t) && |t| >= 2 && u <= v
    ensures Draw(t, |t|, u) <= Draw(t, |t|, v)
  {
    assert t[..|t|] == t;
    var i, j := Scan(t, u, 0), Scan(t, v, 0);
    DrawStaysInRow(t, u);
    DrawStaysInRow(t, v);
    SearchesAgreeExactlyWhen(t, u);
    SearchesAgreeExactlyWhen(t, v);
    if i == j && i > 0 && v < t[i].cdf {
      NeverDividesByZero(t, |t|, u);
      InterpolationIsMonotone(u, v, t[i - 1].cdf, t[i - 1].val, t[i].cdf, t[i].val);
    }
  }

  // ---- The mean flow size ----

  /** A packet's payload, by which the mean in packets becomes one in bytes. */
  const PAYLOAD := 1460.0

  /** A double assigned to an int. */
  function Truncated(x: real): int {
    if x >= 0.0 then x.Floor else -(-x).Floor
  }

  function Before(t: seq<Row>, i: nat): real
    requires i <= |t|
  {
    if i == 0 then 0.0 else t[i - 1].cdf
  }

  function SizeBefore(t: seq<Row>, i: nat): int
    requires i <= |t|
  {
    if i == 0 then 1 else Truncated(t[i - 1].val)
  }

  /** A row's share of the draws times its size, which is averaged with the size before when `smooth`. */
  function Contribution(row: Row, smooth: bool, prevCd: real, prevSz: int): real {
    (row.cdf - prevCd) * (if smooth then (row.val + prevSz as real) / 2.0 else row.val)
  }

  function WeightedSum(t: seq<Row>, smooth: bool, n: nat): real
    requires n <= |t|
  {
    if n == 0 then 0.0
    else WeightedSum(t, smooth, n - 1) + Contribution(t[n - 1], smooth, Before(t, n - 1), SizeBefore(t, n - 1))
  }

  /** What divides two values in the middle is their average. */
  lemma MiddleDivides(y: real, before: Row, row: Row)
    requires before.cdf < row.cdf && DividesAlike((before.cdf + row.cdf) / 2.0, y, before, row)
    ensures y == (row.val + before.val) / 2.0
  {
    var d, m := row.cdf - before.cdf, row.val - before.val;
    assert (before.cdf + row.cdf) / 2.0 - before.cdf == d / 2.0;
    assert d / 2.0 * m == m / 2.0 * d;
    SameFactor(y - before.val, m / 2.0, d);
  }

  lemma SameFactor(a: real, b: real, d: real)
    requires d > 0.0 && a * d == b * d
    ensures a == b
  {
    assert (a - b) * d == 0.0;
  }

  lemma MiddleLies(x1: real, x2: real)
    requires x1 < x2
    ensures x1 < (x1 + x2) / 2.0 < x2
  {
  }

  lemma MiddleDrawDivides(t: seq<Row>, i: nat, u: real)
    requires Sorted(t) && 0 < i < |t| && t[i - 1].cdf < u < t[i].cdf
    ensures DividesAlike(u, Draw(t, |t|, u), t[i - 1], t[i])
  {
    DrawDividesRow(t, u);
    assert Scan(t, u, 0) == i;
  }

  /** After the first row, a smoothed row counts as its share times the draw at its middle, for sizes in whole packets. */
  lemma SmoothedRowIsMiddleDraw(t: seq<Row>, i: nat, u: real)
    requires Sorted(t) && 0 < i < |t| && t[i - 1].cdf < t[i].cdf && SizeBefore(t, i) as real == t[i - 1].val
    requires u == (t[i - 1].cdf + t[i].cdf) / 2.0
    ensures Contribution(t[i], true, Before(t, i), SizeBefore(t, i)) == (t[i].cdf - t[i - 1].cdf) * Draw(t, |t|, u)
  {
    MiddleLies(t[i - 1].cdf, t[i].cdf);
    MiddleDrawDivides(t, i, u);
    MiddleDivides(Draw(t, |t|, u), t[i - 1], t[i]);
  }

  /** The sum of the stepwise draws of 1/n, 2/n up to m/n. */
  function SumOfDraws(t: seq<Row>, n: nat, m: nat): real
    requires t != [] && n > 0
  {
    if m == 0 then 0.0 else SumOfDraws(t, n, m - 1) + DrawStep(t, m as real / n as real)
  }

  /** The shares are whole multiples of 1/n and add up to 1: `counts[i]` of the n draws fall in the first i rows. */
  ghost predicate OnGrid(t: seq<Row>, n: nat, counts: seq<nat>) {
    && t != [] && n > 0 && |counts| == |t| + 1 && counts[0] == 0 && counts[|t|] == n
    && (forall i, j | 0 <= i < j < |counts| :: counts[i] <= counts[j])
    && forall i | 0 <= i <= |t| :: Before(t, i) == counts[i] as real / n as real
  }

  lemma QuotientOrder(a: nat, b: nat, n: nat)
    requires n > 0
    ensures a as real / n as real < b as real / n as real <==> a < b
  {
    if a < b {
      assert (b - a) as real / n as real > 0.0;
    } else {
      QuotientGrows(b as real, a as real, n as real);
    }
  }

  lemma DrawnInRow(t: seq<Row>, n: nat, counts: seq<nat>, i: nat, m: nat)
    requires OnGrid(t, n, counts) && i < |t| && counts[i] < m <= counts[i + 1]
    ensures DrawStep(t, m as real / n as real) == t[i].val
  {
    var u := m as real / n as real;
    var r := Scan(t, u, 0);
    QuotientOrder(counts[i + 1], m, n);
    assert u <= Before(t, i + 1) == t[i].cdf;
    if r < i {
      QuotientOrder(counts[r + 1], m, n);
    }
  }

  function Times(k: nat, v: real): real {
    if k == 0 then 0.0 else Times(k - 1, v) + v
  }

  lemma {:induction false} TimesIsProduct(k: nat, v: real)
    ensures Times(k, v) == k as real * v
  {
    if k > 0 {
      TimesIsProduct(k - 1, v);
      assert k as real * v == (k - 1) as real * v + v;
    }
  }

  lemma {:induction false} DrawsOfRow(t: seq<Row>, n: nat, counts: seq<nat>, i: nat, m: nat)
    requires OnGrid(t, n, counts) && i < |t| && counts[i] <= m <= counts[i + 1]
    ensures SumOfDraws(t, n, m) == SumOfDraws(t, n, counts[i]) + Times(m - counts[i], t[i].val)
    decreases m
  {
    if m > counts[i] {
      DrawsOfRow(t, n, counts, i, m - 1);
      DrawnInRow(t, n, counts, i, m);
    }
  }

  lemma ShareAsCount(n: nat, a: nat, b: nat, v: real)
    requires n > 0
    ensures n as real * ((b as real / n as real - a as real / n as real) * v) == (b - a) as real * v
  {
    var d := b as real / n as real - a as real / n as real;
    assert n as real * d == (b - a) as real;
    assert n as real * (d * v) == n as real * d * v;
  }

  lemma RowAddsUp(n: nat, a: nat, b: nat, row: Row, prevCd: real, prevSz: int, w: real)
    requires n > 0 && a <= b && prevCd == a as real / n as real && row.cdf == b as real / n as real
    ensures Times(n, w + Contribution(row, false, prevCd, prevSz)) == Times(n, w) + Times(b - a, row.val)
  {
    var share := Contribution(row, false, prevCd, prevSz);
    TimesIsProduct(n, w + share);
    TimesIsProduct(n, w);
    TimesIsProduct(b - a, row.val);
    ShareAsCount(n, a, b, row.val);
    assert n as real * (w + share) == n as real * w + n as real * share;
  }

  /** The first rows' draws, put together one row at a time. */
  ghost predicate RowsAddUp(t: seq<Row>, n: nat, counts: seq<nat>, i: nat)
    requires t != [] && n > 0 && i <= |t| && |counts| == |t| + 1
  {
    SumOfDraws(t, n, counts[i]) == Times(n, WeightedSum(t, false, i))
  }

  lemma {:induction false} DrawsOfRows(t: seq<Row>, n: nat, counts: seq<nat>, i: nat)
    requires OnGrid(t, n, counts) && i <= |t|
    ensures RowsAddUp(t, n, counts, i)
  {
    if i == 0 {
      TimesIsProduct(n, 0.0);
    } else {
      DrawsOfRows(t, n, counts, i - 1);
      OneMoreRow(t, n, counts, i);
    }
  }

  lemma OneMoreRow(t: seq<Row>, n: nat, counts: seq<nat>, i: nat)
    requires OnGrid(t, n, counts) && 0 < i <= |t| && RowsAddUp(t, n, counts, i - 1)
    ensures RowsAddUp(t, n, counts, i)
  {
    var row, w := t[i - 1], WeightedSum(t, false, i - 1);
    DrawsOfRow(t, n, counts, i - 1, counts[i]);
    assert Before(t, i) == row.cdf;
    RowAddsUp(n, counts[i - 1], counts[i], row, Before(t, i - 1), SizeBefore(t, i - 1), w);
  }

  /** The mean computed while loading is the average of the stepwise variable's draws. */
  lemma MeanIsAverageDraw(t: seq<Row>, n: nat, counts: seq<nat>)
    requires OnGrid(t, n, counts)
    ensures SumOfDraws(t, n, n) == n as real * WeightedSum(t, false, |t|)
  {
    DrawsOfRows(t, n, counts, |t|);
    TimesIsProduct(n, WeightedSum(t, false, |t|));
  }

  // ---- The variable ----

  class EmpiricalRandomVariable {
    const table: array<Row>
    const smooth: bool
    var numEntry: nat
    var meanFlowSize: real

    ghost predicate Valid()
      reads this
    {
      numEntry <= table.Length == MAX_ENTRY
    }

    ghost function Rows(): seq<Row>
      reads this, table
      requires Valid()
    {
      table[..numEntry]
    }

    constructor (smooth: bool)
      ensures Valid() && Rows() == [] && fresh(table) && this.smooth == smooth
    {
      this.smooth := smooth;
      table := new Row[MAX_ENTRY](_ => Row(0.0, 0.0));
      numEntry, meanFlowSize := 0, 0.0;
    }

    /** Loads the file's rows and computes their mean; `ok` is false when the source's assertion would stop it. */
    method LoadCDF(lines: seq<Row>) returns (ok: bool)
      requires Valid() && |lines| <= MAX_ENTRY
      modifies this, table
      ensures Valid()
      ensures ok <==> Sorted(lines) && (lines != [] ==> 0.0 <= lines[0].cdf)
      ensures ok ==> Rows() == lines && meanFlowSize == WeightedSum(lines, smooth, |lines|) * PAYLOAD
    {
      numEntry := 0;
      var prevCd, prevSz, sum := 0.0, 1, 0.0;
      while numEntry < |lines|
        invariant Valid() && numEntry <= |lines| && table[..numEntry] == lines[..numEntry]
        invariant Sorted(lines[..numEntry]) && 0.0 <= prevCd
        invariant numEntry > 0 ==> 0.0 <= lines[0].cdf
        invariant prevCd == Before(lines, numEntry) && sum == WeightedSum(lines, smooth, numEntry)
        invariant prevSz == SizeBefore(lines, numEntry)
      {
        var row := lines[numEntry];
        table[numEntry] := row;
        if row.cdf - prevCd < 0.0 {
          assert !(Sorted(lines) && 0.0 <= lines[0].cdf);
          return false;
        }
        sum, prevCd, prevSz := sum + Contribution(row, smooth, prevCd, prevSz), row.cdf, Truncated(row.val);
        assert lines[..numEntry + 1] == lines[..numEntry] + [row];
        numEntry := numEntry + 1;
      }
      assert lines[..numEntry] == lines;
      meanFlowSize := sum * PAYLOAD;
      ok := true;
    }

    method LookupRow(u: real) returns (r: nat)
      requires Valid() && numEntry > 0
      ensures r == Lookup(Rows(), u)
    {
      if u <= table[0].cdf {
        return 0;
      }
      ghost var t := Rows();
      var lo, hi := 1, numEntry - 1;
      while lo < hi
        invariant 1 <= lo && (numEntry == 1 ==> lo == 1 && hi == 0)
        invariant numEntry > 1 ==> lo <= hi < numEntry && Bisect(t, u, lo, hi) == Lookup(t, u)
      {
        var mid := (lo + hi) / 2;
        if u > table[mid].cdf {
          lo := mid + 1;
        } else {
          hi := mid;
        }
      }
      r := lo;
    }

    /** `u` is the random draw. */
    method Value(u: real) returns (x: real)
      requires Valid() && Sorted(Rows())
      ensures x == Draw(table[..], numEntry, u)
    {
      if numEntry <= 0 {
        return 0.0;
      }
      var mid := LookupRow(u);
      assert table[..][..numEntry] == Rows();
      if mid > 0 && u < table[mid].cdf {
        NeverDividesByZero(table[..], numEntry, u);
        x := Interpolate(u, table[mid - 1].cdf, table[mid - 1].val, table[mid].cdf, table[mid].val);
      } else {
        x := table[mid].val;
      }
    }

    /** The stepwise variable's draw. */
    method StepValue(u: real) returns (x: real)
      requires Valid() && numEntry > 0
      ensures x == DrawStep(Rows(), u)
    {
      var i := 0;
      while i < numEntry
        invariant 0 <= i <= numEntry && Scan(Rows(), u, i) == Scan(Rows(), u, 0)
      {
        if u <= table[i].cdf {
          return table[i].val;
        }
        i := i + 1;
      }
      x := table[numEntry - 1].val;
    }
  }
}
