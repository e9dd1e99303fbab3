/** Sums over a scoreline grid.

    A grid is a sequence of rows: row i holds the probabilities of the
    scorelines with i home goals, column j those with j away goals. Every
    market in the odds layer walks the grid row by row, column by column, and
    adds a cell to a bucket when a rule on its indices (i, j) holds; the
    functions here are that walk written as recursion, so that the loops of the
    markets can be tied to them and the buckets compared with each other. */
module GridSums {

  /** The sum of row[0..n] over the columns j whose cell (i, j) satisfies the rule. */
  function RowSumIf(row: seq<real>, i: int, n: nat, rule: (int, int) -> bool): real
    requires n <= |row|
  {
    if n == 0 then 0.0
    else RowSumIf(row, i, n - 1, rule) + (if rule(i, n - 1) then row[n - 1] else 0.0)
  }

  /** The sum over the first k rows of the cells that satisfy the rule. */
  function PrefixSumIf(m: seq<seq<real>>, k: nat, rule: (int, int) -> bool): real
    requires k <= |m|
  {
    if k == 0 then 0.0
    else PrefixSumIf(m, k - 1, rule) + RowSumIf(m[k - 1], k - 1, |m[k - 1]|, rule)
  }

  /** The bucket of a market: the sum of every cell that satisfies the rule. */
  function SumIf(m: seq<seq<real>>, rule: (int, int) -> bool): real
  {
    PrefixSumIf(m, |m|, rule)
  }

  function Everywhere(i: int, j: int): bool { true }

  /** The sum of all cells of the grid. */
  function Total(m: seq<seq<real>>): real
  {
    SumIf(m, Everywhere)
  }

  /** Rule `whole` is split by rules `a` and `b`: every cell of `whole` lies in
      exactly one of them, and no other cell lies in either. Only cells with
      non-negative indices matter, since only they are in a grid. */
  ghost predicate Partitions(whole: (int, int) -> bool, a: (int, int) -> bool, b: (int, int) -> bool)
  {
    forall i, j :: 0 <= i && 0 <= j ==> (whole(i, j) <==> a(i, j) || b(i, j)) && !(a(i, j) && b(i, j))
  }

  /** Every row of `m` has `cols` cells. */
  ghost predicate Rectangular(m: seq<seq<real>>, cols: nat)
  {
    forall i :: 0 <= i < |m| ==> |m[i]| == cols
  }

  /** The grid read out of a two-dimensional array, row by row. */
  function ToMatrix(a: array2<real>): (m: seq<seq<real>>)
    reads a
    ensures |m| == a.Length0 && Rectangular(m, a.Length1)
    ensures forall i, j :: 0 <= i < a.Length0 && 0 <= j < a.Length1 ==> m[i][j] == a[i, j]
  {
    seq(a.Length0, i requires 0 <= i < a.Length0 reads a =>
      seq(a.Length1, j requires 0 <= j < a.Length1 reads a => a[i, j]))
  }

  /** The rows x cols grid whose cell (i, j) is f(i, j). */
  function Tabulate(rows: nat, cols: nat, f: (nat, nat) -> real): (m: seq<seq<real>>)
    ensures |m| == rows && Rectangular(m, cols)
    ensures forall i, j :: 0 <= i < rows && 0 <= j < cols ==> m[i][j] == f(i, j)
  {
    seq(rows, i requires 0 <= i < rows => seq(cols, j requires 0 <= j < cols => f(i, j)))
  }

  /** Writes f(i, j) into every cell (i, j) of the array, row by row, and
      returns the sum of what it wrote. The ghost `cells` is the grid that f
      describes, named for the proof. */
  method FillGrid(grid: array2<real>, f: (nat, nat) -> real, ghost cells: seq<seq<real>>) returns (total: real)
    requires |cells| == grid.Length0 && Rectangular(cells, grid.Length1)
    requires forall i, j :: 0 <= i < grid.Length0 && 0 <= j < grid.Length1 ==> cells[i][j] == f(i, j)
    modifies grid
    ensures forall i, j :: 0 <= i < grid.Length0 && 0 <= j < grid.Length1 ==> grid[i, j] == cells[i][j]
    ensures total == Total(cells)
  {
    total := 0.0;
    for i := 0 to grid.Length0
      invariant total == PrefixSumIf(cells, i, Everywhere)
      invariant forall i', j' :: 0 <= i' < i && 0 <= j' < grid.Length1 ==> grid[i', j'] == cells[i'][j']
    {
      var rowTotal := FillRow(grid, i, f, cells[i]);
      total := total + rowTotal;
    }
  }

  /** Writes f(i, j) into every cell of row i and returns the row's sum. */
  method FillRow(grid: array2<real>, i: nat, f: (nat, nat) -> real, ghost row: seq<real>) returns (rowTotal: real)
    requires i < grid.Length0 && |row| == grid.Length1
    requires forall j :: 0 <= j < grid.Length1 ==> row[j] == f(i, j)
    modifies grid
    ensures forall j :: 0 <= j < grid.Length1 ==> grid[i, j] == row[j]
    ensures forall i', j' :: 0 <= i' < grid.Length0 && i' != i && 0 <= j' < grid.Length1 ==> grid[i', j'] == old(grid[i', j'])
    ensures rowTotal == RowSumIf(row, i, |row|, Everywhere)
  {
    rowTotal := 0.0;
    for j := 0 to grid.Length1
      invariant rowTotal == RowSumIf(row, i, j, Everywhere)
      invariant forall j' :: 0 <= j' < j ==> grid[i, j'] == row[j']
      invariant forall i', j' :: 0 <= i' < grid.Length0 && i' != i && 0 <= j' < grid.Length1 ==> grid[i', j'] == old(grid[i', j'])
    {
      var prob := f(i, j);
      grid[i, j] := prob;
      rowTotal := rowTotal + prob;
    }
  }

  /** Divides every cell of the array by `total`, in place. */
  method DivideInPlace(a: array2<real>, total: real)
    requires total != 0.0
    modifies a
    ensures ToMatrix(a) == Normalise(old(ToMatrix(a)), total)
  {
    ghost var before := ToMatrix(a);
    for i := 0 to a.Length0
      invariant forall i', j' :: 0 <= i' < i && 0 <= j' < a.Length1 ==> a[i', j'] == before[i'][j'] / total
      invariant forall i', j' :: i <= i' < a.Length0 && 0 <= j' < a.Length1 ==> a[i', j'] == before[i'][j']
    {
      for j := 0 to a.Length1
        invariant forall i', j' :: 0 <= i' < i && 0 <= j' < a.Length1 ==> a[i', j'] == before[i'][j'] / total
        invariant forall i', j' :: i < i' < a.Length0 && 0 <= j' < a.Length1 ==> a[i', j'] == before[i'][j']
        invariant forall j' :: 0 <= j' < j ==> a[i, j'] == before[i][j'] / total
        invariant forall j' :: j <= j' < a.Length1 ==> a[i, j'] == before[i][j']
      {
        a[i, j] := a[i, j] / total;
      }
    }
    ghost var normalised := Normalise(before, total);
    forall i | 0 <= i < a.Length0
      ensures ToMatrix(a)[i] == normalised[i]
    {
    }
  }

  /** Every cell of `m` divided by `total`. */
  function Normalise(m: seq<seq<real>>, total: real): (g: seq<seq<real>>)
    requires total != 0.0
  {
    seq(|m|, i requires 0 <= i < |m| => seq(|m[i]|, j requires 0 <= j < |m[i]| => m[i][j] / total))
  }

  lemma {:induction false} RowSplit(row: seq<real>, i: nat, n: nat,
                                    whole: (int, int) -> bool, a: (int, int) -> bool, b: (int, int) -> bool)
    requires n <= |row|
    requires Partitions(whole, a, b)
    ensures RowSumIf(row, i, n, whole) == RowSumIf(row, i, n, a) + RowSumIf(row, i, n, b)
  {
    if n > 0 {
      RowSplit(row, i, n - 1, whole, a, b);
      assert whole(i, n - 1) <==> a(i, n - 1) || b(i, n - 1);
      assert !(a(i, n - 1) && b(i, n - 1));
    }
  }

  lemma {:induction false} PrefixSplit(m: seq<seq<real>>, k: nat,
                                       whole: (int, int) -> bool, a: (int, int) -> bool, b: (int, int) -> bool)
    requires k <= |m|
    requires Partitions(whole, a, b)
    ensures PrefixSumIf(m, k, whole) == PrefixSumIf(m, k, a) + PrefixSumIf(m, k, b)
  {
    if k > 0 {
      PrefixSplit(m, k - 1, whole, a, b);
      RowSplit(m[k - 1], k - 1, |m[k - 1]|, whole, a, b);
    }
  }

  /** Splitting a bucket in two splits its sum: no cell is lost and none is
      counted twice. */
  lemma SumIfSplit(m: seq<seq<real>>, whole: (int, int) -> bool, a: (int, int) -> bool, b: (int, int) -> bool)
    requires Partitions(whole, a, b)
    ensures SumIf(m, whole) == SumIf(m, a) + SumIf(m, b)
  {
    PrefixSplit(m, |m|, whole, a, b);
  }

  /** Rule `whole` is split three ways by rules `a`, `b` and `c`. */
  ghost predicate Partitions3(whole: (int, int) -> bool, a: (int, int) -> bool, b: (int, int) -> bool, c: (int, int) -> bool)
  {
    forall i, j :: 0 <= i && 0 <= j ==>
      && (whole(i, j) <==> a(i, j) || b(i, j) || c(i, j))
      && !(a(i, j) && b(i, j)) && !(a(i, j) && c(i, j)) && !(b(i, j) && c(i, j))
  }

  /** The cells that satisfy either rule. */
  function Either(a: (int, int) -> bool, b: (int, int) -> bool): (int, int) -> bool
  {
    (i: int, j: int) => a(i, j) || b(i, j)
  }

  lemma SumIfSplit3(m: seq<seq<real>>, whole: (int, int) -> bool, a: (int, int) -> bool, b: (int, int) -> bool, c: (int, int) -> bool)
    requires Partitions3(whole, a, b, c)
    ensures SumIf(m, whole) == SumIf(m, a) + SumIf(m, b) + SumIf(m, c)
  {
    var ab := Either(a, b);
    assert forall i, j :: ab(i, j) == (a(i, j) || b(i, j));
    SumIfSplit(m, whole, ab, c);
    SumIfSplit(m, ab, a, b);
  }

  lemma {:induction false} RowAgree(r1: seq<real>, r2: seq<real>, i: int, n: nat, rule: (int, int) -> bool)
    requires n <= |r1| == |r2|
    requires forall j :: 0 <= j < |r1| && rule(i, j) ==> r1[j] == r2[j]
    ensures RowSumIf(r1, i, n, rule) == RowSumIf(r2, i, n, rule)
  {
    if n > 0 {
      RowAgree(r1, r2, i, n - 1, rule);
    }
  }

  lemma {:induction false} PrefixAgree(m1: seq<seq<real>>, m2: seq<seq<real>>, k: nat, rule: (int, int) -> bool)
    requires k <= |m1| == |m2|
    requires forall i :: 0 <= i < |m1| ==> |m1[i]| == |m2[i]|
    requires forall i, j :: 0 <= i < |m1| && 0 <= j < |m1[i]| && rule(i, j) ==> m1[i][j] == m2[i][j]
    ensures PrefixSumIf(m1, k, rule) == PrefixSumIf(m2, k, rule)
  {
    if k > 0 {
      PrefixAgree(m1, m2, k - 1, rule);
      RowAgree(m1[k - 1], m2[k - 1], k - 1, |m1[k - 1]|, rule);
    }
  }

  /** A bucket's sum depends only on the cells the bucket contains. */
  lemma SumIfAgree(m1: seq<seq<real>>, m2: seq<seq<real>>, rule: (int, int) -> bool)
    requires |m1| == |m2|
    requires forall i :: 0 <= i < |m1| ==> |m1[i]| == |m2[i]|
    requires forall i, j :: 0 <= i < |m1| && 0 <= j < |m1[i]| && rule(i, j) ==> m1[i][j] == m2[i][j]
    ensures SumIf(m1, rule) == SumIf(m2, rule)
  {
    PrefixAgree(m1, m2, |m1|, rule);
  }

  lemma {:induction false} RowNonNegative(row: seq<real>, i: int, n: nat, rule: (int, int) -> bool)
    requires n <= |row|
    requires forall j :: 0 <= j < |row| && rule(i, j) ==> row[j] >= 0.0
    ensures RowSumIf(row, i, n, rule) >= 0.0
  {
    if n > 0 {
      RowNonNegative(row, i, n - 1, rule);
    }
  }

  lemma {:induction false} PrefixNonNegative(m: seq<seq<real>>, k: nat, rule: (int, int) -> bool)
    requires k <= |m|
    requires forall i, j :: 0 <= i < |m| && 0 <= j < |m[i]| && rule(i, j) ==> m[i][j] >= 0.0
    ensures PrefixSumIf(m, k, rule) >= 0.0
  {
    if k > 0 {
      PrefixNonNegative(m, k - 1, rule);
      RowNonNegative(m[k - 1], k - 1, |m[k - 1]|, rule);
    }
  }

  /** A bucket of non-negative cells has a non-negative sum. */
  lemma SumIfNonNegative(m: seq<seq<real>>, rule: (int, int) -> bool)
    requires forall i, j :: 0 <= i < |m| && 0 <= j < |m[i]| && rule(i, j) ==> m[i][j] >= 0.0
    ensures SumIf(m, rule) >= 0.0
  {
    PrefixNonNegative(m, |m|, rule);
  }

  lemma {:induction false} RowColumnsFrom(row: seq<real>, i: int, c: nat, n: nat, rule: (int, int) -> bool)
    requires c <= n <= |row|
    requires forall j :: j >= c ==> !rule(i, j)
    ensures RowSumIf(row, i, n, rule) == RowSumIf(row, i, c, rule)
  {
    if n > c {
      RowColumnsFrom(row, i, c, n - 1, rule);
      assert !rule(i, n - 1);
    }
  }

  lemma {:induction false} PrefixRowsFrom(m: seq<seq<real>>, k: nat, n: nat, rule: (int, int) -> bool)
    requires k <= n <= |m|
    requires forall i, j :: i >= k ==> !rule(i, j)
    ensures PrefixSumIf(m, n, rule) == PrefixSumIf(m, k, rule)
  {
    if n > k {
      PrefixRowsFrom(m, k, n - 1, rule);
      RowColumnsFrom(m[n - 1], n - 1, 0, |m[n - 1]|, rule);
    }
  }

  /** A bucket that contains no cell of row k or beyond is summed by the first k rows. */
  lemma SumIfRowsBelow(m: seq<seq<real>>, k: nat, rule: (int, int) -> bool)
    requires k <= |m|
    requires forall i, j :: i >= k ==> !rule(i, j)
    ensures SumIf(m, rule) == PrefixSumIf(m, k, rule)
  {
    PrefixRowsFrom(m, k, |m|, rule);
  }

  lemma DivideSum(x: real, y: real, total: real)
    requires total != 0.0
    ensures x / total + y / total == (x + y) / total
  {
  }

  lemma {:induction false} RowScale(row: seq<real>, scaled: seq<real>, total: real, i: int, n: nat, rule: (int, int) -> bool)
    requires total != 0.0
    requires n <= |row| == |scaled|
    requires forall j :: 0 <= j < |row| ==> scaled[j] == row[j] / total
    ensures RowSumIf(scaled, i, n, rule) == RowSumIf(row, i, n, rule) / total
  {
    if n > 0 {
      RowScale(row, scaled, total, i, n - 1, rule);
      var x := if rule(i, n - 1) then row[n - 1] else 0.0;
      assert (if rule(i, n - 1) then scaled[n - 1] else 0.0) == x / total;
      DivideSum(RowSumIf(row, i, n - 1, rule), x, total);
    }
  }

  lemma {:induction false} PrefixScale(m: seq<seq<real>>, total: real, k: nat, rule: (int, int) -> bool)
    requires total != 0.0
    requires k <= |m|
    ensures PrefixSumIf(Normalise(m, total), k, rule) == PrefixSumIf(m, k, rule) / total
  {
    if k > 0 {
      var g := Normalise(m, total);
      PrefixScale(m, total, k - 1, rule);
      assert |g[k - 1]| == |m[k - 1]|;
      RowScale(m[k - 1], g[k - 1], total, k - 1, |m[k - 1]|, rule);
      DivideSum(PrefixSumIf(m, k - 1, rule), RowSumIf(m[k - 1], k - 1, |m[k - 1]|, rule), total);
    }
  }

  /** Dividing every cell by the same nonzero total divides every bucket by it. */
  lemma NormaliseScalesBuckets(m: seq<seq<real>>, total: real, rule: (int, int) -> bool)
    requires total != 0.0
    ensures SumIf(Normalise(m, total), rule) == SumIf(m, rule) / total
  {
    PrefixScale(m, total, |m|, rule);
  }

  /** Dividing a grid by its own nonzero total makes it sum to 1. */
  lemma NormalisedSumsToOne(m: seq<seq<real>>)
    requires Total(m) != 0.0
    ensures Total(Normalise(m, Total(m))) == 1.0
  {
    NormaliseScalesBuckets(m, Total(m), Everywhere);
  }

  /** Dividing by a positive total keeps non-negative cells non-negative. */
  lemma NormalisedNonNegative(m: seq<seq<real>>, total: real)
    requires total > 0.0
    requires forall i, j :: 0 <= i < |m| && 0 <= j < |m[i]| ==> m[i][j] >= 0.0
    ensures var g := Normalise(m, total);
      forall i, j :: 0 <= i < |g| && 0 <= j < |g[i]| ==> g[i][j] >= 0.0
  {
  }
}
