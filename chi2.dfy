/**
 * Pearson's chi-square tests: goodness of fit of observed to expected
 * frequencies, and independence of the rows and columns of a contingency
 * table. The chi-square CDF (a Lanczos/series approximation in the Go
 * code) is a parameter; each p-value is 1 − CDF(statistic, df).
 */
module ChiSquare {
  import opened Outcomes
  import opened Sums
  import opened TestResults

  /** One cell's contribution (o − e)²/e. */
  function Term(o: real, e: real): real
    requires e != 0.0
  {
    Sq(o - e) / e
  }

  /** A cell's contribution is never negative when e > 0, and zero exactly when o = e. */
  lemma {:induction false} TermSign(o: real, e: real)
    requires e > 0.0
    ensures Term(o, e) >= 0.0
    ensures Term(o, e) == 0.0 <==> o == e
  {
    SquarePositive(o - e);
  }

  // ---------------------------------------------------------------------
  // Goodness of fit.

  predicate AllPositive(s: seq<real>)
  {
    forall i :: 0 <= i < |s| ==> s[i] > 0.0
  }

  /** Σ (oᵢ − eᵢ)²/eᵢ, added left to right. */
  function Divergence(observed: seq<real>, expected: seq<real>): real
    requires |observed| == |expected| && AllPositive(expected)
  {
    var n := |observed|;
    if n == 0 then 0.0
    else Divergence(observed[..n - 1], expected[..n - 1]) + Term(observed[n - 1], expected[n - 1])
  }

  /**
   * The statistic is never negative, and it is zero exactly when every
   * observed frequency equals its expected one.
   */
  lemma {:induction false} DivergenceZero(observed: seq<real>, expected: seq<real>)
    requires |observed| == |expected| && AllPositive(expected)
    ensures Divergence(observed, expected) >= 0.0
    ensures Divergence(observed, expected) == 0.0 <==> observed == expected
  {
    var n := |observed|;
    if n > 0 {
      var o, e := observed[..n - 1], expected[..n - 1];
      DivergenceZero(o, e);
      TermSign(observed[n - 1], expected[n - 1]);
      assert observed == o + [observed[n - 1]] && expected == e + [expected[n - 1]];
      if observed == expected {
        assert o == e;
      }
    }
  }

  /**
   * `ChiSquareGoodnessOfFit`. Go panics when the slices differ in length
   * or are empty, and when an expected frequency is ≤ 0; these are the
   * preconditions. The p-value uses df = n − 1.
   */
  method ChiSquareGoodnessOfFit(chiSquareCDF: (real, real) -> real, observed: seq<real>, expected: seq<real>)
    returns (r: TestResult)
    requires |observed| == |expected| && |observed| > 0
    requires AllPositive(expected)
    ensures r.statistic == Num(Divergence(observed, expected))
    ensures r.statistic.x >= 0.0
    ensures r.pValue == Num(1.0 - chiSquareCDF(r.statistic.x, (|observed| - 1) as real))
  {
    var chi2 := 0.0;
    var df := (|observed| - 1) as real;
    var i := 0;
    while i < |observed|
      invariant 0 <= i <= |observed|
      invariant chi2 == Divergence(observed[..i], expected[..i])
    {
      assert observed[..i + 1][..i] == observed[..i] && expected[..i + 1][..i] == expected[..i];
      var diff := observed[i] - expected[i];
      chi2 := chi2 + (diff * diff) / expected[i];
      i := i + 1;
    }
    assert observed[..i] == observed && expected[..i] == expected;
    DivergenceZero(observed, expected);
    var p := 1.0 - chiSquareCDF(chi2, df);
    r := TestResult(Num(chi2), Num(p));
  }

  /** Observed 16, 18, 16, 14, 12, 12 against expected 16, 16, 16, 16, 16, 8 gives 3.5. */
  lemma {:induction false} FixtureGoodnessOfFit()
    ensures Divergence([16.0, 18.0, 16.0, 14.0, 12.0, 12.0], [16.0, 16.0, 16.0, 16.0, 16.0, 8.0]) == 3.5
  {
    var o := [16.0, 18.0, 16.0, 14.0, 12.0, 12.0];
    var e := [16.0, 16.0, 16.0, 16.0, 16.0, 8.0];
    assert o[..1] == [16.0] && e[..1] == [16.0];
    assert Divergence(o[..1], e[..1]) == 0.0;
    assert Divergence(o[..2], e[..2]) == 0.25 by { assert o[..2][..1] == o[..1] && e[..2][..1] == e[..1]; }
    assert Divergence(o[..3], e[..3]) == 0.25 by { assert o[..3][..2] == o[..2] && e[..3][..2] == e[..2]; }
    assert Divergence(o[..4], e[..4]) == 0.5 by { assert o[..4][..3] == o[..3] && e[..4][..3] == e[..3]; }
    assert Divergence(o[..5], e[..5]) == 1.5 by { assert o[..5][..4] == o[..4] && e[..5][..4] == e[..4]; }
    assert o[..6] == o && e[..6] == e;
    assert o[..6][..5] == o[..5] && e[..6][..5] == e[..5];
  }

  // ---------------------------------------------------------------------
  // Independence.

  /** Every row has `c` cells. */
  predicate Rectangular(table: seq<seq<real>>, c: nat)
  {
    forall i :: 0 <= i < |table| ==> |table[i]| == c
  }

  /** Every cell is non-negative. */
  predicate NonNegativeCells(table: seq<seq<real>>)
  {
    forall i, j :: 0 <= i < |table| && 0 <= j < |table[i]| ==> table[i][j] >= 0.0
  }

  /** Σᵢ table[i][j], added row by row. */
  function ColumnTotal(table: seq<seq<real>>, j: nat): real
    requires forall i :: 0 <= i < |table| ==> j < |table[i]|
  {
    var n := |table|;
    if n == 0 then 0.0 else ColumnTotal(table[..n - 1], j) + table[n - 1][j]
  }

  /** The column totals of a table with `c` columns. */
  function ColumnTotals(table: seq<seq<real>>, c: nat): (r: seq<real>)
    requires Rectangular(table, c)
    ensures |r| == c && forall j :: 0 <= j < c ==> r[j] == ColumnTotal(table, j)
  {
    seq(c, j requires 0 <= j < c => ColumnTotal(table, j))
  }

  /** The row totals. */
  function RowTotals(table: seq<seq<real>>): (r: seq<real>)
    ensures |r| == |table| && forall i :: 0 <= i < |table| ==> r[i] == Sum(table[i])
  {
    seq(|table|, i requires 0 <= i < |table| => Sum(table[i]))
  }

  /** The sum of all cells, row by row. */
  function GrandTotal(table: seq<seq<real>>): real
  {
    var n := |table|;
    if n == 0 then 0.0 else GrandTotal(table[..n - 1]) + Sum(table[n - 1])
  }

  /** The row totals add up to the grand total. */
  lemma {:induction false} RowMarginals(table: seq<seq<real>>)
    ensures Sum(RowTotals(table)) == GrandTotal(table)
  {
    var n := |table|;
    if n > 0 {
      var init := table[..n - 1];
      RowMarginals(init);
      var now := RowTotals(table);
      assert now[..n - 1] == RowTotals(init);
      assert Sum(now) == Sum(now[..n - 1]) + now[n - 1];
    }
  }

  /** The column totals add up to the grand total too. */
  lemma {:induction false} ColumnMarginals(table: seq<seq<real>>, c: nat)
    requires Rectangular(table, c)
    ensures Sum(ColumnTotals(table, c)) == GrandTotal(table)
  {
    var n := |table|;
    if n == 0 {
      SumConstant(ColumnTotals(table, c), 0.0);
    } else {
      var init := table[..n - 1];
      ColumnMarginals(init, c);
      var now, before := ColumnTotals(table, c), ColumnTotals(init, c);
      forall j | 0 <= j < c
        ensures now[j] == before[j] + table[n - 1][j]
      {
        assert table[..n - 1] == init;
      }
      SumPointwise(now, before, table[n - 1]);
    }
  }

  /** Row, column and grand totals of a non-negative table are non-negative. */
  lemma {:induction false} TotalsNonNegative(table: seq<seq<real>>, c: nat)
    requires Rectangular(table, c) && NonNegativeCells(table)
    ensures forall i :: 0 <= i < |table| ==> Sum(table[i]) >= 0.0
    ensures forall j :: 0 <= j < c ==> ColumnTotal(table, j) >= 0.0
    ensures GrandTotal(table) >= 0.0
  {
    var n := |table|;
    forall i | 0 <= i < n
      ensures Sum(table[i]) >= 0.0
    {
      SumNonNegative(table[i]);
    }
    if n > 0 {
      TotalsNonNegative(table[..n - 1], c);
    }
  }

  /** A non-negative table with a positive row total has a positive grand total. */
  lemma {:induction false} GrandTotalPositive(table: seq<seq<real>>, c: nat, k: nat)
    requires Rectangular(table, c) && NonNegativeCells(table)
    requires k < |table| && Sum(table[k]) > 0.0
    ensures GrandTotal(table) > 0.0
  {
    var n := |table|;
    TotalsNonNegative(table, c);
    if k < n - 1 {
      GrandTotalPositive(table[..n - 1], c, k);
    } else {
      TotalsNonNegative(table[..n - 1], c);
    }
  }

  /** The expected count rowTotal·colTotal/total of a cell. */
  function Expected(rowTotal: real, colTotal: real, total: real): real
    requires total != 0.0
  {
    (rowTotal * colTotal) / total
  }

  /** Positive margins give a positive expected count. */
  lemma {:induction false} ExpectedPositive(rowTotal: real, colTotal: real, total: real)
    requires rowTotal > 0.0 && colTotal > 0.0 && total > 0.0
    ensures Expected(rowTotal, colTotal, total) > 0.0
  {
    assert rowTotal * colTotal > 0.0;
  }

  /** The preconditions under which the Go code does not panic. */
  predicate WellFormed(table: seq<seq<real>>)
  {
    |table| >= 2 && |table[0]| >= 2
    && Rectangular(table, |table[0]|)
    && NonNegativeCells(table)
    && (forall i :: 0 <= i < |table| ==> Sum(table[i]) != 0.0)
    && (forall j :: 0 <= j < |table[0]| ==> ColumnTotal(table, j) != 0.0)
  }

  /** In a well-formed table every margin, and so every expected count, is positive. */
  lemma {:induction false} MarginsPositive(table: seq<seq<real>>)
    requires WellFormed(table)
    ensures GrandTotal(table) > 0.0
    ensures forall i :: 0 <= i < |table| ==> Sum(table[i]) > 0.0
    ensures forall j :: 0 <= j < |table[0]| ==> ColumnTotal(table, j) > 0.0
  {
    TotalsNonNegative(table, |table[0]|);
    GrandTotalPositive(table, |table[0]|, 0);
  }

  /** The margins `Contributions` needs: positive column totals and a positive total. */
  predicate PositiveMargins(colTotals: seq<real>, total: real)
  {
    total > 0.0 && forall j :: 0 <= j < |colTotals| ==> colTotals[j] > 0.0
  }

  /** Σⱼ (row[j] − Eⱼ)²/Eⱼ over one row, with Eⱼ = rowTotal·colTotals[j]/total. */
  function RowContributions(row: seq<real>, rowTotal: real, colTotals: seq<real>, total: real): real
    requires |row| <= |colTotals| && rowTotal > 0.0 && PositiveMargins(colTotals, total)
  {
    var n := |row|;
    if n == 0 then 0.0
    else
      ExpectedPositive(rowTotal, colTotals[n - 1], total);
      RowContributions(row[..n - 1], rowTotal, colTotals, total)
        + Term(row[n - 1], Expected(rowTotal, colTotals[n - 1], total))
  }

  /** The rows' contributions, row by row. */
  function Contributions(rows: seq<seq<real>>, colTotals: seq<real>, total: real): real
    requires Rectangular(rows, |colTotals|) && PositiveMargins(colTotals, total)
    requires forall i :: 0 <= i < |rows| ==> Sum(rows[i]) > 0.0
  {
    var n := |rows|;
    if n == 0 then 0.0
    else
      Contributions(rows[..n - 1], colTotals, total)
        + RowContributions(rows[n - 1], Sum(rows[n - 1]), colTotals, total)
  }

  /** The independence statistic of a well-formed table. */
  function IndependenceStatistic(table: seq<seq<real>>): real
    requires WellFormed(table)
  {
    MarginsPositive(table);
    Contributions(table, ColumnTotals(table, |table[0]|), GrandTotal(table))
  }

  /** Each row's contribution is non-negative. */
  lemma {:induction false} RowContributionsNonNegative(row: seq<real>, rowTotal: real, colTotals: seq<real>, total: real)
    requires |row| <= |colTotals| && rowTotal > 0.0 && PositiveMargins(colTotals, total)
    ensures RowContributions(row, rowTotal, colTotals, total) >= 0.0
  {
    var n := |row|;
    if n > 0 {
      RowContributionsNonNegative(row[..n - 1], rowTotal, colTotals, total);
      ExpectedPositive(rowTotal, colTotals[n - 1], total);
      TermSign(row[n - 1], Expected(rowTotal, colTotals[n - 1], total));
    }
  }

  /** The statistic is a sum of non-negative contributions. */
  lemma {:induction false} ContributionsNonNegative(rows: seq<seq<real>>, colTotals: seq<real>, total: real)
    requires Rectangular(rows, |colTotals|) && PositiveMargins(colTotals, total)
    requires forall i :: 0 <= i < |rows| ==> Sum(rows[i]) > 0.0
    ensures Contributions(rows, colTotals, total) >= 0.0
  {
    var n := |rows|;
    if n > 0 {
      ContributionsNonNegative(rows[..n - 1], colTotals, total);
      RowContributionsNonNegative(rows[n - 1], Sum(rows[n - 1]), colTotals, total);
    }
  }

  /**
   * `ChiSquareTestOfIndependence`. Go panics with fewer than two rows or
   * two columns, on ragged rows, on a negative cell and on a zero row or
   * column total; `WellFormed` rules all of these out. The margins are
   * accumulated in one pass over the cells (`AccumulateMargins`), the
   * statistic is summed cell by cell (`AccumulateStatistic`) and the
   * p-value uses df = (rows − 1)·(columns − 1).
   */
  method ChiSquareTestOfIndependence(chiSquareCDF: (real, real) -> real, table: seq<seq<real>>)
    returns (r: TestResult)
    requires WellFormed(table)
    ensures r.statistic == Num(IndependenceStatistic(table))
    ensures r.statistic.x >= 0.0
    ensures r.pValue == Num(1.0 - chiSquareCDF(r.statistic.x, ((|table| - 1) * (|table[0]| - 1)) as real))
  {
    var numRows := |table|;
    var numCols := |table[0]|;
    var rowSums, colSums, total := AccumulateMargins(table);
    MarginsPositive(table);
    var chi2 := AccumulateStatistic(table, rowSums, colSums, total);
    ContributionsNonNegative(table, colSums[..], total);
    var df := ((numRows - 1) * (numCols - 1)) as real;
    var p := 1.0 - chiSquareCDF(chi2, df);
    r := TestResult(Num(chi2), Num(p));
  }

  /** The first double loop of the independence test: row, column and grand totals. */
  method AccumulateMargins(table: seq<seq<real>>) returns (rowSums: array<real>, colSums: array<real>, total: real)
    requires |table| > 0 && Rectangular(table, |table[0]|)
    ensures fresh(rowSums) && fresh(colSums)
    ensures rowSums[..] == RowTotals(table)
    ensures colSums[..] == ColumnTotals(table, |table[0]|)
    ensures total == GrandTotal(table)
  {
    var numRows := |table|;
    var numCols := |table[0]|;
    rowSums := new real[numRows](_ => 0.0);
    colSums := new real[numCols](_ => 0.0);
    total := 0.0;
    var i := 0;
    while i < numRows
      invariant 0 <= i <= numRows
      invariant forall k :: 0 <= k < i ==> rowSums[k] == Sum(table[k])
      invariant forall k :: i <= k < numRows ==> rowSums[k] == 0.0
      invariant forall j :: 0 <= j < numCols ==> colSums[j] == ColumnTotal(table[..i], j)
      invariant total == GrandTotal(table[..i])
    {
      var j := 0;
      while j < numCols
        invariant 0 <= j <= numCols
        invariant forall k :: 0 <= k < i ==> rowSums[k] == Sum(table[k])
        invariant forall k :: i < k < numRows ==> rowSums[k] == 0.0
        invariant rowSums[i] == Sum(table[i][..j])
        invariant forall k :: 0 <= k < j ==> colSums[k] == ColumnTotal(table[..i + 1], k)
        invariant forall k :: j <= k < numCols ==> colSums[k] == ColumnTotal(table[..i], k)
        invariant total == GrandTotal(table[..i]) + Sum(table[i][..j])
      {
        var val := table[i][j];
        SumStep(table[i], j);
        ColumnTotalStep(table, i, j);
        rowSums[i] := rowSums[i] + val;
        colSums[j] := colSums[j] + val;
        total := total + val;
        j := j + 1;
      }
      assert table[i][..numCols] == table[i];
      GrandTotalStep(table, i);
      i := i + 1;
    }
    assert table[..numRows] == table;
  }

  /** The second double loop of the independence test: the statistic, cell by cell. */
  method AccumulateStatistic(table: seq<seq<real>>, rowSums: array<real>, colSums: array<real>, total: real)
    returns (chi2: real)
    requires Rectangular(table, colSums.Length) && PositiveMargins(colSums[..], total)
    requires rowSums.Length == |table|
    requires forall i :: 0 <= i < |table| ==> rowSums[i] == Sum(table[i]) && Sum(table[i]) > 0.0
    ensures chi2 == Contributions(table, colSums[..], total)
  {
    var numRows, numCols := |table|, colSums.Length;
    ghost var cols := colSums[..];
    chi2 := 0.0;
    var i := 0;
    while i < numRows
      invariant 0 <= i <= numRows
      invariant chi2 == Contributions(table[..i], cols, total)
    {
      var j := 0;
      ghost var before := chi2;
      while j < numCols
        invariant 0 <= j <= numCols
        invariant chi2 == before + RowContributions(table[i][..j], rowSums[i], cols, total)
      {
        var expected := (rowSums[i] * colSums[j]) / total;
        var diff := table[i][j] - expected;
        RowContributionsStep(table[i], j, rowSums[i], cols, total, expected, diff);
        chi2 := chi2 + (diff * diff) / expected;
        j := j + 1;
      }
      assert table[i][..numCols] == table[i];
      ContributionsStep(table, i, cols, total);
      i := i + 1;
    }
    assert table[..numRows] == table;
  }

  lemma {:induction false} RowContributionsStep(row: seq<real>, j: nat, rowTotal: real, colTotals: seq<real>, total: real,
                            e: real, d: real)
    requires j < |row| <= |colTotals| && rowTotal > 0.0 && PositiveMargins(colTotals, total)
    requires e == (rowTotal * colTotals[j]) / total && d == row[j] - e
    ensures RowContributions(row[..j + 1], rowTotal, colTotals, total)
      == RowContributions(row[..j], rowTotal, colTotals, total) + (d * d) / e
  {
    assert row[..j + 1][..j] == row[..j];
    ExpectedPositive(rowTotal, colTotals[j], total);
  }

  lemma {:induction false} ContributionsStep(rows: seq<seq<real>>, i: nat, colTotals: seq<real>, total: real)
    requires i < |rows| && Rectangular(rows, |colTotals|) && PositiveMargins(colTotals, total)
    requires forall k :: 0 <= k < |rows| ==> Sum(rows[k]) > 0.0
    ensures Contributions(rows[..i + 1], colTotals, total)
      == Contributions(rows[..i], colTotals, total) + RowContributions(rows[i], Sum(rows[i]), colTotals, total)
  {
    assert rows[..i + 1][..i] == rows[..i];
  }

  lemma {:induction false} ColumnTotalStep(table: seq<seq<real>>, i: nat, j: nat)
    requires i < |table| && Rectangular(table, |table[0]|) && j < |table[0]|
    ensures ColumnTotal(table[..i + 1], j) == ColumnTotal(table[..i], j) + table[i][j]
  {
    assert table[..i + 1][..i] == table[..i];
  }

  lemma {:induction false} GrandTotalStep(table: seq<seq<real>>, i: nat)
    requires i < |table|
    ensures GrandTotal(table[..i + 1]) == GrandTotal(table[..i]) + Sum(table[i])
  {
    assert table[..i + 1][..i] == table[..i];
  }

  // ---------------------------------------------------------------------
  // The independence fixture, cell by cell.

  /** A four-term sum written out. */
  lemma {:induction false} Sum4(s: seq<real>)
    requires |s| == 4
    ensures Sum(s) == s[0] + s[1] + s[2] + s[3]
  {
    assert Sum(s) == Sum(s[..3]) + s[3];
    Sum3(s[..3]);
  }

  /** The column total of a three-row table written out. */
  lemma {:induction false} ColumnTotal3(table: seq<seq<real>>, j: nat)
    requires |table| == 3 && forall i :: 0 <= i < 3 ==> j < |table[i]|
    ensures ColumnTotal(table, j) == table[0][j] + table[1][j] + table[2][j]
  {
    assert ColumnTotal(table, j) == ColumnTotal(table[..2], j) + table[2][j];
    assert table[..2][..1] == table[..1];
    assert ColumnTotal(table[..2], j) == ColumnTotal(table[..1], j) + table[1][j];
    assert table[..1][..0] == [];
    assert ColumnTotal(table[..1], j) == ColumnTotal([], j) + table[0][j];
  }

  /** The grand total of a three-row table written out. */
  lemma {:induction false} GrandTotal3(table: seq<seq<real>>)
    requires |table| == 3
    ensures GrandTotal(table) == Sum(table[0]) + Sum(table[1]) + Sum(table[2])
  {
    assert GrandTotal(table) == GrandTotal(table[..2]) + Sum(table[2]);
    assert table[..2][..1] == table[..1];
    assert GrandTotal(table[..2]) == GrandTotal(table[..1]) + Sum(table[1]);
    assert table[..1][..0] == [];
    assert GrandTotal(table[..1]) == GrandTotal([]) + Sum(table[0]);
  }

  /** One row of four cells contributes its four terms. */
  lemma {:induction false} RowOfFour(row: seq<real>, rowTotal: real, colTotals: seq<real>, total: real)
    requires |row| == 4 == |colTotals| && rowTotal > 0.0 && PositiveMargins(colTotals, total)
    ensures RowContributions(row, rowTotal, colTotals, total)
         == Term(row[0], Expected(rowTotal, colTotals[0], total))
          + Term(row[1], Expected(rowTotal, colTotals[1], total))
          + Term(row[2], Expected(rowTotal, colTotals[2], total))
          + Term(row[3], Expected(rowTotal, colTotals[3], total))
  {
    ExpectedPositive(rowTotal, colTotals[0], total);
    ExpectedPositive(rowTotal, colTotals[1], total);
    ExpectedPositive(rowTotal, colTotals[2], total);
    ExpectedPositive(rowTotal, colTotals[3], total);
    var e0, e1 := Expected(rowTotal, colTotals[0], total), Expected(rowTotal, colTotals[1], total);
    var e2, e3 := Expected(rowTotal, colTotals[2], total), Expected(rowTotal, colTotals[3], total);
    assert RowContributions(row, rowTotal, colTotals, total)
        == RowContributions(row[..3], rowTotal, colTotals, total) + Term(row[3], e3);
    assert row[..3][..2] == row[..2];
    assert RowContributions(row[..3], rowTotal, colTotals, total)
        == RowContributions(row[..2], rowTotal, colTotals, total) + Term(row[2], e2);
    assert row[..2][..1] == row[..1];
    assert RowContributions(row[..2], rowTotal, colTotals, total)
        == RowContributions(row[..1], rowTotal, colTotals, total) + Term(row[1], e1);
    assert row[..1][..0] == [];
    assert RowContributions(row[..1], rowTotal, colTotals, total)
        == RowContributions([], rowTotal, colTotals, total) + Term(row[0], e0);
  }

  /** Three rows contribute their three row contributions. */
  lemma {:induction false} ThreeRows(rows: seq<seq<real>>, colTotals: seq<real>, total: real)
    requires |rows| == 3 && Rectangular(rows, |colTotals|) && PositiveMargins(colTotals, total)
    requires forall i :: 0 <= i < 3 ==> Sum(rows[i]) > 0.0
    ensures Contributions(rows, colTotals, total)
         == RowContributions(rows[0], Sum(rows[0]), colTotals, total)
          + RowContributions(rows[1], Sum(rows[1]), colTotals, total)
          + RowContributions(rows[2], Sum(rows[2]), colTotals, total)
  {
    assert Contributions(rows, colTotals, total)
        == Contributions(rows[..2], colTotals, total) + RowContributions(rows[2], Sum(rows[2]), colTotals, total);
    assert rows[..2][..1] == rows[..1];
    assert Contributions(rows[..2], colTotals, total)
        == Contributions(rows[..1], colTotals, total) + RowContributions(rows[1], Sum(rows[1]), colTotals, total);
    assert rows[..1][..0] == [];
    assert Contributions(rows[..1], colTotals, total)
        == Contributions([], colTotals, total) + RowContributions(rows[0], Sum(rows[0]), colTotals, total);
  }

  /** The contingency table of the independence test. */
  const IndependenceTable: seq<seq<real>> :=
    [[90.0, 60.0, 104.0, 95.0], [30.0, 50.0, 51.0, 20.0], [30.0, 40.0, 45.0, 35.0]]

  /**
   * The independence test's table passes every check, has row totals 349,
   * 151, 150, column totals 150, 150, 200, 150 and total 650, and its
   * statistic is exactly 93231203/3794328 ≈ 24.5712.
   */
  lemma {:induction false} FixtureIndependence()
    ensures WellFormed(IndependenceTable)
    ensures IndependenceStatistic(IndependenceTable) == 93231203.0 / 3794328.0
  {
    var t := IndependenceTable;
    Sum4(t[0]);
    Sum4(t[1]);
    Sum4(t[2]);
    ColumnTotal3(t, 0);
    ColumnTotal3(t, 1);
    ColumnTotal3(t, 2);
    ColumnTotal3(t, 3);
    GrandTotal3(t);
    assert WellFormed(t);
    var cols := ColumnTotals(t, 4);
    assert cols == [150.0, 150.0, 200.0, 150.0];
    ThreeRows(t, cols, 650.0);
    RowOfFour(t[0], 349.0, cols, 650.0);
    RowOfFour(t[1], 151.0, cols, 650.0);
    RowOfFour(t[2], 150.0, cols, 650.0);
    assert RowContributions(t[0], 349.0, cols, 650.0) == 9478.0 / 1047.0;
    assert RowContributions(t[1], 151.0, cols, 650.0) == 25427.0 / 1812.0;
    assert RowContributions(t[2], 150.0, cols, 650.0) == 107.0 / 72.0;
  }
}
