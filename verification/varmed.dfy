/**
 * Stage 3 of a task: the variable-medium lists. For every sample row of the
 * feature matrix X, the medium components of the columns whose level exceeds
 * one and whose value in that row is positive, in column order.
 */
module Varmed {
  import opened Wrappers

  /** A table of rows x cols numbers; only the sign of a cell matters here. */
  datatype Grid = Grid(cols: nat, cells: seq<seq<real>>) {
    predicate Rectangular() {
      forall i :: 0 <= i < |cells| ==> |cells[i]| == cols
    }
  }

  /** A 2-D array as numpy keeps it: every row has `cols` cells. */
  type Matrix = g: Grid | g.Rectangular() witness Grid(0, [])

  /** Column j is taken for this row: `levmed[j] > 1 and X[i, j] > 0`. */
  predicate Eligible(levmed: seq<int>, row: seq<real>, j: nat)
    requires j < |levmed| && j < |row|
  {
    levmed[j] > 1 && row[j] > 0.0
  }

  /**
   * Visiting column j of this row raises IndexError: `levmed` has no entry j,
   * or the column is taken and `medium` has no entry j.
   */
  predicate Faults(levmed: seq<int>, medium: seq<string>, row: seq<real>, j: nat)
    requires j < |row|
  {
    j >= |levmed| || (Eligible(levmed, row, j) && j >= |medium|)
  }

  /** No column before n of this row raises. */
  predicate RowInRange(levmed: seq<int>, medium: seq<string>, row: seq<real>, n: nat)
    requires n <= |row|
  {
    forall j :: 0 <= j < n ==> !Faults(levmed, medium, row, j)
  }

  /** No cell of the matrix raises. */
  predicate InRange(x: Matrix, levmed: seq<int>, medium: seq<string>) {
    forall i :: 0 <= i < |x.cells| ==> RowInRange(levmed, medium, x.cells[i], x.cols)
  }

  /** Cell (i, j) raises and no cell before it in row-major order does. */
  predicate FirstFault(x: Matrix, levmed: seq<int>, medium: seq<string>, i: nat, j: nat) {
    i < |x.cells| && j < x.cols &&
    Faults(levmed, medium, x.cells[i], j) &&
    RowInRange(levmed, medium, x.cells[i], j) &&
    forall i' :: 0 <= i' < i ==> RowInRange(levmed, medium, x.cells[i'], x.cols)
  }

  /** The list built for one row from its first n columns. */
  function RowVarmed(levmed: seq<int>, medium: seq<string>, row: seq<real>, n: nat): (r: seq<string>)
    requires n <= |row| && RowInRange(levmed, medium, row, n)
    ensures |r| <= n
  {
    if n == 0 then []
    else
      assert !Faults(levmed, medium, row, n - 1);
      RowVarmed(levmed, medium, row, n - 1) +
      (if Eligible(levmed, row, n - 1) then [medium[n - 1]] else [])
  }

  /** The indices of the columns taken among the first n, in ascending order. */
  function Selected(levmed: seq<int>, row: seq<real>, n: nat): (cs: seq<nat>)
    requires n <= |row| && n <= |levmed|
    ensures |cs| <= n
    ensures forall k :: 0 <= k < |cs| ==> cs[k] < n
    ensures forall k, l :: 0 <= k < l < |cs| ==> cs[k] < cs[l]
    ensures forall j :: 0 <= j < n ==> (j in cs <==> Eligible(levmed, row, j))
  {
    if n == 0 then []
    else Selected(levmed, row, n - 1) + (if Eligible(levmed, row, n - 1) then [n - 1] else [])
  }

  /**
   * A row's list is the subsequence of `medium` at the selected columns: it
   * holds `medium[j]` for the columns j taken, each once, in ascending order.
   */
  lemma {:induction false} RowVarmedIsSubsequence(levmed: seq<int>, medium: seq<string>, row: seq<real>, n: nat)
    requires n <= |row| && RowInRange(levmed, medium, row, n)
    ensures n <= |levmed|
    ensures |RowVarmed(levmed, medium, row, n)| == |Selected(levmed, row, n)|
    ensures forall k :: 0 <= k < |Selected(levmed, row, n)| ==>
      Selected(levmed, row, n)[k] < |medium| &&
      RowVarmed(levmed, medium, row, n)[k] == medium[Selected(levmed, row, n)[k]]
  {
    if n > 0 {
      assert !Faults(levmed, medium, row, n - 1);
      RowVarmedIsSubsequence(levmed, medium, row, n - 1);
    }
  }

  /**
   * Membership both ways: every column taken contributes its component, and
   * every component in the list comes from a column taken.
   */
  lemma RowVarmedMembership(levmed: seq<int>, medium: seq<string>, row: seq<real>, n: nat)
    requires n <= |row| && RowInRange(levmed, medium, row, n)
    ensures forall j :: 0 <= j < n && j < |levmed| && Eligible(levmed, row, j) ==>
      j < |medium| && medium[j] in RowVarmed(levmed, medium, row, n)
    ensures forall c :: c in RowVarmed(levmed, medium, row, n) ==>
      exists j :: 0 <= j < n && j < |levmed| && j < |medium| && Eligible(levmed, row, j) && medium[j] == c
  {
    RowVarmedIsSubsequence(levmed, medium, row, n);
    var cs, r := Selected(levmed, row, n), RowVarmed(levmed, medium, row, n);
    forall j | 0 <= j < n && j < |levmed| && Eligible(levmed, row, j)
      ensures j < |medium| && medium[j] in r
    {
      var k :| 0 <= k < |cs| && cs[k] == j;
      assert r[k] == medium[j];
    }
    forall c | c in r
      ensures exists j :: 0 <= j < n && j < |levmed| && j < |medium| && Eligible(levmed, row, j) && medium[j] == c
    {
      var k :| 0 <= k < |r| && r[k] == c;
      assert cs[k] in cs;
    }
  }

  /** The variable-medium lists, one per row of X. */
  function VarmedLists(x: Matrix, levmed: seq<int>, medium: seq<string>): (v: seq<seq<string>>)
    requires InRange(x, levmed, medium)
    ensures |v| == |x.cells|
    ensures forall i :: 0 <= i < |v| ==> |v[i]| <= x.cols
  {
    seq(|x.cells|, i requires 0 <= i < |x.cells| => RowVarmed(levmed, medium, x.cells[i], x.cols))
  }

  /** The first column at or after j of this row that raises, if any. */
  function FaultInRow(levmed: seq<int>, medium: seq<string>, row: seq<real>, j: nat): (c: Option<nat>)
    requires j <= |row|
    decreases |row| - j
    ensures c.Some? ==> j <= c.value < |row| && Faults(levmed, medium, row, c.value)
    ensures c.Some? ==> forall j' :: j <= j' < c.value ==> !Faults(levmed, medium, row, j')
    ensures c.None? ==> forall j' :: j <= j' < |row| ==> !Faults(levmed, medium, row, j')
  {
    if j == |row| then None
    else if Faults(levmed, medium, row, j) then Some(j)
    else FaultInRow(levmed, medium, row, j + 1)
  }

  /** The first cell in row-major order, from row i on, that raises, if any. */
  function FaultFrom(x: Matrix, levmed: seq<int>, medium: seq<string>, i: nat): (c: Option<(nat, nat)>)
    requires i <= |x.cells|
    decreases |x.cells| - i
    ensures c.Some? ==> i <= c.value.0 < |x.cells| && c.value.1 < x.cols
    ensures c.Some? ==> Faults(levmed, medium, x.cells[c.value.0], c.value.1)
    ensures c.Some? ==> RowInRange(levmed, medium, x.cells[c.value.0], c.value.1)
    ensures c.Some? ==> forall i' :: i <= i' < c.value.0 ==> RowInRange(levmed, medium, x.cells[i'], x.cols)
    ensures c.None? ==> forall i' :: i <= i' < |x.cells| ==> RowInRange(levmed, medium, x.cells[i'], x.cols)
  {
    if i == |x.cells| then None
    else
      match FaultInRow(levmed, medium, x.cells[i], 0)
      case Some(j) => Some((i, j))
      case None => FaultFrom(x, levmed, medium, i + 1)
  }

  /** What stage 3 yields: the lists, or the cell whose visit raised IndexError. */
  datatype Derivation = Built(varmed: seq<seq<string>>) | OutOfRange(row: nat, col: nat)

  /** Stage 3 as a value: the lists if no cell raises, else the first cell that does. */
  function Derive(x: Matrix, levmed: seq<int>, medium: seq<string>): (d: Derivation)
    ensures d.Built? <==> InRange(x, levmed, medium)
    ensures d.Built? ==> d.varmed == VarmedLists(x, levmed, medium)
    ensures d.OutOfRange? ==> FirstFault(x, levmed, medium, d.row, d.col)
  {
    match FaultFrom(x, levmed, medium, 0)
    case None => Built(VarmedLists(x, levmed, medium))
    case Some((i, j)) => OutOfRange(i, j)
  }

  /** At most one cell is the first to raise. */
  lemma FirstFaultUnique(x: Matrix, levmed: seq<int>, medium: seq<string>, i1: nat, j1: nat, i2: nat, j2: nat)
    requires FirstFault(x, levmed, medium, i1, j1) && FirstFault(x, levmed, medium, i2, j2)
    ensures i1 == i2 && j1 == j2
  {
  }

  /**
   * The nested loops of stage 3: `varmed[i] = []`, then `append` for every
   * column taken. The dict keyed by 0..rows-1 and flattened by `list(values())`
   * is kept as a sequence indexed by row.
   */
  method BuildVarmed(x: Matrix, levmed: seq<int>, medium: seq<string>) returns (d: Derivation)
    ensures d == Derive(x, levmed, medium)
    ensures d.Built? ==> |d.varmed| == |x.cells|
  {
    var varmed: seq<seq<string>> := [];
    var i := 0;
    while i < |x.cells|
      invariant 0 <= i <= |x.cells|
      invariant |varmed| == i
      invariant forall i' :: 0 <= i' < i ==> RowInRange(levmed, medium, x.cells[i'], x.cols)
      invariant forall i' :: 0 <= i' < i ==> varmed[i'] == RowVarmed(levmed, medium, x.cells[i'], x.cols)
    {
      varmed := varmed + [[]];
      var j := 0;
      while j < x.cols
        invariant 0 <= j <= x.cols
        invariant |varmed| == i + 1
        invariant RowInRange(levmed, medium, x.cells[i], j)
        invariant varmed[i] == RowVarmed(levmed, medium, x.cells[i], j)
        invariant forall i' :: 0 <= i' < i ==> varmed[i'] == RowVarmed(levmed, medium, x.cells[i'], x.cols)
      {
        if j >= |levmed| || (levmed[j] > 1 && x.cells[i][j] > 0.0 && j >= |medium|) {
          assert Faults(levmed, medium, x.cells[i], j);
          assert !RowInRange(levmed, medium, x.cells[i], x.cols);
          var first := Derive(x, levmed, medium);
          FirstFaultUnique(x, levmed, medium, i, j, first.row, first.col);
          return OutOfRange(i, j);
        }
        if levmed[j] > 1 && x.cells[i][j] > 0.0 {
          varmed := varmed[i := varmed[i] + [medium[j]]];
        }
        j := j + 1;
      }
      i := i + 1;
    }
    d := Built(varmed);
  }
}
