/** Finite sums over the reals, and the regroupings a parallel reduction performs. */
module FiniteSums {
  import opened Arithmetic

  function Sum(f: nat -> real, n: nat): real {
    if n == 0 then 0.0 else Sum(f, n - 1) + f(n - 1)
  }

  lemma {:induction false} SumSame(f: nat -> real, g: nat -> real, n: nat)
    requires forall i: nat :: i < n ==> f(i) == g(i)
    ensures Sum(f, n) == Sum(g, n)
  {
    if n > 0 {
      SumSame(f, g, n - 1);
    }
  }

  lemma {:induction false} SumZero(f: nat -> real, n: nat)
    requires forall i: nat :: i < n ==> f(i) == 0.0
    ensures Sum(f, n) == 0.0
  {
    if n > 0 {
      SumZero(f, n - 1);
    }
  }

  lemma {:induction false} SumAdd(f: nat -> real, g: nat -> real, h: nat -> real, n: nat)
    requires forall i: nat :: i < n ==> h(i) == f(i) + g(i)
    ensures Sum(h, n) == Sum(f, n) + Sum(g, n)
  {
    if n > 0 {
      SumAdd(f, g, h, n - 1);
    }
  }

  /** Terms past the end that are zero add nothing. */
  lemma {:induction false} SumTail(f: nat -> real, n: nat, more: nat)
    requires n <= more && forall i: nat :: n <= i < more ==> f(i) == 0.0
    ensures Sum(f, more) == Sum(f, n)
  {
    if more > n {
      SumTail(f, n, more - 1);
    }
  }

  /** Row sums of a table, added up. */
  function Table(f: (nat, nat) -> real, rows: nat, cols: nat): real {
    if rows == 0 then 0.0 else Table(f, rows - 1, cols) + Row(f, rows - 1, cols)
  }

  function Row(f: (nat, nat) -> real, row: nat, cols: nat): real {
    if cols == 0 then 0.0 else Row(f, row, cols - 1) + f(row, cols - 1)
  }

  lemma {:induction false} RowSame(f: (nat, nat) -> real, g: (nat, nat) -> real, row: nat, row': nat, cols: nat)
    requires forall c: nat :: c < cols ==> f(row, c) == g(row', c)
    ensures Row(f, row, cols) == Row(g, row', cols)
  {
    if cols > 0 {
      RowSame(f, g, row, row', cols - 1);
    }
  }

  lemma {:induction false} TableSame(f: (nat, nat) -> real, g: (nat, nat) -> real, rows: nat, cols: nat)
    requires forall r: nat, c: nat :: r < rows && c < cols ==> f(r, c) == g(r, c)
    ensures Table(f, rows, cols) == Table(g, rows, cols)
  {
    if rows > 0 {
      TableSame(f, g, rows - 1, cols);
      RowSame(f, g, rows - 1, rows - 1, cols);
    }
  }

  /** One more column adds its entries. */
  lemma {:induction false} OneMoreColumn(f: (nat, nat) -> real, g: (nat, nat) -> real, rows: nat, cols: nat)
    requires forall r: nat :: r < rows ==> g(cols, r) == f(r, cols)
    ensures Table(f, rows, cols + 1) == Table(f, rows, cols) + Row(g, cols, rows)
  {
    if rows > 0 {
      OneMoreColumn(f, g, rows - 1, cols);
    }
  }

  /** Summing by rows or by columns is the same. */
  lemma {:induction false} Exchange(f: (nat, nat) -> real, g: (nat, nat) -> real, rows: nat, cols: nat)
    requires forall r: nat, c: nat :: r < rows && c < cols ==> g(c, r) == f(r, c)
    ensures Table(f, rows, cols) == Table(g, cols, rows)
  {
    if cols == 0 {
      EmptyRows(f, rows);
    } else {
      Exchange(f, g, rows, cols - 1);
      OneMoreColumn(f, g, rows, cols - 1);
    }
  }

  lemma {:induction false} EmptyRows(f: (nat, nat) -> real, rows: nat)
    ensures Table(f, rows, 0) == 0.0
  {
    if rows > 0 {
      EmptyRows(f, rows - 1);
    }
  }

  /** A row-major table, read straight through. */
  lemma {:induction false} Flatten(f: (nat, nat) -> real, flat: nat -> real, rows: nat, cols: nat)
    requires forall r: nat, c: nat {:trigger Flat(r, cols, c)} :: r < rows && c < cols ==> flat(Flat(r, cols, c)) == f(r, c)
    ensures Table(f, rows, cols) == Sum(flat, rows * cols)
  {
    if rows > 0 {
      Flatten(f, flat, rows - 1, cols);
      MulSucc(rows - 1, cols);
      FlattenRow(f, flat, rows - 1, cols, cols);
    }
  }

  lemma {:induction false} FlattenRow(f: (nat, nat) -> real, flat: nat -> real, row: nat, cols: nat, n: nat)
    requires n <= cols && forall c: nat {:trigger Flat(row, cols, c)} :: c < cols ==> flat(Flat(row, cols, c)) == f(row, c)
    ensures Sum(flat, row * cols + n) == Sum(flat, row * cols) + Row(f, row, n)
  {
    if n > 0 {
      FlattenRow(f, flat, row, cols, n - 1);
      assert Flat(row, cols, n - 1) == row * cols + (n - 1);
    }
  }
}
