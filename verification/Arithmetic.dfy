/** Integer facts shared by the ledger, the address translation and the kernels. */
module Arithmetic {

  /** Ceiling division, `div_ceil` in the source; `d` is a block size and never zero there. Counted
      block by block, so that callers reason about it without multiplication. */
  function CeilDiv(n: nat, d: nat): (k: nat)
    requires d >= 1
  {
    if n == 0 then 0 else if n <= d then 1 else 1 + CeilDiv(n - d, d)
  }

  /** Counting blocks is the usual rounded-up division. */
  lemma {:induction false} CeilDivRounds(n: nat, d: nat)
    requires d >= 1
    ensures n <= CeilDiv(n, d) * d < n + d
    ensures CeilDiv(n, d) == (n + d - 1) / d
  {
    CeilDivBounds(n, d);
    QuotientUnique(CeilDiv(n, d), n + d - 1, d);
  }

  lemma {:induction false} CeilDivBounds(n: nat, d: nat)
    requires d >= 1
    ensures n <= CeilDiv(n, d) * d < n + d
  {
    if n > d {
      CeilDivBounds(n - d, d);
      MulSucc(CeilDiv(n - d, d), d);
    }
  }

  /** ...and the fewest blocks of size `d` that hold `n`. */
  lemma CeilDivLeast(n: nat, d: nat, blocks: nat)
    requires d >= 1
    ensures CeilDiv(n, d) <= blocks <==> n <= blocks * d
  {
    CeilDivBounds(n, d);
    if CeilDiv(n, d) < blocks {
      MulLess(CeilDiv(n, d), blocks, d);
    }
    if blocks < CeilDiv(n, d) {
      MulLess(blocks, CeilDiv(n, d), d);
    }
  }

  lemma MulSucc(k: int, d: int)
    ensures (k + 1) * d == k * d + d
  {
  }

  lemma QuotientUnique(k: nat, n: nat, d: nat)
    requires d >= 1 && k * d <= n < k * d + d
    ensures k == n / d
  {
    var q := n / d;
    assert q * d <= n < q * d + d;
    if q < k {
      MulLess(q, k, d);
    } else if k < q {
      MulLess(k, q, d);
    }
  }

  function Min(a: nat, b: nat): nat {
    if a <= b then a else b
  }

  function Max(a: nat, b: nat): nat {
    if a <= b then b else a
  }

  lemma MulLess(a: int, b: int, d: nat)
    requires a < b
    ensures a * d + d <= b * d
  {
    var k := b - a;
    assert b * d == a * d + k * d;
    assert (k - 1) * d >= 0;
  }

  lemma {:induction false} CeilDivMonotone(m: nat, n: nat, d: nat)
    requires d >= 1 && m <= n
    ensures CeilDiv(m, d) <= CeilDiv(n, d)
  {
    if m > d {
      CeilDivMonotone(m - d, n - d, d);
    }
  }

  /** Position `p` of an `n`-token lane falls in one of the `CeilDiv(n, d)` blocks covering it. */
  lemma PositionInBlocks(p: nat, n: nat, d: nat)
    requires d >= 1 && p < n
    ensures p / d < CeilDiv(n, d) && p % d < d
  {
    CeilDivRounds(n, d);
    assert p == (p / d) * d + p % d;
    if CeilDiv(n, d) < p / d {
      MulLess(CeilDiv(n, d), p / d, d);
    }
  }

  /** Block `k` of the covering blocks starts strictly before the end. */
  lemma BlockStartsInside(k: nat, n: nat, d: nat)
    requires d >= 1 && k < CeilDiv(n, d)
    ensures k * d < n
  {
    CeilDivRounds(n, d);
    MulLess(k, CeilDiv(n, d), d);
  }

  /** Two positions in the same cell of the same table are the same position. */
  lemma DivModDetermine(p: nat, q: nat, d: nat)
    requires d >= 1 && p / d == q / d && p % d == q % d
    ensures p == q
  {
    assert p == (p / d) * d + p % d;
    assert q == (q / d) * d + q % d;
  }

  // ---- Row-major addresses ----

  /** The row-major address of column `j` in row `i` of a `width`-wide matrix. */
  function Flat(i: nat, width: nat, j: nat): nat {
    i * width + j
  }

  lemma FlatBound(i: nat, rows: nat, width: nat, j: nat)
    requires i < rows && j < width
    ensures Flat(i, width, j) < rows * width
  {
    MulLess(i, rows, width);
  }

  lemma FlatInverse(i: nat, width: nat, j: nat)
    requires j < width
    ensures Flat(i, width, j) / width == i && Flat(i, width, j) % width == j
  {
    var a := Flat(i, width, j);
    QuotientUnique(i, a, width);
    assert a == (a / width) * width + a % width;
  }

  lemma FlatInjective(i: nat, j: nat, i': nat, j': nat, width: nat)
    requires j < width && j' < width && Flat(i, width, j) == Flat(i', width, j')
    ensures i == i' && j == j'
  {
    FlatInverse(i, width, j);
    FlatInverse(i', width, j');
  }

  lemma FlatSplit(a: nat, rows: nat, width: nat)
    requires width >= 1 && a < rows * width
    ensures a / width < rows && a % width < width
    ensures Flat(a / width, width, a % width) == a
  {
    assert a == (a / width) * width + a % width;
    if rows <= a / width {
      if rows < a / width {
        MulLess(rows, a / width, width);
      }
    }
  }
}
