/** Multiplication by repeated addition, and how it undoes division. */
module Arithmetic {

  /** `a * b`, unfolding linearly. */
  function Times(a: nat, b: nat): nat {
    if a == 0 then 0 else Times(a - 1, b) + b
  }

  /** Position `j` of row `i` when rows have `n` positions. */
  function At(i: nat, j: nat, n: nat): nat {
    Times(i, n) + j
  }

  lemma {:induction false} TimesIsProduct(a: nat, b: nat)
    ensures Times(a, b) == a * b
  {
    if a > 0 {
      TimesIsProduct(a - 1, b);
      assert a * b == (a - 1) * b + b;
    }
  }

  lemma {:induction false} TimesMonotone(a: nat, c: nat, b: nat)
    requires a <= c
    ensures Times(a, b) <= Times(c, b)
    decreases c
  {
    if a < c {
      TimesMonotone(a, c - 1, b);
    }
  }

  lemma TimesCommutes(a: nat, b: nat)
    ensures Times(a, b) == Times(b, a)
  {
    TimesIsProduct(a, b);
    TimesIsProduct(b, a);
  }

  /** A number has only one row and position. */
  lemma AtIsUnique(i: nat, j: nat, i': nat, j': nat, n: nat)
    requires j < n && j' < n && At(i, j, n) == At(i', j', n)
    ensures i == i' && j == j'
  {
    if i < i' {
      TimesMonotone(i + 1, i', n);
    } else if i' < i {
      TimesMonotone(i' + 1, i, n);
    }
  }

  lemma RowAndPosition(t: nat, n: nat)
    requires n > 0
    ensures At(t / n, t % n, n) == t
  {
    TimesIsProduct(t / n, n);
  }

  lemma DivMod(i: nat, j: nat, n: nat)
    requires j < n
    ensures At(i, j, n) / n == i && At(i, j, n) % n == j
  {
    RowAndPosition(At(i, j, n), n);
    AtIsUnique(At(i, j, n) / n, At(i, j, n) % n, i, j, n);
  }

  lemma AtBound(i: nat, j: nat, n: nat, rows: nat)
    requires j < n && i < rows
    ensures At(i, j, n) < Times(rows, n)
  {
    TimesMonotone(i + 1, rows, n);
  }

  /** A position below `rows * n` is in one of the first `rows` rows. */
  lemma RowBound(t: nat, n: nat, rows: nat)
    requires n > 0 && t < Times(rows, n)
    ensures t / n < rows
  {
    RowAndPosition(t, n);
    if t / n >= rows {
      TimesMonotone(rows, t / n, n);
    }
  }
}
