/** Facts about multiplication and Euclidean division that the region and
    channel-layout proofs use ( `/` and `%` below always have a positive divisor,
    where Dafny's division agrees with Python's floor division). */
module Arith {

  lemma {:induction false} MulMono(m: nat, a: int, b: int)
    requires a <= b
    ensures m * a <= m * b
  {
    if m > 0 {
      MulMono(m - 1, a, b);
      assert m * a == (m - 1) * a + a;
      assert m * b == (m - 1) * b + b;
    }
  }

  /** Quotient and remainder are determined by `i == m * q + r, 0 <= r < m`. */
  lemma DivModUnique(i: int, m: int, q: int, r: int)
    requires m > 0 && i == m * q + r && 0 <= r < m
    ensures i / m == q && i % m == r
  {
    var q', r' := i / m, i % m;
    assert i == m * q' + r';
    assert m * q - m * q' == r' - r;
    if q > q' {
      MulMono(m, 1, q - q');
      assert false;
    } else if q < q' {
      MulMono(m, 1, q' - q);
      assert false;
    }
  }

  lemma ModShift(i: int, m: int)
    requires 0 < m <= i
    ensures (i - m) % m == i % m
    ensures (i - m) / m == i / m - 1
  {
    var q, r := i / m, i % m;
    assert i == m * q + r;
    assert i - m == m * (q - 1) + r;
    DivModUnique(i - m, m, q - 1, r);
  }

  lemma DivMono(x: int, y: int, n: int)
    requires n > 0 && x <= y
    ensures x / n <= y / n
  {
    var qx, rx := x / n, x % n;
    var qy, ry := y / n, y % n;
    assert x == n * qx + rx && y == n * qy + ry;
    if qx > qy {
      MulMono(n, 1, qx - qy);
      assert false;
    }
  }

  /** An index below `m * len` has a quotient below `len`. */
  lemma DivBelow(i: int, m: int, len: int)
    requires m > 0 && 0 <= i < m * len
    ensures 0 <= i / m < len && 0 <= i % m < m
    ensures i == m * (i / m) + i % m
  {
    var q := i / m;
    assert i == m * q + i % m;
    if q >= len {
      MulMono(m, len, q);
      assert false;
    }
  }

  /** Of the indices c, c + m, c + 2m, ... below `size`, there are
      `size / m` and one more when c falls below `size % m`. */
  lemma StrideCount(size: nat, c: nat, m: nat)
    requires c < m
    ensures (if c >= size then 0 else (size - c - 1) / m + 1) == size / m + (if c < size % m then 1 else 0)
  {
    StrideCountBy(size, c, m, size / m, size % m);
  }

  lemma StrideCountBy(size: nat, c: nat, m: nat, q: nat, rem: nat)
    requires c < m && rem < m && size == m * q + rem
    ensures (if c >= size then 0 else (size - c - 1) / m + 1) == q + (if c < rem then 1 else 0)
  {
    if c < rem {
      DivModUnique(size - c - 1, m, q, rem - c - 1);
    } else if c < size {
      if q == 0 {
        assert false;
      }
      assert size - c - 1 == m * (q - 1) + (m + rem - c - 1);
      DivModUnique(size - c - 1, m, q - 1, m + rem - c - 1);
    } else if q > 0 {
      MulMono(m, 1, q);
      assert false;
    }
  }

  /** A floor mean of n values lies between their bounds. */
  lemma MeanBounds(t: int, n: int, lo: int, hi: int)
    requires n > 0 && n * lo <= t <= n * hi
    ensures lo <= t / n <= hi
  {
    DivMono(n * lo, t, n);
    DivMono(t, n * hi, n);
    DivModUnique(n * lo, n, lo, 0);
    DivModUnique(n * hi, n, hi, 0);
  }
}
