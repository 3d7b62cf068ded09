/** Remainders, Go's included. */
module Arithmetic {
  lemma ModAdd(x: int, n: nat)
    requires n > 0
    ensures (x + n) % n == x % n
  {
    var a, b := (x + n) / n - x / n, (x + n) % n - x % n;
    assert x + n == n * ((x + n) / n) + (x + n) % n && x == n * (x / n) + x % n;
    assert n == n * a + b by {
      assert n * a == n * ((x + n) / n) - n * (x / n);
    }
    MulBounds(n, a);
  }

  lemma MulBounds(n: nat, a: int)
    ensures a >= 2 ==> n * a >= 2 * n
    ensures a == 1 ==> n * a == n
    ensures a <= 0 ==> n * a <= 0
  {
    if a >= 2 {
      assert n * a == 2 * n + n * (a - 2);
    }
  }

  /** Two multiples of n less than n apart are one. */
  lemma MultiplesApart(a: int, b: int, n: nat)
    requires n > 0 && a % n == 0 && b % n == 0 && a <= b < a + n
    ensures a == b
  {
    var d := b / n - a / n;
    assert b - a == n * d by {
      assert b == n * (b / n) && a == n * (a / n);
      assert n * d == n * (b / n) - n * (a / n);
    }
    MulBounds(n, d);
  }

  lemma MultipleMod(q: int, n: nat)
    requires n > 0
    ensures (q * n) % n == 0
  {
    var d := q - (q * n) / n;
    assert (q * n) % n == n * d by {
      assert q * n == n * ((q * n) / n) + (q * n) % n;
      assert n * d == n * q - n * ((q * n) / n);
    }
    MulBounds(n, d);
  }

  lemma {:induction false} ModAddMany(x: nat, n: nat, i: nat)
    requires n > 0
    ensures (x % n + i) % n == (x + i) % n
    decreases x
  {
    if x >= n {
      ModAdd(x - n, n);
      ModAddMany(x - n, n, i);
      ModAdd(x - n + i, n);
      assert (x - n) + n == x && (x - n + i) + n == x + i;
    } else {
      ModSmall(x, n);
    }
  }

  lemma ModSmall(a: nat, n: nat)
    requires a < n
    ensures a % n == a
  {
  }

  lemma {:induction false} ModDistinct(a: nat, b: nat, n: nat)
    requires a < b < a + n
    ensures a % n != b % n
    decreases a
  {
    if a >= n {
      ModDistinct(a - n, b - n, n);
      ModAdd(a - n, n);
      ModAdd(b - n, n);
    } else {
      ModSmall(a, n);
      if b >= n {
        ModSmall(b - n, n);
        ModAdd(b - n, n);
      } else {
        ModSmall(b, n);
      }
    }
  }

  /** Go's %, which takes the sign of the dividend. */
  function Rem(a: int, n: int): int
    requires n > 0
  {
    if a >= 0 then a % n else -((-a) % n)
  }
}
