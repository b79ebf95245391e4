/** Small value types shared by the models. */
module Common {
  datatype Option<+T> = None | Some(value: T)

  /** An octet, where the arithmetic of bit operations does not matter. */
  type Byte = n: int | 0 <= n < 256

  /** Unsigned 64-bit machine integers. */
  type U64 = n: int | 0 <= n < 0x1_0000_0000_0000_0000

  /** Length of the decimal form of `n`. */
  function Digits(n: nat): (d: nat)
    ensures d >= 1
  {
    if n < 10 then 1 else 1 + Digits(n / 10)
  }

  function Pow10(k: nat): (p: nat)
    ensures p >= 1
  {
    if k == 0 then 1 else 10 * Pow10(k - 1)
  }

  lemma {:induction false} DigitsAtMost(n: nat, k: nat)
    requires 1 <= k && n < Pow10(k)
    ensures Digits(n) <= k
  {
    if k > 1 && n >= 10 {
      DigitsAtMost(n / 10, k - 1);
    }
  }

  lemma U64Digits(n: U64)
    ensures Digits(n) <= 20
  {
    assert Pow10(4) == 10_000;
    assert Pow10(8) == 100_000_000;
    assert Pow10(12) == 1_000_000_000_000;
    assert Pow10(16) == 10_000_000_000_000_000;
    DigitsAtMost(n, 20);
  }

  // ---- Division by a positive number ----

  lemma MulMono(a: int, b: int, k: int)
    requires a <= b && 0 <= k
    ensures a * k <= b * k
  {}

  lemma DivMono(a: int, b: int, d: int)
    requires a <= b && d > 0
    ensures a / d <= b / d
  {
    var p, q := a / d, b / d;
    assert a == p * d + a % d && b == q * d + b % d;
    if p > q {
      MulMono(q + 1, p, d);
    }
  }

  lemma DivExact(q: int, r: int, d: int)
    requires 0 <= r < d
    ensures (q * d + r) / d == q
  {
    var n := q * d + r;
    assert n == (n / d) * d + n % d;
    if n / d < q {
      MulMono(n / d + 1, q, d);
    } else if n / d > q {
      MulMono(q + 1, n / d, d);
    }
  }
}
