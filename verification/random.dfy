/** `Math.random()` as an explicit input. The engine returns multiples of
    2^-53 in [0, 1), so a draw is the numerator `r` of `r / 2^53`.
    `Math.floor(Math.random() * n)` is modelled as the floor of the exact
    product `r * n / 2^53`; the floating-point product is rounded before
    the floor, so for a few draws just below a multiple of `1 / n` the
    engine's index is one higher. */
module Random {

  /** The denominator of every `Math.random()` result. */
  const Scale: nat := 0x20_0000_0000_0000

  /** One `Math.random()` result, as the numerator over `Scale`. */
  type Draw = r: nat | r < Scale

  /** `Math.floor(Math.random() * n)` on the exact product: the unique `i`
      with `i <= r / Scale * n < i + 1`, always a valid index into `n`
      items. */
  function Index(r: Draw, n: nat): (i: nat)
    ensures i * Scale <= r * n < (i + 1) * Scale
    ensures n > 0 ==> i < n
    ensures n == 0 ==> i == 0
  {
    r * n / Scale
  }

  /** Every index of a list of at most `Scale` items is drawn by some
      `Math.random()` result, so the model rules out no outcome. */
  lemma IndexReachable(n: nat, i: nat)
    requires 0 < n <= Scale && i < n
    ensures exists r: Draw :: Index(r, n) == i
  {
    var r := (i * Scale + n - 1) / n;
    CeilingQuotient(i * Scale, n);
    BelowNextMultiple(r, n, i, Scale);
    FloorIsUnique(r * n, Scale, i);
    var d: Draw := r;
    assert Index(d, n) == i;
  }

  /** Rounding `a / n` up lands within `n - 1` above `a`. */
  lemma CeilingQuotient(a: nat, n: nat)
    requires n > 0
    ensures a <= (a + n - 1) / n * n <= a + n - 1
  {
    var q := (a + n - 1) / n;
    assert q * n + (a + n - 1) % n == a + n - 1;
  }

  /** With `r * n` less than `n` above `i * s`, `n <= s` and `i < n`, `r * n`
      stays below the next multiple of `s` and `r` stays below `s`. */
  lemma BelowNextMultiple(r: nat, n: nat, i: nat, s: nat)
    requires 0 < n <= s && i < n && i * s <= r * n <= i * s + n - 1
    ensures r * n < (i + 1) * s && r < s
  {
    assert (i + 1) * s == i * s + s;
    ScaleKeepsOrder(i + 1, n, s);
    ScaleKeepsOrder(s, r, n);
  }

  /** `x / s == i` exactly when `i * s <= x < (i + 1) * s`. */
  lemma FloorIsUnique(x: nat, s: nat, i: nat)
    requires 0 < s && i * s <= x < (i + 1) * s
    ensures x / s == i
  {
    var q := x / s;
    assert q * s + x % s == x;
    assert (q + 1) * s == q * s + s && (i + 1) * s == i * s + s;
    ScaleKeepsOrder(q + 1, i, s);
    ScaleKeepsOrder(i + 1, q, s);
  }

  /** Multiplying by a natural number keeps the order. */
  lemma ScaleKeepsOrder(a: nat, b: nat, c: nat)
    ensures a <= b ==> a * c <= b * c
  {
    if a <= b {
      assert b * c == a * c + (b - a) * c;
    }
  }
}
