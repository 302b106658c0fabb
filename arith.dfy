/** Small facts of real arithmetic, each proved on its own so that the solver
    meets them without the surrounding maps and sequences. */
module RealArith {

  lemma {:induction false} ZeroProduct(a: real)
    ensures a * 0.0 == 0.0
  {
  }

  lemma {:induction false} MulInverse(a: real, n: real)
    requires n != 0.0
    ensures a * (1.0 / n) == a / n
  {
  }

  /** (1-d) * (1/N) + d * 0 is a/N for a = 1-d. */
  lemma {:induction false} MixWithZero(a: real, n: nat, d: real)
    requires n > 0
    ensures a * (1.0 / n as real) + d * 0.0 == a / n as real
  {
    var y := d * 0.0;
    assert y == 0.0;
    MulInverse(a, n as real);
  }

  /** k copies of a/n, with k = n, add up to a. */
  lemma {:induction false} CopiesOfShare(k: nat, n: nat, a: real)
    requires n > 0 && k == n
    ensures k as real * (a / n as real) == a
  {
  }

  lemma {:induction false} ProductBound(a: real, b: real)
    requires 0.0 <= a && 0.0 <= b <= 1.0
    ensures 0.0 <= a * b <= a
  {
  }

  /** A weighted mix of two numbers in [0, 1] lies in [0, 1]. */
  lemma {:induction false} Between(d: real, u: real, v: real)
    requires 0.0 <= d <= 1.0 && 0.0 <= u <= 1.0 && 0.0 <= v <= 1.0
    ensures 0.0 <= (1.0 - d) * u + d * v <= 1.0
  {
    var e := 1.0 - d;
    var x := e * u;
    var y := d * v;
    ProductBound(e, u);
    ProductBound(d, v);
    assert x <= e;
    assert y <= d;
    assert x + y <= 1.0;
  }

  /** Shares of a common whole add up. */
  lemma {:induction false} AddShares(a: nat, b: nat, n: nat)
    requires n > 0
    ensures (a + b) as real / n as real == a as real / n as real + b as real / n as real
  {
  }

  lemma {:induction false} WholeShare(n: nat)
    requires n > 0
    ensures n as real / n as real == 1.0
  {
  }

  /** A count k out of n, with 0 < k <= n, is a share in (0, 1]. */
  lemma {:induction false} ShareInRange(k: nat, n: nat)
    requires 0 < k <= n
    ensures 0.0 < k as real / n as real <= 1.0
  {
  }

  lemma {:induction false} ScaleAtMost(n: real, s: real)
    requires 0.0 <= n && s <= 1.0
    ensures n * s <= n
  {
  }

  lemma {:induction false} Distribute(n: real, a: real, b: real)
    ensures n * (a + b) == n * a + n * b
  {
  }

  /** A length bounded by n times a total of at most 1 is bounded by n. */
  lemma {:induction false} AtMostScaled(len: real, n: int, s: real)
    requires len <= Times(n, s) && 0 <= n && s <= 1.0
    ensures len <= n as real
  {
    ScaleAtMost(n as real, s);
  }

  lemma {:induction false} QuotientNonNegative(a: real, n: nat)
    requires 0.0 <= a && n > 0
    ensures a / n as real >= 0.0
  {
  }

  /** One more element adds `base`, and `bonus` too when it is counted. */
  lemma {:induction false} TwoLevelStep(nt: nat, ct: nat, base: real, bonus: real, counted: bool)
    ensures nt as real * base + ct as real * bonus + (base + (if counted then bonus else 0.0))
      == (nt + 1) as real * base + (if counted then ct + 1 else ct) as real * bonus
  {
    var x := nt as real * base;
    var y := ct as real * bonus;
    assert (nt + 1) as real * base == x + base;
    if counted {
      assert (ct + 1) as real * bonus == y + bonus;
    }
  }

  /** `n` copies of `s`. */
  function Times(n: int, s: real): real {
    n as real * s
  }

  /** Two counts bounded by n * s and by x * n add up to at most n * (s + x). */
  lemma {:induction false} AddBounds(c1: nat, c2: nat, c: nat, n: int, s: real, x: real, t: real)
    requires c1 as real <= Times(n, s) && c2 as real <= x * n as real
    requires c == c1 + c2 && t == s + x
    ensures c as real <= Times(n, t)
  {
    Distribute(n as real, s, x);
    assert x * n as real == n as real * x;
  }

  lemma {:induction false} SuccTimes(k: nat, c: real)
    ensures (k + 1) as real * c == k as real * c + c
  {
  }

  /** A share of at least 1/m, taken n >= m times, is at least 1. */
  lemma {:induction false} ShareTimesCount(p: real, m: nat, n: int)
    requires m > 0 && p >= 1.0 / m as real && n >= m
    ensures Times(n, p) >= 1.0
  {
    var u := 1.0 / m as real;
    assert u * m as real == 1.0;
    assert (p - u) * m as real >= 0.0;
    assert p * m as real >= 1.0;
    assert p * (n - m) as real >= 0.0;
    assert p * n as real == p * m as real + p * (n - m) as real;
  }

  /** `x` scaled by `d`. */
  function Scale(d: real, x: real): real {
    d * x
  }

  lemma {:induction false} ScaleAdd(d: real, a: real, b: real)
    ensures Scale(d, a + b) == Scale(d, a) + Scale(d, b)
  {
    Distribute(d, a, b);
  }

  /** A total that is (1-d) plus d times itself is 1, unless d is 1. */
  lemma {:induction false} OwnShare(s: real, d: real)
    requires s == (1.0 - d) + Scale(d, s) && d != 1.0
    ensures s == 1.0
  {
    assert s * (1.0 - d) == 1.0 - d;
    var e := 1.0 - d;
    var inv := 1.0 / e;
    assert e * inv == 1.0;
    assert s == s * (e * inv);
    assert s * (e * inv) == (s * e) * inv;
    assert s * e == 1.0 - d;
    assert (s * e) * inv == e * inv;
  }

  lemma {:induction false} TimesSucc(k: nat, c: real)
    ensures Times(k + 1, c) == Times(k, c) + c
  {
    SuccTimes(k, c);
  }

  /** n shares of a/n make a. */
  lemma {:induction false} TimesShare(k: nat, n: nat, a: real)
    requires n > 0 && k == n
    ensures Times(k, a / n as real) == a
  {
    CopiesOfShare(k, n, a);
  }
}
