/**
 * Divisibility by repeated subtraction, and the counting and arithmetic
 * facts the periodic `step % rate == 0` tests of the monitors rely on.
 */
module Multiples {

  /**
   * `n % p == 0`, written by repeated subtraction so that the solver
   * unfolds it only where a proof needs it; `MultipleMod` equates the two.
   */
  predicate Multiple(n: nat, p: nat)
    requires p >= 1
    decreases n
  {
    n == 0 || (n >= p && Multiple(n - p, p))
  }

  /**
   * The number of steps in `start+1 .. start+n` that are multiples of `p`:
   * how many times a `step % p == 0` test fires while `n` steps are taken.
   */
  function MultiplesAfter(start: nat, n: nat, p: nat): (m: nat)
    requires p >= 1
    ensures m <= n
  {
    if n == 0 then 0
    else MultiplesAfter(start, n - 1, p) + (if Multiple(start + n, p) then 1 else 0)
  }

  lemma {:induction false} MulSign(p: nat, k: int)
    ensures k >= 0 ==> p * k >= 0
  {
    if p > 0 {
      MulSign(p - 1, k);
      assert p * k == (p - 1) * k + k;
    }
  }

  /** One more factor adds one more `d`; a positive factor gives at least `d`. */
  lemma MulNext(k: nat, d: nat)
    ensures (k + 1) * d == k * d + d
    ensures k >= 1 ==> k * d >= d
  {
    MulSign(d, k - 1);
    assert d * (k - 1) == d * k - d;
  }

  /** `p * x < p * (y + 1)` bounds `x` by `y`. */
  lemma MulBelowNext(p: nat, x: int, y: int)
    requires p >= 1 && p * x < p * y + p
    ensures x <= y
  {
    MulSign(p, x - y - 1);
    assert p * (x - y - 1) == p * x - p * y - p;
  }

  lemma DivModUnique(a: nat, p: nat, q: nat, r: nat)
    requires p >= 1 && r < p && a == p * q + r
    ensures a / p == q && a % p == r
  {
    var q', r' := a / p, a % p;
    assert a == p * q' + r' && r' < p;
    MulBelowNext(p, q', q);
    MulBelowNext(p, q, q');
    assert p * q' == p * q;
  }

  /** Moving one step past `m` adds one multiple exactly when `m + 1` is one. */
  lemma DivSucc(m: nat, p: nat)
    requires p >= 1
    ensures (m + 1) / p == m / p + (if (m + 1) % p == 0 then 1 else 0)
  {
    var q, r := m / p, m % p;
    assert m == p * q + r;
    if r + 1 < p {
      DivModUnique(m + 1, p, q, r + 1);
    } else {
      assert m + 1 == p * (q + 1) + 0;
      DivModUnique(m + 1, p, q + 1, 0);
    }
  }

  lemma {:induction false} MultiplesAfterClosedForm(start: nat, n: nat, p: nat)
    requires p >= 1
    ensures MultiplesAfter(start, n, p) == (start + n) / p - start / p
  {
    if n > 0 {
      MultiplesAfterClosedForm(start, n - 1, p);
      DivSucc(start + n - 1, p);
      MultipleMod(start + n, p);
    }
  }

  lemma {:induction false} MultipleMod(n: nat, p: nat)
    requires p >= 1
    ensures Multiple(n, p) <==> n % p == 0
    decreases n
  {
    if n >= p {
      MultipleMod(n - p, p);
      var q, r := (n - p) / p, (n - p) % p;
      assert n - p == p * q + r;
      MulNext(q, p);
      assert n == p * (q + 1) + r;
      DivModUnique(n, p, q + 1, r);
    } else {
      DivModUnique(n, p, 0, n);
    }
  }

  /** The last of `n` steps from `start` adds one multiple exactly when it reaches one. */
  lemma MultiplesAfterLast(start: nat, n: nat, p: nat, last: nat)
    requires p >= 1 && n >= 1 && last == start + n
    ensures MultiplesAfter(start, n, p) == MultiplesAfter(start, n - 1, p) + (if Multiple(last, p) then 1 else 0)
  {
  }
}
