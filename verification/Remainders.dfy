/** The remainder of an unsigned division, and how it moves with its argument. */
module Remainders {

  function Rem(k: nat, n: nat): (s: nat)
    requires n > 0
    ensures s < n
  {
    if k < n then k else Rem(k - n, n)
  }

  lemma RemShift(k: nat, n: nat)
    requires n > 0
    ensures Rem(k + n, n) == Rem(k, n)
  {
  }

  /** Two numbers less than `n` apart have different remainders. */
  lemma {:induction false} RemDiffer(a: nat, b: nat, n: nat)
    requires n > 0 && a < b < a + n
    ensures Rem(a, n) != Rem(b, n)
  {
    if a >= n { RemDiffer(a - n, b - n, n); }
  }

  lemma {:induction false} RemAdd(a: nat, b: nat, n: nat)
    requires n > 0
    ensures Rem(a + b, n) == Rem(a + Rem(b, n), n)
  {
    if b >= n { RemAdd(a, b - n, n); RemShift(a + b - n, n); }
  }

  lemma RemForward(a: nat, b: nat, m: nat, n: nat)
    requires n > 0 && a + m == b + n
    ensures Rem(a + Rem(m, n), n) == Rem(b, n)
  {
    RemAdd(a, m, n);
    RemShift(b, n);
  }

  lemma RemBack(a: nat, b: nat, r: nat, n: nat)
    requires 0 < n && r <= n && Rem(a + r, n) == Rem(b, n)
    ensures Rem(a, n) == Rem(b + (n - r), n)
  {
    RemAdd(n - r, a + r, n);
    RemAdd(n - r, b, n);
    RemShift(a, n);
  }

  /** The quotient. */
  function Quot(k: nat, n: nat): nat
    requires n > 0
  {
    if k < n then 0 else Quot(k - n, n) + 1
  }

  /** Dividing gives both. */
  lemma {:induction false} QuotRem(k: nat, n: nat)
    requires n > 0
    ensures k == n * Quot(k, n) + Rem(k, n)
  {
    if k >= n {
      QuotRem(k - n, n);
      assert n * (Quot(k - n, n) + 1) == n * Quot(k - n, n) + n;
    }
  }

  lemma {:induction false} Monotone(k: nat, a: nat, b: nat)
    ensures a >= b ==> k * a >= k * b
  {
    if k > 0 {
      Monotone(k - 1, a, b);
      assert k * a == (k - 1) * a + a && k * b == (k - 1) * b + b;
    }
  }

  lemma {:induction false} QuotOne(x: nat)
    ensures Quot(x, 1) == x
  {
    if x > 0 { QuotOne(x - 1); }
  }

  lemma QuotAtLeast(x: nat, k: nat, q: nat)
    requires k > 0 && k * q <= x
    ensures q <= Quot(x, k)
  {
    QuotRem(x, k);
    Monotone(k, q, Quot(x, k) + 1);
    assert k * (Quot(x, k) + 1) == k * Quot(x, k) + k;
  }
}
