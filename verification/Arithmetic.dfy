/** A few facts about multiplication and remainders that linear reasoning does not give. */
module Arithmetic {

  lemma MulAtLeast(n: nat, k: int)
    requires k >= 1
    ensures n * k >= n
  {
  }

  lemma Distribute(n: int, a: int, b: int)
    ensures n * (a - b) == n * a - n * b
  {
  }

  lemma Residue(q: int, n: nat, r: nat)
    requires r < n
    ensures (n * q + r) % n == r
  {
    var x := n * q + r;
    var p, s := x / n, x % n;
    assert x == n * p + s;
    Distribute(n, p, q);
    if p > q { MulAtLeast(n, p - q); assert false; }
    if p < q { Distribute(n, q, p); MulAtLeast(n, q - p); assert false; }
  }

  /** Moving `k` places on from a remainder, once around at most. */
  lemma Onward(c: nat, n: nat, k: nat)
    requires k < n
    ensures (c + k) % n == if c % n + k < n then c % n + k else c % n + k - n
  {
    var q, r := c / n, c % n;
    assert c == n * q + r;
    if r + k < n {
      Residue(q, n, r + k);
    } else {
      assert n * (q + 1) == n * q + n by { Distribute(n, q + 1, 1); }
      Residue(q + 1, n, r + k - n);
    }
  }
}
