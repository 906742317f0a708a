/** Floor division against exact quotients. */
module Reals {

  lemma CancelLess(x: real, y: real, t: real)
    requires t > 0.0 && x * t < y * t
    ensures x < y
  {
  }

  lemma CancelAtMost(x: real, y: real, t: real)
    requires t > 0.0 && x * t <= y * t
    ensures x <= y
  {
  }

  lemma ScaleAtMost(x: real, y: real, t: real)
    requires t >= 0.0 && x <= y
    ensures x * t <= y * t
  {
  }

  lemma Distribute(q: real, t: real)
    ensures (q + 1.0) * t == t * q + t
    ensures q * t == t * q
  {
  }

  lemma Quotient(n: real, d: real)
    requires d > 0.0
    ensures n / d * d == n
  {
  }

  lemma Product(a: int, b: int)
    ensures (a * b) as real == a as real * b as real
  {
  }

  lemma FloorBelow(n: nat, d: nat)
    requires d > 0
    ensures (n / d) as real <= n as real / d as real < (n / d) as real + 1.0
  {
    var q, e, t := (n / d) as real, n as real / d as real, d as real;
    var floor := d * (n / d);
    assert floor <= n < floor + d;
    Product(d, n / d);
    Quotient(n as real, t);
    assert floor as real <= n as real < floor as real + t;
    Distribute(q, t);
    CancelAtMost(q, e, t);
    CancelLess(e, q + 1.0, t);
  }

  /** An exact quotient of a product, regrouped. */
  lemma Regroup(a: real, x: real, s: real, t: real)
    requires t > 0.0
    ensures a * (x * s / t) == s * (a * x / t)
  {
    var lhs, rhs := a * (x * s / t), s * (a * x / t);
    Quotient(x * s, t);
    Quotient(a * x, t);
    assert lhs * t == a * (x * s / t * t);
    assert rhs * t == s * (a * x / t * t);
    CancelAtMost(lhs, rhs, t);
    CancelAtMost(rhs, lhs, t);
  }
}
