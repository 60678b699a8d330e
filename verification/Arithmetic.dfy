/** Products and rounded-up quotients. */
module Arithmetic {
  lemma MulMono(x: int, y: int, b: int)
    requires x <= y && b >= 0
    ensures x * b <= y * b && b * x <= b * y
  {
  }

  lemma OneMoreTimes(x: int, b: int)
    ensures (x + 1) * b == x * b + b
  {
  }

  /** a / b, rounded up. */
  function CeilDiv(a: nat, b: nat): nat
    requires b > 0
  {
    (a + b - 1) / b
  }

  /** The least number of b's that cover a. */
  lemma CeilDivCovers(a: nat, b: nat, n: nat)
    requires b > 0
    ensures n * b >= a <==> n >= CeilDiv(a, b)
  {
    var q, r := CeilDiv(a, b), (a + b - 1) % b;
    assert a + b - 1 == q * b + r;
    if n >= q {
      MulMono(q, n, b);
    } else {
      MulMono(n + 1, q, b);
      OneMoreTimes(n, b);
    }
  }
}
