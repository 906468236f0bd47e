/** Division of natural numbers. */
module Arithmetic {
  lemma MulStep(a: nat, b: nat, d: nat)
    requires a < b
    ensures a * d + d <= b * d
  {
    assert b * d == (a + 1) * d + (b - a - 1) * d;
    assert (a + 1) * d == a * d + d;
  }

  lemma DivMod(n: nat, d: nat)
    requires d > 0
    ensures n == n / d * d + n % d && n % d < d
  {
  }

  lemma DivUnique(n: nat, d: nat, q: nat, r: nat)
    requires d > 0 && r < d && n == q * d + r
    ensures n / d == q
  {
    var q' := n / d;
    assert n == q' * d + n % d;
    if q' < q {
      MulStep(q', q, d);
    } else if q < q' {
      MulStep(q, q', d);
    }
  }

  lemma ModUnique(n: nat, d: nat, q: nat, r: nat)
    requires d > 0 && r < d && n == q * d + r
    ensures n % d == r
  {
    DivUnique(n, d, q, r);
    assert n == n / d * d + n % d;
  }

  lemma DivDiv(n: nat, a: nat, b: nat)
    requires a > 0 && b > 0
    ensures a * b > 0 && n / a / b == n / (a * b)
  {
    var q, r, s := n / a / b, n / a % b, n % a;
    assert n == n / a * a + s && n / a == q * b + r;
    assert (q * b + r) * a + s == q * (a * b) + (r * a + s);
    MulStep(r, b, a);
    assert b * a == a * b;
    DivUnique(n, a * b, q, r * a + s);
  }

  lemma DivAdd(w: nat, d: nat, x: nat)
    requires d > 0
    ensures (w * d + x) / d == w + x / d
  {
    var q, r := x / d, x % d;
    assert w * d + x == (w + q) * d + r;
    DivUnique(w * d + x, d, w + q, r);
  }
}
