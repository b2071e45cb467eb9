/** Facts about multiplication and division that the solver does not find on its own. */
module Arithmetic {

  lemma Small(s: int, d: int)
    requires 0 <= s && -s < s * d < s
    ensures d == 0
  {
    assert d >= 1 ==> s * d >= s;
    assert d <= -1 ==> s * d + s <= 0;
  }

  lemma DivMod(n: nat, s: nat, q: nat, r: nat)
    requires r < s && n == r + s * q
    ensures n / s == q && n % s == r
  {
    var d, m := n / s - q, n % s;
    assert n == s * (n / s) + m && s * d == s * (n / s) - s * q;
    Small(s, d);
  }

  lemma Quotient(n: nat, s: nat)
    requires 0 < s
    ensures n == n % s + s * (n / s) && n % s < s
  {
  }

  lemma Below(q: nat, m: nat, s: nat, r: nat)
    requires r < s
    ensures r + s * q < s * m <==> q < m
  {
    assert q < m ==> s * (q + 1) <= s * m;
    assert q >= m ==> s * q >= s * m;
  }

  lemma Regroup(a: nat, b: nat, c: nat)
    ensures a * b * c == a * (b * c) == b * (a * c)
  {
  }

  lemma Cancel(a: nat, b: nat)
    requires 0 < a
    ensures a * b / a == b
  {
    DivMod(a * b, a, b, 0);
  }

  lemma Positive(a: nat, b: nat)
    requires 0 < a && 0 < b
    ensures 0 < a * b
  {
  }

  lemma Distribute(a: nat, b: nat, c: nat)
    ensures a * (b + c) == a * b + a * c
  {
  }

  /** Dividing by a product first does not change what a factor of it leaves. */
  lemma Nested(x: nat, n: nat, parallel: nat, q: nat, tmp: nat, d: nat, r: nat)
    requires x == n * parallel * q + tmp && tmp == n * d + r && r < n && tmp < n * parallel
    ensures x % n == r && d < parallel
  {
    Regroup(n, parallel, q);
    Distribute(n, parallel * q, d);
    DivMod(x, n, parallel * q + d, r);
    Below(d, parallel, n, r);
  }
}
