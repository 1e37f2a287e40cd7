/** Facts about integer division by a positive divisor. */
module Division {
  lemma MulAtLeast(k: int, i: int)
    requires k >= 1 && i >= 1
    ensures k * i >= i
  {
  }
  lemma QuotientMono(qa: int, ra: int, qb: int, rb: int, i: int)
    requires 0 <= ra < i && 0 <= rb < i && qa * i + ra <= qb * i + rb
    ensures qa <= qb
  {
    if qa > qb { MulAtLeast(qa - qb, i); }
  }
  lemma DivMod(a: int, i: int)
    requires i >= 1
    ensures a == (a / i) * i + a % i && 0 <= a % i < i
  {
  }
  lemma DivMono(a: int, b: int, i: int)
    requires i >= 1 && a <= b
    ensures a / i <= b / i
  {
    DivMod(a, i);
    DivMod(b, i);
    QuotientMono(a / i, a % i, b / i, b % i, i);
  }
  lemma DivUnique(x: int, i: int, q: int, m: int)
    requires i >= 1 && x == q * i + m && 0 <= m < i
    ensures x / i == q
  {
    DivMod(x, i);
    QuotientMono(x / i, x % i, q, m, i);
    QuotientMono(q, m, x / i, x % i, i);
  }
  lemma DivShift(x: int, i: int, r: int)
    requires i >= 1
    ensures (x - r * i) / i == x / i - r
  {
    DivMod(x, i);
    DivUnique(x - r * i, i, x / i - r, x % i);
  }
  lemma DivSuper(a: int, b: int, i: int)
    requires i >= 1
    ensures (a + b) / i >= a / i + b / i
  {
    DivMod(b, i);
    DivShift(a + b, i, b / i);
    DivMono(a, a + b - (b / i) * i, i);
  }
}
