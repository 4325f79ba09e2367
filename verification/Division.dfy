/** Facts about division and remainders that the solver is not left to find. */
module Division {

  lemma QuotientBelow(x: int, q: int, w: nat)
    requires w > 0 && x < q * w
    ensures x / w < q
    ensures (x / w + 1) * w <= q * w
  {
    if x / w >= q {
      Scale(q, x / w, w);
    }
    Scale(x / w + 1, q, w);
  }

  lemma QuotientAtLeast(x: int, q: int, w: nat)
    requires w > 0 && x >= q * w
    ensures x / w >= q
  {
    if x / w < q {
      Scale(x / w + 1, q, w);
    }
  }

  lemma Scale(a: int, b: int, w: nat)
    requires a <= b
    ensures a * w <= b * w
  {
  }

  lemma Monotone(a: int, b: int, w: nat)
    requires a < b && w > 0
    ensures a * w < b * w
  {
  }

  lemma Multiple(q: int, w: nat)
    requires w > 0
    ensures q * w % w == 0 && q * w / w == q
  {
    Remainder(q, 0, w);
  }

  lemma Remainder(q: int, r: int, w: nat)
    requires w > 0 && 0 <= r < w
    ensures (q * w + r) % w == r && (q * w + r) / w == q
  {
    var x := q * w + r;
    var d := x / w - q;
    assert x == x / w * w + x % w;
    assert x / w * w - q * w == d * w;
    if d > 0 {
      Scale(1, d, w);
    } else if d < 0 {
      Scale(d, -1, w);
    }
  }

  lemma SameResidue(a: int, k: int, w: nat)
    requires w > 0
    ensures (a + k * w) % w == a % w
  {
    var q := a / w;
    assert a + k * w == (q + k) * w + a % w;
    Remainder(q + k, a % w, w);
  }

  /** A quotient steps up exactly at the multiples. */
  lemma QuotientSteps(x: int, n: nat)
    requires n > 0
    ensures x / n == (x - 1) / n + if x % n == 0 then 1 else 0
  {
    var q, r := x / n, x % n;
    assert x == q * n + r;
    if r == 0 {
      assert x - 1 == (q - 1) * n + (n - 1);
      Remainder(q - 1, n - 1, n);
    } else {
      assert x - 1 == q * n + (r - 1);
      Remainder(q, r - 1, n);
    }
  }
}
