/** Facts about multiplication, division and remainders that the solver needs spelled out. */
module Arithmetic {

  lemma MulDistr(c: int, a: int, b: int)
    ensures c * (a - b) == c * a - c * b && c * (a + b) == c * a + c * b
  {
  }

  lemma {:induction false} MulGrows(c: nat, k: nat)
    requires k >= 1
    ensures c * k >= c
    decreases k
  {
    if k > 1 {
      MulGrows(c, k - 1);
      MulDistr(c, k - 1, -1);
    }
  }

  /** The only multiple of `c` strictly between -c and c is zero. */
  lemma MulZero(c: nat, k: int)
    requires 0 < c * k + c && c * k < c
    ensures k == 0
  {
    MulDistr(c, 0, k);
    if k != 0 {
      MulGrows(c, if k > 0 then k else -k);
    }
  }

  lemma DivModUnique(x: int, c: nat, q: int, r: nat)
    requires c > 0 && x == c * q + r && r < c
    ensures x / c == q && x % c == r
  {
    MulDistr(c, x / c, q);
    MulZero(c, x / c - q);
  }

  lemma ModWrap(x: nat, c: nat)
    requires x < 2 * c
    ensures x % c == if x < c then x else x - c
  {
    if x < c {
      DivModUnique(x, c, 0, x);
    } else {
      DivModUnique(x, c, 1, x - c);
    }
  }

  lemma MulAssoc(a: int, b: int, c: int)
    ensures a * (b * c) == (a * b) * c
  {
  }

  lemma MulMono(a: nat, b: nat, c: nat)
    requires a <= b
    ensures a * c <= b * c && c * a <= c * b
  {
    MulDistr(c, b, a);
    MulSign(c, b - a);
  }

  lemma MulSign(a: nat, b: nat)
    ensures a * b >= 0
  {
  }

  lemma DivBounds(x: nat, c: nat)
    requires c > 0
    ensures c * (x / c) <= x < c * (x / c + 1)
  {
    MulDistr(c, x / c, 1);
  }

  lemma DivAtLeast(x: nat, c: nat, m: nat)
    requires c > 0 && c * m <= x
    ensures m <= x / c
  {
    DivBounds(x, c);
    if m > x / c { MulMono(x / c + 1, m, c); }
  }

  lemma DivLess(x: nat, c: nat, m: nat)
    requires c > 0 && x < c * m
    ensures x / c < m
  {
    DivBounds(x, c);
    if m <= x / c { MulMono(m, x / c, c); }
  }

  // ---- Powers of two ----

  function Pow2(n: nat): (r: nat)
    ensures r > 0
  {
    if n == 0 then 1 else 2 * Pow2(n - 1)
  }

  /** The position of the highest bit that is set. */
  function Bsr(n: nat): (b: nat)
    requires n > 0
    ensures Pow2(b) <= n < Pow2(b + 1)
  {
    if n == 1 then 0 else 1 + Bsr(n / 2)
  }

  lemma {:induction false} Pow2Monotone(a: nat, b: nat)
    requires a <= b
    ensures Pow2(a) <= Pow2(b)
    decreases b
  {
    if a < b { Pow2Monotone(a, b - 1); }
  }

  lemma {:induction false} Pow2Add(a: nat, b: nat)
    ensures Pow2(a + b) == Pow2(a) * Pow2(b)
    decreases a
  {
    if a > 0 {
      Pow2Add(a - 1, b);
      assert Pow2(a + b) == 2 * (Pow2(a - 1) * Pow2(b));
      MulAssoc(2, Pow2(a - 1), Pow2(b));
    }
  }

  /** Only one power of two is the highest in a number. */
  lemma BsrUnique(n: nat, b: nat)
    requires n > 0 && Pow2(b) <= n < Pow2(b + 1)
    ensures Bsr(n) == b
  {
    if Bsr(n) < b { Pow2Monotone(Bsr(n) + 1, b); }
    if b < Bsr(n) { Pow2Monotone(b + 1, Bsr(n)); }
  }

  lemma BsrMonotone(m: nat, n: nat)
    requires 0 < m <= n
    ensures Bsr(m) <= Bsr(n)
  {
    if Bsr(n) < Bsr(m) { Pow2Monotone(Bsr(n) + 1, Bsr(m)); }
  }
}
