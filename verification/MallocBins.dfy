/** Sizes and bins of the allocator: what a request is rounded to, and which bin a size belongs in. */
module MallocBins {
  import opened Arithmetic

  const TWO32: nat := 0x1_0000_0000
  const SIZE_SZ: nat := 4
  const ALIGN: nat := 8
  const MINSIZE: nat := 16
  const NBINS: nat := 96
  const NSMALLBINS: nat := 32
  const MIN_LARGE_SIZE: nat := 256

  // ---- Requests ----

  /** The bound is 2 * MINSIZE below 2^32, so that padding cannot wrap around. */
  predicate OutOfRange(req: nat) { req >= TWO32 - 2 * MINSIZE }

  function RequestToSize(req: nat): nat {
    if req + SIZE_SZ + (ALIGN - 1) < MINSIZE then MINSIZE
    else (req + SIZE_SZ + (ALIGN - 1)) / ALIGN * ALIGN
  }

  /** A size a chunk can have. */
  predicate ChunkSize(n: nat) { n >= MINSIZE && n % ALIGN == 0 }

  /** The size is the least one that is aligned, allowed, and leaves room for the request and the size field. */
  lemma RequestFits(req: nat)
    requires !OutOfRange(req)
    ensures ChunkSize(RequestToSize(req)) && RequestToSize(req) >= req + SIZE_SZ && RequestToSize(req) + MINSIZE < TWO32
    ensures forall n: nat | ChunkSize(n) && n >= req + SIZE_SZ :: RequestToSize(req) <= n
  {
  }

  /** Only requests within 32 bytes of 4 gigabytes are out of range. */
  lemma RequestRange(req: nat)
    ensures OutOfRange(req) <==> req > 0xFFFF_FFDF
  {
  }

  /** Asking again for a size less the alignment mask gives the same size. */
  lemma RequestAgain(n: nat)
    requires ChunkSize(n)
    ensures RequestToSize(n - (ALIGN - 1)) == n
  {
  }

  // ---- Bin numbers ----

  function Minus(a: nat, b: nat): (r: nat)
    requires a < TWO32 && b < TWO32
    ensures r < TWO32
  {
    (a - b) % TWO32
  }

  /** The bit of weight `w` (a power of two) of `x`, in place. */
  function Masked(x: nat, w: nat): nat
    requires w > 0
  {
    x / w % 2 * w
  }

  /** x & ~(x >> 1), for two bits. */
  function LeadingOfTwo(x: nat): nat
    requires x < 4
  {
    if x >= 2 then 2 else x
  }

  /** How far to shift: `w` if the subtraction borrows, else nothing. */
  function Amount(x: nat, bound: nat, w: nat): nat
    requires x < TWO32 && bound < TWO32 && w > 0
  {
    Masked(Minus(x, bound) / 0x1_0000, w)
  }

  function ShiftLeft(x: nat, n: nat): (r: nat)
    ensures r < TWO32
  {
    x * Pow2(n) % TWO32
  }

  /** The number of the highest bit, found without branching: shift by 8, 4 and 2 where the top bits are clear. */
  function HighBit(x: nat): (m: int)
    requires x < 0x1_0000
  {
    var n := Amount(x, 0x100, 8);
    var y := ShiftLeft(x, n);
    var m := Amount(y, 0x1000, 4);
    var z := ShiftLeft(y, m);
    var l := Amount(z, 0x4000, 2);
    var t := ShiftLeft(z, l) / 0x4000;
    13 - (n + m + l) + LeadingOfTwo(t % 4)
  }

  /** Each of the three tests says whether `x` is below a bound. */
  lemma TestBelow(x: nat, bound: nat, w: nat)
    requires x < 0x1_0000 && 0 < bound <= 0x1_0000 && (w == 2 || w == 4 || w == 8)
    ensures Amount(x, bound, w) == if x < bound then w else 0
  {
    if x < bound {
      DivModUnique(x - bound, TWO32, -1, x - bound + TWO32);
      var h := (x - bound + TWO32) / 0x1_0000;
      DivAtLeast(x - bound + TWO32, 0x1_0000, 0xFFFF);
      DivLess(x - bound + TWO32, 0x1_0000, 0x1_0000);
      assert h == 0xFFFF;
    } else {
      DivModUnique(x - bound, TWO32, 0, x - bound);
      DivLess(x - bound, 0x1_0000, 1);
    }
  }

  lemma ShiftExact(x: nat, n: nat, p: nat)
    requires Pow2(n) == p && x * p < TWO32
    ensures ShiftLeft(x, n) == x * p
  {
    MulSign(x, p);
    ModWrap(x * p, TWO32);
  }

  lemma SmallPowers()
    ensures Pow2(0) == 1 && Pow2(2) == 4 && Pow2(4) == 16 && Pow2(8) == 256 && Pow2(14) == 0x4000 && Pow2(15) == 0x8000 && Pow2(16) == 0x1_0000
  {
    assert Pow2(2) == 4;
    Pow2Add(2, 2);
    Pow2Add(4, 4);
    Pow2Add(8, 8);
    Pow2Add(8, 4);
    Pow2Add(12, 2);
    Pow2Add(14, 1);
  }

  /** What the shifts amount to: `x` brought between 2^14 and 2^16. */
  lemma Normalise(x: nat) returns (k: nat, t: nat)
    requires 0 < x < 0x1_0000
    ensures k <= 14 && t == x * Pow2(k) && 0x4000 <= t < 0x1_0000
    ensures HighBit(x) == 13 - k + (if t >= 0x8000 then 2 else 1)
  {
    SmallPowers();
    hide Pow2, Amount, ShiftLeft;
    var n, p := if x < 0x100 then 8 else 0, if x < 0x100 then 256 else 1;
    TestBelow(x, 0x100, 8);
    var y := x * p;
    ShiftExact(x, n, p);
    var m, q := if y < 0x1000 then 4 else 0, if y < 0x1000 then 16 else 1;
    TestBelow(y, 0x1000, 4);
    var z := y * q;
    ShiftExact(y, m, q);
    var l, r := if z < 0x4000 then 2 else 0, if z < 0x4000 then 4 else 1;
    TestBelow(z, 0x4000, 2);
    t, k := z * r, n + m + l;
    ShiftExact(z, l, r);
    Compose(x, n, m, l);
    assert HighBit(x) == 13 - k + LeadingOfTwo(t / 0x4000 % 4);
  }

  lemma Compose(x: nat, n: nat, m: nat, l: nat)
    ensures x * Pow2(n) * Pow2(m) * Pow2(l) == x * Pow2(n + m + l)
  {
    hide Pow2;
    Pow2Add(n, m);
    Pow2Add(n + m, l);
    MulAssoc(x, Pow2(n), Pow2(m));
    MulAssoc(x, Pow2(n + m), Pow2(l));
  }

  /** The branch-free code computes the integer logarithm. */
  lemma HighBitIsBsr(x: nat)
    requires 0 < x < 0x1_0000
    ensures HighBit(x) == Bsr(x)
  {
    hide Pow2, Bsr, HighBit;
    var k, t := Normalise(x);
    SmallPowers();
    var e: nat := if t >= 0x8000 then 15 else 14;
    Pow2Add(e - k, k);
    Pow2Add(e + 1 - k, k);
    var p := Pow2(k);
    if Pow2(e - k) > x { MulMono(x + 1, Pow2(e - k), p); MulDistr(p, x, 1); }
    if Pow2(e + 1 - k) <= x { MulMono(Pow2(e + 1 - k), x, p); }
    BsrUnique(x, e - k);
  }

  function SmallbinIndex(sz: nat): nat { sz / 8 }

  function FastbinIndex(sz: nat): nat
    requires sz >= MINSIZE
  {
    sz / 8 - 2
  }

  /** Four bins for each power of two. */
  function LargebinIndex(sz: nat): (i: int)
    requires sz >= MIN_LARGE_SIZE
  {
    var x := sz / 256;
    if x >= 0x1_0000 then NBINS - 1
    else
      var m := HighBit(x);
      HighBitIsBsr(x);
      NSMALLBINS + 4 * m + sz / Pow2(m + 6) % 4
  }

  function BinIndex(sz: nat): (i: int) {
    if sz < MIN_LARGE_SIZE then SmallbinIndex(sz) else LargebinIndex(sz)
  }

  /** Within a power of two the two bits behind the highest tell the bin. */
  lemma LargebinAt(sz: nat)
    requires MIN_LARGE_SIZE <= sz < 0x100_0000
    ensures var m := Bsr(sz / 256);
      && m <= 15 && Pow2(m + 6) > 0
      && 4 <= sz / Pow2(m + 6) < 8
      && LargebinIndex(sz) == NSMALLBINS - 4 + 4 * m + sz / Pow2(m + 6)
  {
    hide Pow2, Bsr, HighBit;
    var x, m := sz / 256, Bsr(sz / 256);
    HighBitIsBsr(x);
    SmallPowers();
    if m > 15 { Pow2Monotone(16, m); }
    Pow2Add(m, 8);
    Pow2Add(m + 1, 8);
    Pow2Add(m + 6, 2);
    Pow2Add(m + 6, 3);
    assert Pow2(3) == 8 by { EightIsPow2(); }
    DivBounds(sz, 256);
    MulMono(Pow2(m), x, 256);
    MulMono(x + 1, Pow2(m + 1), 256);
    var p := Pow2(m + 6);
    DivAtLeast(sz, p, 4);
    DivLess(sz, p, 8);
    ModWrap(sz / p - 4, 4);
    assert sz / p % 4 == sz / p - 4;
  }

  lemma EightIsPow2()
    ensures Pow2(3) == 8
  {
  }

  lemma DivMonotone(x: nat, y: nat, p: nat)
    requires x <= y && p > 0
    ensures x / p <= y / p
  {
    var q := x / p;
    assert p * q <= x by { DivBounds(x, p); }
    DivAtLeast(y, p, q);
  }

  lemma LargebinMonotone(a: nat, b: nat)
    requires MIN_LARGE_SIZE <= a <= b
    ensures NSMALLBINS <= LargebinIndex(a) <= LargebinIndex(b) < NBINS
  {
    hide Pow2, Bsr, LargebinIndex;
    BeyondLargest(a);
    BeyondLargest(b);
    if a < 0x100_0000 { LargebinAt(a); }
    if b < 0x100_0000 {
      LargebinAt(b);
      var m, n := Bsr(a / 256), Bsr(b / 256);
      DivMonotone(a, b, 256);
      BsrMonotone(a / 256, b / 256);
      if m == n { DivMonotone(a, b, Pow2(m + 6)); }
    }
  }

  lemma BeyondLargest(sz: nat)
    ensures sz >= 0x100_0000 ==> LargebinIndex(sz) == NBINS - 1
  {
  }

  /** Larger sizes never go into lower bins, and every size has a bin. */
  lemma BinIndexMonotone(a: nat, b: nat)
    requires MINSIZE <= a <= b
    ensures 2 <= BinIndex(a) <= BinIndex(b) < NBINS
  {
    hide LargebinIndex;
    if a >= MIN_LARGE_SIZE { LargebinMonotone(a, b); }
    else if b >= MIN_LARGE_SIZE { LargebinMonotone(b, b); }
  }

  /** A chunk in a later bin is large enough. */
  lemma LaterBinFits(a: nat, b: nat)
    requires MINSIZE <= a && MINSIZE <= b && BinIndex(a) < BinIndex(b)
    ensures a < b
  {
    hide LargebinIndex;
    if b <= a { BinIndexMonotone(b, a); }
  }

  /** Small bins hold chunks of one size. */
  lemma SmallbinExact(a: nat, b: nat)
    requires ChunkSize(a) && ChunkSize(b) && a < MIN_LARGE_SIZE && BinIndex(a) == BinIndex(b)
    ensures a == b
  {
    hide LargebinIndex;
    if b >= MIN_LARGE_SIZE { LargebinMonotone(b, b); }
  }

  // ---- The bin map ----

  const BITSPERMAP: nat := 32
  const BINMAPSIZE: nat := 3

  /** Bit `j` of a word. */
  predicate Bit(w: nat, j: nat) {
    if j == 0 then w % 2 == 1 else Bit(w / 2, j - 1)
  }

  /** The word with bit `j` set. */
  function Mark(w: nat, j: nat): nat {
    if j == 0 then w / 2 * 2 + 1 else Mark(w / 2, j - 1) * 2 + w % 2
  }

  /** The word with bit `j` cleared. */
  function Unmark(w: nat, j: nat): nat {
    if j == 0 then w / 2 * 2 else Unmark(w / 2, j - 1) * 2 + w % 2
  }

  lemma {:induction false} MarkBit(w: nat, j: nat, k: nat)
    ensures Bit(Mark(w, j), k) <==> k == j || Bit(w, k)
    ensures Bit(Unmark(w, j), k) <==> k != j && Bit(w, k)
    decreases j
  {
    if j > 0 && k > 0 { MarkBit(w / 2, j - 1, k - 1); }
  }

  lemma {:induction false} MarkSize(w: nat, j: nat, n: nat)
    requires w < Pow2(n) && j < n
    ensures Mark(w, j) < Pow2(n) && Unmark(w, j) < Pow2(n)
    decreases n
  {
    var p := Pow2(n - 1);
    assert Pow2(n) == 2 * p;
    if j > 0 {
      MarkSize(w / 2, j - 1, n - 1);
    }
  }

  /** A word less than a power of two has no bit from there on. */
  lemma {:induction false} NoBitsAbove(w: nat, j: nat, k: nat)
    requires w < Pow2(j) && j <= k
    ensures !Bit(w, k)
    decreases k
  {
    if k > 0 {
      if j > 0 { NoBitsAbove(w / 2, j - 1, k - 1); } else { NoBitsAbove(w / 2, 0, k - 1); }
    }
  }

  /** A word that is no less than 2^j has some bit at or above j. */
  lemma {:induction false} SomeBitAbove(w: nat, j: nat, n: nat) returns (k: nat)
    requires Pow2(j) <= w < Pow2(n)
    ensures j <= k < n && Bit(w, k)
    decreases n
  {
    if w == 1 {
      k := 0;
    } else {
      k := SomeBitAbove(w / 2, if j > 0 then j - 1 else 0, n - 1);
      k := k + 1;
    }
  }
}
