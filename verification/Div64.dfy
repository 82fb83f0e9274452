/**
 Unsigned 64-by-64 division on a processor that divides 64 bits by 32.

 The three assembler macros are given by what they compute.  The hardware divide faults on
 a zero divisor and on a quotient that does not fit in 32 bits; the code keeps clear of the
 second and, for one family of divisors, runs into the first.
 */
module Div64 {
  import opened Arithmetic

  const TWO32: nat := 0x1_0000_0000
  const TWO64: nat := 0x1_0000_0000_0000_0000

  lemma Powers()
    ensures Pow2(31) == 0x8000_0000 && Pow2(32) == TWO32 && Pow2(63) == 0x8000_0000_0000_0000 && Pow2(64) == TWO64
  {
    assert Pow2(8) == 256;
    Pow2Add(8, 8);
    Pow2Add(16, 16);
    Pow2Add(32, 32);
    Pow2Add(31, 1);
    Pow2Add(63, 1);
  }

  /** How far a divisor is shifted right to leave its 32 leading bits. */
  function Shift(y: nat): nat
    requires y >= TWO32
  {
    Bsr(y / TWO32) + 1
  }

  /** The 32 leading bits of a divisor that has more. */
  function Leading(y: nat): nat
    requires y >= TWO32
  {
    y / Pow2(Shift(y))
  }

  lemma ShiftRange(y: nat)
    requires TWO32 <= y < TWO64
    ensures 1 <= Shift(y) <= 32
  {
    hide Pow2;
    var b := Bsr(y / TWO32);
    Powers();
    DivLess(y, TWO32, TWO32);
    if b >= 32 { Pow2Monotone(32, b); }
  }

  lemma ShiftedRange(y: nat)
    requires TWO32 <= y < TWO64
    ensures Pow2(Shift(y)) * 0x8000_0000 <= y < Pow2(Shift(y)) * TWO32
  {
    hide Pow2, Bsr;
    var y1 := y / TWO32;
    var b := Bsr(y1);
    Powers();
    DivBounds(y, TWO32);
    Pow2Add(b + 1, 31);
    Pow2Add(b, 32);
    MulMono(Pow2(b), y1, TWO32);
    MulMono(y1 + 1, Pow2(b + 1), TWO32);
  }

  lemma LeadingBounds(y: nat)
    requires TWO32 <= y < TWO64
    ensures 1 <= Shift(y) <= 32
    ensures 0x8000_0000 <= Leading(y) < TWO32
    ensures Pow2(Shift(y)) * Leading(y) <= y < Pow2(Shift(y)) * (Leading(y) + 1)
  {
    hide Pow2, Shift;
    ShiftRange(y);
    ShiftedRange(y);
    var p := Pow2(Shift(y));
    DivBounds(y, p);
    DivAtLeast(y, p, 0x8000_0000);
    DivLess(y, p, TWO32);
  }

  /** The one family of divisors the code cannot handle: their leading 32 bits are all ones. */
  predicate Faults(y: nat) {
    y >= TWO32 && Leading(y) == TWO32 - 1
  }

  // ---- The estimate ----

  /** The estimate is never too large, and at most two too small. */
  lemma Estimate(x: nat, y: nat)
    requires x < TWO64 && TWO32 <= y < TWO64 && !Faults(y)
    ensures var e := x / Pow2(Shift(y)) / (Leading(y) + 1); y * e <= x && e <= x / y <= e + 2
    ensures x / y < TWO32
  {
    hide Pow2, Shift, Leading;
    LeadingBounds(y);
    Pow2Monotone(1, Shift(y));
    PowOne();
    ScaledEstimate(x, y, Pow2(Shift(y)), Leading(y));
  }

  lemma ScaledEstimate(x: nat, y: nat, p: nat, d: nat)
    requires x < TWO64 && y > 0 && p >= 2 && d >= 0x8000_0000 && p * d <= y <= p * (d + 1)
    ensures var e := x / p / (d + 1); y * e <= x && e <= x / y <= e + 2
    ensures x / y < TWO32
  {
    var big, q := x / p, x / y;
    var e := big / (d + 1);
    EstimateLow(x, y, p, d, big, e);
    DivAtLeast(x, y, e);
    QuotientScaled(x, y, p, d, q);
    ScaledSmall(x, p, d, q);
    EstimateHigh(d, big, e, q);
  }

  lemma PowOne()
    ensures Pow2(1) == 2
  {
    assert Pow2(0) == 1;
  }

  lemma EstimateLow(x: nat, y: nat, p: nat, d: nat, big: nat, e: nat)
    requires p > 0 && big == x / p && e == big / (d + 1) && y <= p * (d + 1)
    ensures y * e <= x
  {
    DivBounds(x, p);
    DivBounds(big, d + 1);
    MulMono(y, p * (d + 1), e);
    MulAssoc(p, d + 1, e);
    MulMono((d + 1) * e, big, p);
  }

  /** The true quotient, times the leading bits of the divisor, fits in the shifted dividend. */
  lemma QuotientScaled(x: nat, y: nat, p: nat, d: nat, q: nat)
    requires p > 0 && y > 0 && q == x / y && p * d <= y
    ensures d * q <= x / p
  {
    DivBounds(x, y);
    MulMono(p * d, y, q);
    MulAssoc(p, d, q);
    DivAtLeast(x, p, d * q);
  }

  lemma ScaledSmall(x: nat, p: nat, d: nat, q: nat)
    requires x < TWO64 && p >= 2 && d >= 0x8000_0000 && d * q <= x / p
    ensures q < TWO32
  {
    MulMono(2, p, 0x8000_0000_0000_0000);
    DivLess(x, p, 0x8000_0000_0000_0000);
    MulMono(0x8000_0000, d, q);
  }

  lemma EstimateHigh(d: nat, big: nat, e: nat, q: nat)
    requires e == big / (d + 1) && d * q <= big && q < 2 * (d + 1)
    ensures q <= e + 2
  {
    DivBounds(big, d + 1);
    MulDistr(d + 1, e, 1);
    if q >= e + 3 {
      MulMono(e + 3, q, d + 1);
      MulDistr(d + 1, e, 3);
      MulDistr(q, d, 1);
    }
  }

  // ---- The code ----

  datatype Division = Fault | Quotient(q: nat, r: nat)

  /** The divl instruction: (hi:lo) divided by y. */
  method Divl(hi: nat, lo: nat, y: nat) returns (d: Division)
    requires hi < TWO32 && lo < TWO32 && y < TWO32
    ensures d.Fault? <==> y <= hi
    ensures d.Quotient? ==> hi * TWO32 + lo == y * d.q + d.r && d.r < y && d.q < TWO32
  {
    if y <= hi { return Fault; }
    var x := hi * TWO32 + lo;
    MulMono(hi + 1, y, TWO32);
    DivLess(x, y, TWO32);
    return Quotient(x / y, x % y);
  }

  /** The correction loop: from an estimate that is not too large to the quotient. */
  method Correct(x: nat, y: nat, e: nat) returns (q: nat, r: nat, ghost steps: nat)
    requires y > 0 && y * e <= x
    ensures x == y * q + r && r < y && q == x / y && q == e + steps
  {
    q, r, steps := e, x - y * e, 0;
    while r >= y
      invariant x == y * q + r && q == e + steps
      decreases r
    {
      MulDistr(y, q, 1);
      q, r, steps := q + 1, r - y, steps + 1;
    }
    DivModUnique(x, y, q, r);
  }

  /** The case of a divisor of more than 32 bits; `corrections` counts the iterations of the correction loop. */
  method DivideByLarge(x: nat, y: nat) returns (d: Division, ghost corrections: nat)
    requires x < TWO64 && TWO32 <= y < TWO64
    ensures d.Fault? <==> Faults(y)
    ensures d.Quotient? ==> x == y * d.q + d.r && d.r < y && d.q < TWO32
    ensures corrections <= 2
  {
    hide Pow2, Bsr;
    var l := Bsr(y / TWO32) + 1;
    assert l == Shift(y);
    LeadingBounds(y);
    ShiftedSmall(x, l);
    hide Shift;
    var y0, big := y / Pow2(l), x / Pow2(l);
    ModWrap(y0 + 1, TWO32);
    var step := Divl(big / TWO32, big % TWO32, (y0 + 1) % TWO32);
    if step.Fault? {
      return Fault, 0;
    }
    DivModUnique(big, y0 + 1, step.q, step.r);
    Estimate(x, y);
    var q, r;
    q, r, corrections := Correct(x, y, step.q);
    return Quotient(q, r), corrections;
  }

  method DoDiv64(x: nat, y: nat) returns (d: Division, ghost corrections: nat)
    requires x < TWO64 && y < TWO64
    ensures d.Fault? <==> Faults(y)
    ensures d.Quotient? && y > 0 ==> x == y * d.q + d.r && d.r < y
    ensures y == 0 ==> d == Quotient(0, x)
    ensures corrections <= 2
  {
    hide Leading;
    corrections := 0;
    var y1, y0 := y / TWO32, y % TWO32;
    var x1, x0 := x / TWO32, x % TWO32;
    if y1 != 0 {
      d, corrections := DivideByLarge(x, y);
    } else if x1 < y0 {
      d := Divl(x1, x0, y0);
    } else if y0 != 0 {
      var high := Divl(0, x1, y0);
      var low := Divl(high.r, x0, y0);
      LongDivision(x1, x0, y0, high.q, high.r, low.q, low.r);
      d := Quotient(high.q * TWO32 + low.q, low.r);
    } else {
      d := Quotient(0, x);
    }
  }

  lemma ShiftedSmall(x: nat, l: nat)
    requires x < TWO64 && 1 <= l
    ensures x / Pow2(l) / TWO32 < 0x8000_0000
  {
    hide Pow2;
    Pow2Monotone(1, l);
    PowOne();
    MulMono(2, Pow2(l), 0x8000_0000_0000_0000);
    DivLess(x, Pow2(l), 0x8000_0000_0000_0000);
  }

  lemma LongDivision(x1: nat, x0: nat, y: nat, q1: nat, r1: nat, q0: nat, r0: nat)
    requires x1 == y * q1 + r1 && r1 * TWO32 + x0 == y * q0 + r0
    ensures x1 * TWO32 + x0 == y * (q1 * TWO32 + q0) + r0
  {
    MulAssoc(y, q1, TWO32);
    MulDistr(y, q1 * TWO32, q0);
  }

  /** The divisors that fault: for each shift, the last 2^l numbers with 32 + l bits. */
  lemma FaultingDivisors(y: nat)
    requires TWO32 <= y < TWO64
    ensures Faults(y) <==> Pow2(Shift(y)) * (TWO32 - 1) <= y
  {
    hide Pow2, Shift, Leading;
    LeadingBounds(y);
    var p, d := Pow2(Shift(y)), Leading(y);
    if d < TWO32 - 1 { MulMono(d + 1, TWO32 - 1, p); }
  }

  /** The smallest divisor that faults is 2^33 - 2. */
  lemma SmallestFault(y: nat)
    ensures Faults(0x1_FFFF_FFFE)
    ensures y < 0x1_FFFF_FFFE ==> !Faults(y)
  {
    assert 0x1_FFFF_FFFE / TWO32 == 1;
    assert Shift(0x1_FFFF_FFFE) == 1;
    assert Pow2(1) == 2;
    if TWO32 <= y < 0x1_FFFF_FFFE {
      hide Pow2, Shift, Leading;
      FaultingDivisors(y);
      LeadingBounds(y);
      Pow2Monotone(1, Shift(y));
      MulMono(2, Pow2(Shift(y)), TWO32 - 1);
    }
  }
}
