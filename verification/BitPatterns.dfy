/** Bit patterns of 32-bit floats and the multiples of a unit that they denote. */
module BitPatterns {
  import opened Power
  import opened RoundingTables
  import opened RoundingTheorems
  import opened VshRounding

  function Exponent(bits: Bits): nat { bits / 0x80_0000 % 0x100 }

  function Significand(bits: Bits): nat { 0x80_0000 + bits % 0x80_0000 }

  predicate ShiftIs(bits: Bits, grid: nat, shift: int) { shift == Exponent(bits) + grid - 150 }

  /** With its last place 2^shift units, a finite pattern that is zero or normal is x units. */
  predicate DenotesAt(bits: Bits, x: int, shift: int) {
    && (x < 0 ==> bits >= 0x8000_0000) && (x > 0 ==> bits < 0x8000_0000) && Exponent(bits) < 0xFF
    && if Exponent(bits) == 0 then bits % 0x8000_0000 == 0 && x == 0
       else if shift >= 0 then Abs(x) == Times(Significand(bits), shift)
       else Times(Abs(x), -shift) == Significand(bits)
  }

  /**
    `bits` is x units of 2^-grid.  Going through ShiftIs keeps the definition folded until DenotesIff
    asks for it.
   */
  ghost predicate Denotes(bits: Bits, x: int, grid: nat) {
    forall shift {:trigger ShiftIs(bits, grid, shift)} :: ShiftIs(bits, grid, shift) ==> DenotesAt(bits, x, shift)
  }

  lemma {:induction false} DenotesIff(bits: Bits, x: int, grid: nat)
    ensures Denotes(bits, x, grid) <==> DenotesAt(bits, x, Exponent(bits) + grid - 150)
  {
    assert ShiftIs(bits, grid, Exponent(bits) + grid - 150);
  }

  /** A value on a grid has one normal pattern. */
  lemma {:induction false} DenotesOne(b: Bits, c: Bits, x: int, grid: nat)
    requires Denotes(b, x, grid) && Denotes(c, x, grid) && x != 0
    ensures b == c
  {
    DenotesIff(b, x, grid);
    DenotesIff(c, x, grid);
    DenotesLead(b, x, grid);
    DenotesLead(c, x, grid);
    var shift := Exponent(b) + grid - 150;
    var s, t := Significand(b), Significand(c);
    if shift >= 0 {
      if s < t { TimesOrders(s, t, shift); }
      if t < s { TimesOrders(t, s, shift); }
    }
    SameParts(b, c);
  }

  /** ... because its leading bit gives the exponent away. */
  lemma {:induction false} DenotesLead(b: Bits, x: int, grid: nat)
    requires Denotes(b, x, grid) && x != 0
    ensures Exponent(b) != 0 && Lead(Abs(x)) == Exponent(b) + grid - 127
  {
    DenotesIff(b, x, grid);
    var shift := Exponent(b) + grid - 150;
    Powers();
    if shift >= 0 {
      SplitLead(Abs(x), 23, shift, Significand(b));
    } else {
      LeadBounds(Abs(x));
      LeadTimes(Abs(x), -shift);
      LeadIs(Significand(b), 23);
    }
  }

  lemma {:induction false} LeadTimes(n: nat, k: nat)
    requires n > 0
    ensures Times(n, k) > 0 && Lead(Times(n, k)) == Lead(n) + k
    decreases k
  {
    if k > 0 {
      LeadTimes(n, k - 1);
      LeadDoubles(Times(n, k - 1));
    }
  }

  lemma {:induction false} SameParts(b: Bits, c: Bits)
    requires Exponent(b) == Exponent(c) && Significand(b) == Significand(c)
    requires b >= 0x8000_0000 <==> c >= 0x8000_0000
    ensures b == c
  {
  }

  /** ... and a pattern has one value. */
  lemma {:induction false} DenotesValue(b: Bits, x: int, y: int, grid: nat)
    requires Denotes(b, x, grid) && Denotes(b, y, grid)
    ensures x == y
  {
    DenotesIff(b, x, grid);
    DenotesIff(b, y, grid);
    var shift := Exponent(b) + grid - 150;
    if Exponent(b) != 0 && shift < 0 {
      if Abs(x) < Abs(y) { TimesOrders(Abs(x), Abs(y), -shift); }
      if Abs(y) < Abs(x) { TimesOrders(Abs(y), Abs(x), -shift); }
    }
    if Exponent(b) != 0 && shift >= 0 { NotZero(Significand(b), shift); }
  }

  lemma {:induction false} NotZero(q: nat, k: nat)
    requires q > 0
    ensures Times(q, k) > 0
  {
    TimesOne(k);
    TimesOrders(0, q, k);
  }

  lemma {:induction false} ZeroDenotes(grid: nat)
    ensures Denotes(0, 0, grid)
  {
  }

  /** p is 2^k; folded in the same way, so that Pow2 is not evaluated wherever a place is mentioned. */
  ghost predicate PowerIs(k: nat, p: nat) { forall q: nat {:trigger Powered(k, q)} :: Powered(k, q) ==> q == p }

  predicate Powered(k: nat, q: nat) { q == Pow2(k) }

  lemma {:induction false} SmallPlaces()
    ensures PowerIs(1, 2) && PowerIs(2, 4) && PowerIs(4, 0x10) && PowerIs(5, 0x20) && PowerIs(6, 0x40)
    ensures PowerIs(10, 0x400) && PowerIs(11, 0x800)
  {
    Powers();
    Pow2Plus(6, 4, 16);
    Pow2Plus(6, 5, 32);
  }

  lemma {:induction false} LargePlaces()
    ensures PowerIs(18, 0x4_0000) && PowerIs(19, 0x8_0000) && PowerIs(20, 0x10_0000) && PowerIs(21, 0x20_0000)
    ensures PowerIs(22, 0x40_0000) && PowerIs(23, 0x80_0000) && PowerIs(41, 0x200_0000_0000)
  {
    Powers();
    Pow2Plus(18, 5, 32);
    Pow2Plus(18, 4, 16);
    Pow2Plus(18, 3, 8);
    Pow2Plus(18, 2, 4);
    Pow2Plus(18, 1, 2);
  }

  /** A pattern's value from the power of two between its last place and the unit. */
  lemma {:induction false} Denoted(bits: Bits, x: int, grid: nat, k: nat, p: nat)
    requires PowerIs(k, p) && 0 < Exponent(bits) < 0xFF && (x < 0 <==> bits >= 0x8000_0000) && x != 0
    requires if Exponent(bits) + grid >= 150 then Exponent(bits) + grid - 150 == k && Abs(x) == Significand(bits) * p
             else 150 - Exponent(bits) - grid == k && Abs(x) * p == Significand(bits)
    ensures Denotes(bits, x, grid)
  {
    assert Powered(k, Pow2(k));
    DenotesIff(bits, x, grid);
    TimesIsProduct(Significand(bits), k);
    TimesIsProduct(Abs(x), k);
  }

  // ---------------------------------------------------------------- the patterns of the tables

  /** Units of 2^-25: 1 and ulps. */
  lemma {:induction false} Ones25()
    ensures Denotes(0x3F800000, 0x200_0000, 25)
    ensures Denotes(0x33C00000, 3, 25)
    ensures Denotes(0x3F800001, 0x200_0004, 25)
  {
    SmallPlaces();
    LargePlaces();
    Denoted(0x3F800000, 0x200_0000, 25, 2, 4);
    Denoted(0x33C00000, 3, 25, 22, 0x40_0000);
    Denoted(0x3F800001, 0x200_0004, 25, 2, 4);
  }

  /** Their negations. */
  lemma {:induction false} MinusOnes25()
    ensures Denotes(0xBF800000, -0x200_0000, 25)
    ensures Denotes(0xB3C00000, -3, 25)
    ensures Denotes(0xBF800001, -0x200_0004, 25)
  {
    SmallPlaces();
    LargePlaces();
    Denoted(0xBF800000, -0x200_0000, 25, 2, 4);
    Denoted(0xB3C00000, -3, 25, 22, 0x40_0000);
    Denoted(0xBF800001, -0x200_0004, 25, 2, 4);
  }

  /** Roundings of products. */
  lemma {:induction false} Products25()
    ensures Denotes(0x3F801400, 0x200_5000, 25)
    ensures Denotes(0x3F801401, 0x200_5004, 25)
  {
    SmallPlaces();
    Denoted(0x3F801400, 0x200_5000, 25, 2, 4);
    Denoted(0x3F801401, 0x200_5004, 25, 2, 4);
  }

  /** Their negations. */
  lemma {:induction false} MinusProducts25()
    ensures Denotes(0xBF801400, -0x200_5000, 25)
    ensures Denotes(0xBF801401, -0x200_5004, 25)
    ensures Denotes(0xBF801402, -0x200_5008, 25)
  {
    SmallPlaces();
    Denoted(0xBF801400, -0x200_5000, 25, 2, 4);
    Denoted(0xBF801401, -0x200_5004, 25, 2, 4);
    Denoted(0xBF801402, -0x200_5008, 25, 2, 4);
  }

  /** What is left of them. */
  lemma {:induction false} Residues25()
    ensures Denotes(0xB3000000, -1, 25)
    ensures Denotes(0xB3800000, -2, 25)
    ensures Denotes(0xB4000000, -4, 25)
  {
    LargePlaces();
    Denoted(0xB3000000, -1, 25, 23, 0x80_0000);
    Denoted(0xB3800000, -2, 25, 22, 0x40_0000);
    Denoted(0xB4000000, -4, 25, 21, 0x20_0000);
  }

  /** Units of 2^-28: the rows with 2^-28. */
  lemma {:induction false} Patterns28()
    ensures Denotes(0x3F800000, 0x1000_0000, 28)
    ensures Denotes(0xBF800000, -0x1000_0000, 28)
    ensures Denotes(0x31800000, 1, 28)
    ensures Denotes(0xB1800000, -1, 28)
    ensures Denotes(0x3F7FFFFF, 0xFFF_FFF0, 28)
  {
    SmallPlaces();
    LargePlaces();
    Denoted(0x3F800000, 0x1000_0000, 28, 5, 0x20);
    Denoted(0xBF800000, -0x1000_0000, 28, 5, 0x20);
    Denoted(0x31800000, 1, 28, 23, 0x80_0000);
    Denoted(0xB1800000, -1, 28, 23, 0x80_0000);
    Denoted(0x3F7FFFFF, 0xFFF_FFF0, 28, 4, 0x10);
  }

  /** Units of 2^-29: the rows with 2^-24 + 2^-29. */
  lemma {:induction false} Patterns29()
    ensures Denotes(0x3F800000, 0x2000_0000, 29)
    ensures Denotes(0xB3840000, -0x21, 29)
    ensures Denotes(0x3F7FFFFF, 0x1FFF_FFE0, 29)
    ensures Denotes(0x3F7FFFFE, 0x1FFF_FFC0, 29)
  {
    SmallPlaces();
    LargePlaces();
    Denoted(0x3F800000, 0x2000_0000, 29, 6, 0x40);
    Denoted(0xB3840000, -0x21, 29, 18, 0x4_0000);
    Denoted(0x3F7FFFFF, 0x1FFF_FFE0, 29, 5, 0x20);
    Denoted(0x3F7FFFFE, 0x1FFF_FFC0, 29, 5, 0x20);
  }

  /** Units of 2^-22: the Rugby 2005 row. */
  lemma {:induction false} Patterns22()
    ensures Denotes(0x42203CC6, 0xA03_CC60, 22)
    ensures Denotes(0xB6000000, -8, 22)
    ensures Denotes(0xB6800000, -0x10, 22)
  {
    SmallPlaces();
    LargePlaces();
    Denoted(0x42203CC6, 0xA03_CC60, 22, 4, 0x10);
    Denoted(0xB6000000, -8, 22, 20, 0x10_0000);
    Denoted(0xB6800000, -0x10, 22, 19, 0x8_0000);
  }

  /** Units of 2^-32: the row with 2^32 and 2^-32. */
  lemma {:induction false} Patterns32()
    ensures Denotes(0x4F800000, 0x1_0000_0000_0000_0000, 32)
    ensures Denotes(0xCF800000, -0x1_0000_0000_0000_0000, 32)
    ensures Denotes(0x2F800000, 1, 32)
  {
    LargePlaces();
    Denoted(0x4F800000, 0x1_0000_0000_0000_0000, 32, 41, 0x200_0000_0000);
    Denoted(0xCF800000, -0x1_0000_0000_0000_0000, 32, 41, 0x200_0000_0000);
    Denoted(0x2F800000, 1, 32, 23, 0x80_0000);
  }

  /** The factors of the inexact products, on coarser units. */
  lemma {:induction false} Factors()
    ensures Denotes(0x3F800800, 0x1001, 12)
    ensures Denotes(0xBF800800, -0x1001, 12)
    ensures Denotes(0x3F800C00, 0x2003, 13)
    ensures Denotes(0xBF80309E, -0x40_184F, 22)
    ensures Denotes(0xC2200000, -0x28, 0)
  {
    SmallPlaces();
    LargePlaces();
    Denoted(0x3F800800, 0x1001, 12, 11, 0x800);
    Denoted(0xBF800800, -0x1001, 12, 11, 0x800);
    Denoted(0x3F800C00, 0x2003, 13, 10, 0x400);
    Denoted(0xBF80309E, -0x40_184F, 22, 1, 2);
    Denoted(0xC2200000, -0x28, 0, 18, 0x4_0000);
  }

  /** The factors 1 and -1. */
  lemma {:induction false} Units()
    ensures Denotes(0x3F800000, 1, 0)
    ensures Denotes(0xBF800000, -1, 0)
  {
    LargePlaces();
    Denoted(0x3F800000, 1, 0, 23, 0x80_0000);
    Denoted(0xBF800000, -1, 0, 23, 0x80_0000);
  }
}
