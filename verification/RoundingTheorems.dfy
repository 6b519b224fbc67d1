/** General laws of the rounding models, beyond the rows that the tests record. */
module RoundingTheorems {
  import opened Power
  import opened Rounding
  import opened VshRounding

  lemma {:induction false} RzOfFloat(x: int)
    requires IsFloat(x)
    ensures Rz(x) == x
  {
    RoundingIs(x);
    FloatIsMultiple(x);
    TruncExact(x, UlpExp(x));
  }

  /** Clearing bits below the last significand bit does not change the truncated value. */
  lemma {:induction false} RzOfFloor(n: nat, k: nat)
    requires n > 0 && k <= UlpExp(n)
    ensures Rz(Floor(n, k)) == Rz(n)
  {
    RoundingIs(n);
    RoundingIs(Floor(n, k));
    UlpBounds(n);
    FloorKeepsLead(n, k);
    FloorFloor(n, k, UlpExp(n));
  }

  // ---------------------------------------------------------------- two addends

  lemma {:induction false} WinPair(a: int, b: int)
    ensures var k := WindowOf(Max(Abs(a), Abs(b))); WinRz([a, b]) == Rz(Trunc(a, k) + Trunc(b, k))
  {
    SumTwo(a, b, WindowOf(Max(Abs(a), Abs(b))));
  }

  lemma {:induction false} WinPairNegates(a: int, b: int)
    ensures WinRz([-a, -b]) == -WinRz([a, b])
  {
    WinNegates([a, b]);
    assert Negated([a, b]) == [-a, -b];
  }

  lemma {:induction false} WinSwaps(a: int, b: int)
    ensures WinRz([a, b]) == WinRz([b, a])
  {
    assert multiset([a, b]) == multiset([b, a]);
    WinPermutes([a, b], [b, a]);
  }

  /** Addends on the window's grid are added exactly. */
  lemma {:induction false} WinExact(a: int, b: int, k: nat)
    requires WindowOf(Max(Abs(a), Abs(b))) <= k && Multiple(a, k) && Multiple(b, k)
    ensures WinRz([a, b]) == Rz(a + b)
  {
    var w := WindowOf(Max(Abs(a), Abs(b)));
    MultipleFiner(a, w, k);
    MultipleFiner(b, w, k);
    TruncExact(a, w);
    TruncExact(b, w);
    WinPair(a, b);
  }

  /** A larger float is added exactly to what alignment leaves of the smaller addend. */
  lemma {:induction false} WinAligned(a: int, b: int)
    requires IsFloat(a) && Abs(b) <= Abs(a)
    ensures WinRz([a, b]) == Rz(a + Trunc(b, WindowOf(Abs(a))))
  {
    LargestIsExact(a);
    WinPair(a, b);
  }

  /** With equal signs the bits that alignment drops could not have mattered. */
  lemma {:induction false} WinSameSign(a: nat, b: nat)
    requires IsFloat(a) && IsFloat(b) && b <= a
    ensures WinRz([a, b]) == Rz(a + b)
  {
    var k := WindowOf(a);
    WinAligned(a, b);
    if a > 0 {
      FloatIsMultiple(a);
      MultipleFiner(a, k, UlpExp(a));
      FloorOfSum(a, b, k);
      UlpGrows(a, a + b);
      RzOfFloor(a + b, k);
    }
  }

  lemma {:induction false} FloorOfSum(a: nat, b: nat, k: nat)
    requires Multiple(a, k)
    ensures Floor(a + b, k) == a + Floor(b, k)
  {
    FloorIsMultiple(b, k);
    MultipleSum(a, Floor(b, k), k);
    FloorUnique(a + b, k, a + Floor(b, k));
  }

  /** With leading bits at most 5 apart the alignment drops nothing. */
  lemma {:induction false} WinClose(a: int, b: int)
    requires IsFloat(a) && IsFloat(b) && Abs(b) <= Abs(a)
    requires b == 0 || Lead(Abs(a)) <= Lead(Abs(b)) + 5
    ensures WinRz([a, b]) == Rz(a + b)
  {
    var k := WindowOf(Abs(a));
    FloatIsMultiple(b);
    if b == 0 { ZeroIsMultiple(k); } else { MultipleFiner(b, k, UlpExp(b)); }
    TruncExact(b, k);
    WinAligned(a, b);
  }

  /** What alignment drops from the smaller addend. */
  ghost function Dropped(big: nat, small: nat): nat { small - Floor(small, WindowOf(big)) }

  /** A difference with a far smaller float loses at most one leading bit. */
  lemma {:induction false} FarDifference(a: nat, b: nat)
    requires a > 0 && b > 0 && Lead(a) > Lead(b) + 5
    ensures a > b && Lead(a - b) >= Lead(a) - 1
  {
    LeadBounds(a);
    LeadBounds(b);
    Pow2Orders(Lead(b), Lead(a) - 1);
    LeadBounds(a - b);
    Pow2Orders(Lead(a - b), Lead(a) - 1);
  }

  lemma {:induction false} DroppedIsSmall(a: nat, small: nat, s: nat)
    requires a > 0 && s > 0 && Lead(s) >= Lead(a) - 1
    ensures Dropped(a, small) < Ulp(s)
  {
    Pow2Orders(WindowOf(a), UlpExp(s));
  }

  /** Truncating n + e, with e below one ulp of n, gives Rz(n) or the float after it. */
  lemma {:induction false} RzOfSum(n: nat, e: nat)
    requires n > 0 && e < Ulp(n)
    ensures Rz(n + e) == Rz(n) + if (n - Rz(n)) + e >= Ulp(n) then Ulp(n) else 0
  {
    UlpBounds(n);
    LeadBounds(n);
    NextMultiple(n, UlpExp(n), Lead(n) + 1);
    if n + e < Pow2(Lead(n) + 1) { SumBelowTop(n, e); } else { SumPastTop(n, e); }
  }

  lemma {:induction false} SumBelowTop(n: nat, e: nat)
    requires n > 0 && e < Ulp(n) && n + e < Pow2(Lead(n) + 1)
    ensures Rz(n + e) == Rz(n) + if (n - Rz(n)) + e >= Ulp(n) then Ulp(n) else 0
  {
    RoundingIs(n);
    RoundingIs(n + e);
    var k, f := UlpExp(n), Floor(n, UlpExp(n));
    LeadBounds(n);
    LeadIs(n + e, Lead(n));
    FloorIsMultiple(n, k);
    Pow2Multiple(k, k);
    MultipleSum(f, Pow2(k), k);
    FloorUnique(n + e, k, if (n - f) + e >= Pow2(k) then f + Pow2(k) else f);
  }

  lemma {:induction false} SumPastTop(n: nat, e: nat)
    requires n > 0 && e < Ulp(n) && n + e >= Pow2(Lead(n) + 1)
    requires Floor(n, UlpExp(n)) + Ulp(n) <= Pow2(Lead(n) + 1)
    ensures Rz(n + e) == Rz(n) + Ulp(n) && (n - Rz(n)) + e >= Ulp(n)
  {
    RoundingIs(n);
    var k, top := UlpExp(n), Lead(n) + 1;
    LeadBounds(n);
    UlpBounds(n);
    FloorIsMultiple(n, k);
    Pow2Multiple(k, k);
    MultipleSum(Floor(n, k), Pow2(k), k);
    Pow2Multiple(k, top);
    MultiplesApart(Pow2(top), Floor(n, k) + Pow2(k), k);
    Pow2Grows(k, top);
    LeadIs(n + e, top);
    PastTop(n + e, top);
  }

  lemma {:induction false} PastTop(m: nat, top: nat)
    requires m > 0 && Lead(m) == top && Pow2(top) <= m < Pow2(top) + Pow2(Max(0, top - 24))
    ensures Rz(m) == Pow2(top)
  {
    RoundingIs(m);
    Pow2Grows(Max(0, top - 24), UlpExp(m));
    Pow2Multiple(UlpExp(m), top);
    FloorUnique(m, UlpExp(m), Pow2(top));
  }

  /** Whether the adder is exact up to its one final truncation. */
  ghost predicate NothingDropped(a: int, b: int) {
    a == 0 || b == 0 || (a > 0 <==> b > 0) || -5 <= Lead(Abs(a)) - Lead(Abs(b)) <= 5
  }

  /** r is s truncated, or the next float if `lost` makes up what truncation drops. */
  ghost predicate OneUlpOff(s: int, r: int, lost: nat) {
    s != 0 && (r > 0 <==> s > 0) && (r < 0 <==> s < 0)
    && Abs(r) == Abs(Rz(s)) + if Abs(s) - Abs(Rz(s)) + lost >= Ulp(s) then Ulp(s) else 0
  }

  lemma {:induction false} RzNotZero(x: nat)
    requires x > 0
    ensures 0 < Rz(x) <= x
  {
    RoundingIs(x);
    UlpBounds(x);
    FloorKeepsLead(x, UlpExp(x));
  }

  lemma {:induction false} FarAligned(a: nat, b: nat)
    requires IsFloat(a) && b <= a
    ensures WinRz([a, 0 - b]) == Rz(a - b + Dropped(a, b))
  {
    WinAligned(a, 0 - b);
  }

  lemma {:induction false} WinFar(a: nat, b: nat, s: nat, r: int)
    requires IsFloat(a) && a > 0 && b > 0 && Lead(a) > Lead(b) + 5 && s == a - b
    requires r == Rz(s + Dropped(a, b))
    ensures OneUlpOff(s, r, Dropped(a, b))
  {
    FarDifference(a, b);
    DroppedIsSmall(a, b, s);
    FarTruncated(s, Dropped(a, b), r);
  }

  lemma {:induction false} FarTruncated(s: nat, lost: nat, r: int)
    requires s > 0 && lost < Ulp(s) && r == Rz(s + lost)
    ensures OneUlpOff(s, r, lost)
  {
    RzOfSum(s, lost);
    RzNotZero(s);
  }

  /** What the adder gives for a and b. */
  ghost predicate AddsTo(a: int, b: int, r: int, lost: nat) {
    if NothingDropped(a, b) then r == Rz(a + b) else OneUlpOff(a + b, r, lost)
  }

  lemma {:induction false} AddsToNegates(a: int, b: int, r: int, lost: nat)
    requires AddsTo(a, b, r, lost)
    ensures AddsTo(-a, -b, -r, lost)
  {
    RzNegates(a + b);
    assert -a + -b == -(a + b);
  }

  lemma {:induction false} PositiveFirst(a: nat, b: int)
    requires IsFloat(a) && IsFloat(b) && Abs(b) <= a
    ensures AddsTo(a, b, WinRz([a, b]), Dropped(a, Abs(b)))
  {
    if NothingDropped(a, b) { ExactFirst(a, b); } else { FarFirst(a, b); }
  }

  lemma {:induction false} ExactFirst(a: nat, b: int)
    requires IsFloat(a) && IsFloat(b) && Abs(b) <= a && NothingDropped(a, b)
    ensures WinRz([a, b]) == Rz(a + b)
  {
    if b != 0 { LeadGrows(Abs(b), a); }
    if b >= 0 { WinSameSign(a, b); } else { WinClose(a, b); }
  }

  lemma {:induction false} FarFirst(a: nat, b: int)
    requires IsFloat(a) && IsFloat(b) && Abs(b) <= a && !NothingDropped(a, b)
    ensures OneUlpOff(a + b, WinRz([a, b]), Dropped(a, Abs(b)))
  {
    LeadGrows(Abs(b), a);
    assert 0 - -b == b;
    FarDifference(a, -b);
    FarAligned(a, -b);
    WinFar(a, -b, a + b, WinRz([a, b]));
  }

  lemma {:induction false} NegativeFirst(m: nat, n: int, a: int, b: int)
    requires m == -a && n == -b && IsFloat(a) && IsFloat(b) && Abs(b) <= m
    ensures AddsTo(a, b, WinRz([a, b]), Dropped(m, Abs(b)))
  {
    FloatSign(m, a);
    FloatSign(n, b);
    PositiveFirst(m, n);
    WinPairNegates(m, n);
    AddsToNegates(m, n, WinRz([m, n]), Dropped(m, Abs(n)));
  }

  lemma {:induction false} OrderedAddends(a: int, b: int)
    requires IsFloat(a) && IsFloat(b) && Abs(b) <= Abs(a)
    ensures AddsTo(a, b, WinRz([a, b]), Dropped(Abs(a), Abs(b)))
  {
    if a >= 0 { PositiveFirst(a, b); } else { NegativeFirst(-a, -b, a, b); }
  }

  /**
    The two-addend adder on floats, for every pair.  When the signs agree or the leading bits are at
    most 5 apart it is the exact sum truncated once.  Otherwise its magnitude is that of the
    truncated exact sum, plus one ulp exactly when the bits that alignment dropped make up the ulp
    that truncation dropped.
   */
  lemma {:induction false} TwoAddends(a: int, b: int)
    requires IsFloat(a) && IsFloat(b)
    ensures NothingDropped(a, b) ==> WinRz([a, b]) == Rz(a + b)
    ensures !NothingDropped(a, b) ==>
      OneUlpOff(a + b, WinRz([a, b]), if Abs(a) < Abs(b) then Dropped(Abs(b), Abs(a)) else Dropped(Abs(a), Abs(b)))
  {
    if Abs(a) < Abs(b) {
      OrderedAddends(b, a);
      WinSwaps(a, b);
      assert a + b == b + a;
    } else {
      OrderedAddends(a, b);
    }
  }

  /** So the adder never goes below the truncated exact sum, and never past the next float. */
  lemma {:induction false} WinIsBracketed(a: int, b: int, m: int)
    requires IsFloat(a) && IsFloat(b)
    ensures Abs(Rz(a + b)) <= Abs(WinRz([a, b]))
    ensures IsFloat(m) && Abs(m) > Abs(Rz(a + b)) ==> Abs(WinRz([a, b])) <= Abs(m)
  {
    TwoAddends(a, b);
    if IsFloat(m) && Abs(m) > Abs(Rz(a + b)) { NextFloat(a + b, m); }
  }

  // ---------------------------------------------------------------- MAD and dot products

  /** What x minus its rounding to nearest leaves, when x is first truncated. */
  ghost function Residue(x: int): int {
    if !RoundsAway(x) then 0 else if x > 0 then 0 - Ulp(x) else Ulp(x)
  }

  /** The window of the rounded value holds the truncated value, too. */
  lemma {:induction false} ResidueOfRounding(x: nat)
    requires x > 0 && RoundsAway(x)
    ensures WinRz([Rz(x), 0 - Rn(x)]) == 0 - Ulp(x)
  {
    var k := UlpExp(x);
    RnIsFloat(x);
    RzMagnitude(x);
    WindowOfRounded(x);
    Pow2Multiple(k, k);
    MultipleSum(Rz(x), Ulp(x), k);
    MultipleNegates(Rn(x), k);
    WinExact(Rz(x), 0 - Rn(x), k);
    PowerIsFloat(k);
    RzOfOpposite(Pow2(k));
    assert Rz(x) + (0 - Rn(x)) == 0 - Ulp(x);
  }

  lemma {:induction false} RzOfOpposite(x: int)
    requires IsFloat(x)
    ensures Rz(0 - x) == 0 - x
  {
    RzOfFloat(x);
    RzNegates(x);
  }

  lemma {:induction false} WindowOfRounded(x: nat)
    requires x > 0
    ensures Rn(x) >= 0 && WindowOf(Rn(x)) <= UlpExp(x)
  {
    RoundingIs(x);
    RnIsFloat(x);
    RzMagnitude(x);
    FloorPlusUlp(x);
    if Rn(x) > 0 {
      LeadBounds(Rn(x));
      Pow2Orders(Lead(Rn(x)), Lead(x) + 1);
      Pow2Orders(Lead(Rn(x)), Lead(x) + 2);
      UlpBounds(x);
    }
  }

  lemma {:induction false} WinResidue(x: int)
    ensures WinRz([Rz(x), -Rn(x)]) == Residue(x)
  {
    if !RoundsAway(x) {
      RnOfTruncated(x);
      WinCancels(Rz(x));
    } else if x > 0 {
      ResidueOfRounding(x);
    } else {
      NegativeResidue(x, -x);
    }
  }

  lemma {:induction false} RnOfTruncated(x: int)
    requires !RoundsAway(x)
    ensures Rn(x) == Rz(x)
  {
    RoundingIs(x);
  }

  lemma {:induction false} RnNegates(x: int)
    ensures Rn(-x) == -Rn(x)
  {
    RoundingIs(x);
    RoundingIs(-x);
    RzNegates(x);
  }

  lemma {:induction false} NegativeResidue(x: int, n: nat)
    requires RoundsAway(n) && n == -x
    ensures x < 0 && WinRz([Rz(x), -Rn(x)]) == Ulp(n)
  {
    RnNegates(n);
    var p: int, r: int := Rz(n), Rn(n);
    ResidueOfRounding(n);
    RzNegates(n);
    WinPairNegates(p, 0 - r);
  }

  lemma {:induction false} WinCancels(p: int)
    ensures WinRz([p, -p]) == 0
  {
    WinPair(p, -p);
    TruncNegates(p, WindowOf(Max(Abs(p), Abs(-p))));
    RzMagnitude(0);
  }

  /**
    MAD of a, b and -RN(a * b), for all operands: zero unless rounding to nearest went away from
    zero, and then one ulp of the truncated product, with the sign opposite to the product.
   */
  lemma {:induction false} MadResidue(a: int, b: int)
    ensures Predict(WIN_RZ, [a * b, -Rn(a * b)]) == Residue(a * b)
  {
    TruncatedPair(a * b);
    WinResidue(a * b);
  }

  lemma {:induction false} TruncatedPair(x: int)
    ensures Truncated([x, -Rn(x)]) == [Rz(x), -Rn(x)]
  {
    RnIsFloat(x);
    FloatSign(-Rn(x), Rn(x));
    RzOfFloat(-Rn(x));
  }

  lemma {:induction false} ZeroAddend(xs: seq<int>)
    ensures WinRz(xs + [0]) == WinRz(xs)
  {
    var k := WindowOf(MaxAbs(xs));
    SumSnoc(xs, 0, k);
    ZeroIsMultiple(k);
    TruncExact(0, k);
  }

  /** The same residue through a dot product, (a, RN(a * b), 0) . (b, -1, 0). */
  lemma {:induction false} DotResidue(a: int, b: int)
    ensures Predict(WIN_RZ, [a * b, Rn(a * b) * -1, 0 * 0]) == Residue(a * b)
  {
    TruncatedTriple(a * b);
    ZeroAddend([Rz(a * b), -Rn(a * b)]);
    WinResidue(a * b);
  }

  lemma {:induction false} TruncatedTriple(x: int)
    ensures Truncated([x, Rn(x) * -1, 0 * 0]) == [Rz(x), -Rn(x)] + [0]
  {
    TruncatedPair(x);
    RzMagnitude(0);
    assert Truncated([x, -Rn(x)])[1] == Rz(-Rn(x));
    assert Rn(x) * -1 == -Rn(x);
  }

  // ---------------------------------------------------------------- the grid does not matter

  function Doubled(xs: seq<int>): seq<int> { seq(|xs|, i requires 0 <= i < |xs| => 2 * xs[i]) }

  lemma {:induction false} LeadDoubles(n: nat)
    requires n > 0
    ensures Lead(2 * n) == Lead(n) + 1
  {
    LeadBounds(n);
    LeadIs(2 * n, Lead(n) + 1);
  }

  lemma {:induction false} FloorDoubles(n: nat, k: nat)
    ensures Floor(2 * n, k + 1) == 2 * Floor(n, k)
  {
    FloorIsMultiple(n, k);
    MultipleDoubles(Floor(n, k), k);
    FloorUnique(2 * n, k + 1, 2 * Floor(n, k));
  }

  lemma {:induction false} TruncDoubles(x: int, k: nat)
    ensures Trunc(2 * x, k + 1) == 2 * Trunc(x, k)
  {
    FloorDoubles(Abs(x), k);
  }

  lemma {:induction false} RzScales(x: int)
    ensures Rz(2 * x) == 2 * Rz(x)
  {
    RoundingIs(x);
    RoundingIs(2 * x);
    if x != 0 { LeadDoubles(Abs(x)); }
    TruncDoubles(x, UlpExp(x));
  }

  lemma {:induction false} SumDoubles(xs: seq<int>, k: nat)
    ensures MaxAbs(Doubled(xs)) == 2 * MaxAbs(xs)
    ensures SumTrunc(Doubled(xs), k + 1) == 2 * SumTrunc(xs, k)
    ensures SumTrunc(Doubled(xs), 0) == 2 * SumTrunc(xs, 0)
  {
    if xs != [] {
      var init, x := xs[..|xs| - 1], xs[|xs| - 1];
      SumDoubles(init, k);
      assert Doubled(xs) == Doubled(init) + [2 * x];
      SumSnoc(Doubled(init), 2 * x, k + 1);
      SumSnoc(Doubled(init), 2 * x, 0);
      TruncDoubles(x, k);
    }
  }

  /** Halving the unit of the grid doubles every value, and nothing else changes. */
  lemma {:induction false} WinScales(xs: seq<int>)
    ensures WinRz(Doubled(xs)) == 2 * WinRz(xs)
  {
    var n := MaxAbs(xs);
    var k := WindowOf(n);
    SumDoubles(xs, k);
    if n > 0 { LeadDoubles(n); }
    RzScales(SumTrunc(xs, k));
    assert WindowOf(2 * n) == k + 1 || (k == 0 && WindowOf(2 * n) == 0);
  }

  /** Doubling x keeps its place relative to its neighbours; with no bits below the unit there is nothing to round. */
  lemma {:induction false} RoundsAwayScales(x: int)
    ensures RoundsAway(2 * x) <==> RoundsAway(x)
    ensures RoundsAway(x) ==> Ulp(2 * x) == 2 * Ulp(x)
  {
    var n, k := Abs(x), UlpExp(x);
    if x != 0 { LeadDoubles(n); }
    FloorDoubles(n, k);
    MultipleDoubles(Floor(n, k), k + 1);
    if UlpExp(2 * x) != k + 1 || k == 0 {
      WholeIsExact(n, k);
      WholeIsExact(2 * n, UlpExp(2 * x));
    }
  }

  /** Nothing is below the unit, and below twice the unit nothing of an even number. */
  lemma {:induction false} WholeIsExact(n: nat, k: nat)
    ensures k == 0 ==> Floor(n, k) == n && Pow2(k) == 1
    ensures k == 1 && n % 2 == 0 ==> Floor(n, k) == n
  {
    if k == 0 {
      assert IsTimes(n, n, 0);
      FloorExact(n, 0);
    } else if k == 1 && n % 2 == 0 {
      assert IsTimes(n, n / 2, 1);
      FloorExact(n, 1);
    }
  }

  lemma {:induction false} RnScales(x: int)
    ensures Rn(2 * x) == 2 * Rn(x)
  {
    RoundingIs(x);
    RoundingIs(2 * x);
    RzScales(x);
    RoundsAwayScales(x);
  }

  lemma {:induction false} ListsDouble(xs: seq<int>)
    ensures Truncated(Doubled(xs)) == Doubled(Truncated(xs)) && Nearest(Doubled(xs)) == Doubled(Nearest(xs))
  {
    forall i | 0 <= i < |xs| ensures Rz(2 * xs[i]) == 2 * Rz(xs[i]) && Rn(2 * xs[i]) == 2 * Rn(xs[i]) {
      RzScales(xs[i]);
      RnScales(xs[i]);
    }
  }

  lemma {:induction false} TotalDoubles(xs: seq<int>)
    ensures Sum(Doubled(xs)) == 2 * Sum(xs)
  {
    if xs != [] {
      var init := xs[..|xs| - 1];
      TotalDoubles(init);
      assert Doubled(xs)[..|xs| - 1] == Doubled(init);
    }
  }

  lemma {:induction false} InOrderDoubles(xs: seq<int>)
    ensures InOrder(Doubled(xs)) == 2 * InOrder(xs)
  {
    if xs != [] {
      var init, x := xs[..|xs| - 1], xs[|xs| - 1];
      InOrderDoubles(init);
      assert Doubled(xs)[..|xs| - 1] == Doubled(init);
      RzScales(x);
      RzScales(InOrder(init) + Rz(x));
      assert 2 * InOrder(init) + 2 * Rz(x) == 2 * (InOrder(init) + Rz(x));
    }
  }

  /** So does every other model. */
  lemma {:induction false} PredictScales(m: Model, xs: seq<int>)
    ensures Predict(m, Doubled(xs)) == 2 * Predict(m, xs)
  {
    ListsDouble(xs);
    match m
    case RN => TotalDoubles(xs); RnScales(Sum(xs));
    case RZ => TotalDoubles(xs); RzScales(Sum(xs));
    case RN_RN => TotalDoubles(Nearest(xs)); RnScales(Sum(Nearest(xs)));
    case RZ_RZ => TotalDoubles(Truncated(xs)); RzScales(Sum(Truncated(xs)));
    case TP_RZ => TotalDoubles(Truncated(xs)); RzScales(Sum(Truncated(xs)));
    case SEQ_RZ => InOrderDoubles(xs);
    case WIN_RZ => WinScales(Truncated(xs));
  }

  lemma {:induction false} RoundingScales(x: int, j: nat)
    ensures Rn(Times(x, j)) == Times(Rn(x), j) && Rz(Times(x, j)) == Times(Rz(x), j)
  {
    if j > 0 {
      RoundingScales(x, j - 1);
      RnScales(Times(x, j - 1));
      RzScales(Times(x, j - 1));
    }
  }

  /** No float is nearer to x than Rn(x), on however fine a grid the float lies. */
  lemma {:induction false} RnIsNearestOfAll(x: int, m: int, j: nat)
    requires IsFloat(m)
    ensures Abs(Times(x, j) - Times(Rn(x), j)) <= Abs(Times(x, j) - m)
  {
    RoundingScales(x, j);
    RnIsNearest(Times(x, j), m);
  }

  /** ... and none that is not beyond x is larger than Rz(x). */
  lemma {:induction false} RzIsLargestOfAll(x: int, m: int, j: nat)
    requires IsFloat(m) && Abs(m) <= Abs(Times(x, j))
    ensures Abs(m) <= Abs(Times(Rz(x), j))
  {
    RoundingScales(x, j);
    RzIsLargest(Times(x, j), m);
  }
}
