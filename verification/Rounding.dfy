/**
  The rounding models of src/vsh_tests/vsh_rounding_common.h.

  A binary float with a 24-bit significand and an unbounded exponent range (no overflow, underflow
  or denormals) is an integer number of units of some power of two, a "grid" fine enough for every
  operand and every aligned addend.  The models are functions on such integers; `WinScales` says
  that the grid does not matter.
 */
module Rounding {
  import opened Power
  import opened VshRounding

  // ---------------------------------------------------------------- floats

  /** A significand of at most 24 bits times 2^k. */
  ghost predicate IsFloat(x: int) { exists k: nat :: Multiple(Abs(x), k) && Abs(x) < Pow2(24 + k) }

  /** The exponent of the last of the 24 bits that start at the leading one. */
  ghost function UlpExp(x: int): nat { if x == 0 then 0 else Max(0, Lead(Abs(x)) - 23) }

  /** The distance between neighbouring floats at x, away from zero. */
  ghost function Ulp(x: int): nat { Pow2(UlpExp(x)) }

  /**
    Rz and Rn are defined by what holds for the exponent k of x's last place; going through IsUlpExp keeps
    the definitions folded until RoundingIs asks for them.
   */
  ghost predicate IsUlpExp(x: int, k: nat) { k == UlpExp(x) }

  /** "rz": truncation toward zero. */
  ghost function Rz(x: int): int {
    RzExists(x);
    var z: int :| Truncates(x, z);
    z
  }

  /** z is x without the bits below its last place 2^k. */
  ghost predicate Truncates(x: int, z: int) {
    forall k: nat {:trigger IsUlpExp(x, k)} :: IsUlpExp(x, k) ==> z == Trunc(x, k)
  }

  lemma {:induction false} RzExists(x: int)
    ensures exists z: int :: Truncates(x, z)
  {
    assert Truncates(x, Trunc(x, UlpExp(x)));
  }

  /** Whether round-to-nearest, ties to even, goes beyond the truncated magnitude. */
  ghost predicate RoundsAway(x: int) {
    var r := Abs(x) - Floor(Abs(x), UlpExp(x));
    2 * r > Ulp(x) || (2 * r == Ulp(x) && !Multiple(Floor(Abs(x), UlpExp(x)), UlpExp(x) + 1))
  }

  /** "rn": rounding to nearest, ties to even. */
  ghost function Rn(x: int): int {
    RnExists(x);
    var z: int :| RoundsTo(x, z);
    z
  }

  /** z is one of x's two neighbours, as RoundsAway says. */
  ghost predicate RoundsTo(x: int, z: int) {
    forall k: nat {:trigger IsUlpExp(x, k)} :: IsUlpExp(x, k) ==>
      z == if !RoundsAway(x) then Trunc(x, k) else if x < 0 then Trunc(x, k) - Pow2(k) else Trunc(x, k) + Pow2(k)
  }

  lemma {:induction false} RnExists(x: int)
    ensures exists z: int :: RoundsTo(x, z)
  {
    var t, u := Trunc(x, UlpExp(x)), Ulp(x);
    assert RoundsTo(x, if !RoundsAway(x) then t else if x < 0 then t - u else t + u);
  }

  /** The definitions, applied to the exponent of x. */
  lemma {:induction false} RoundingIs(x: int)
    ensures Rz(x) == Trunc(x, UlpExp(x))
    ensures Rn(x) == if !RoundsAway(x) then Rz(x) else if x < 0 then Rz(x) - Ulp(x) else Rz(x) + Ulp(x)
  {
    assert IsUlpExp(x, UlpExp(x));
  }

  lemma {:induction false} UlpBounds(n: nat)
    requires n > 0
    ensures UlpExp(n) <= Lead(n) < 24 + UlpExp(n)
    ensures n < Pow2(24 + UlpExp(n))
  {
    LeadBounds(n);
    Pow2Grows(Lead(n) + 1, 24 + UlpExp(n));
  }

  lemma {:induction false} UlpGrows(m: int, n: int)
    requires Abs(m) <= Abs(n)
    ensures UlpExp(m) <= UlpExp(n)
  {
    if m != 0 { LeadGrows(Abs(m), Abs(n)); }
  }

  lemma {:induction false} FloatIsMultiple(x: int)
    requires IsFloat(x)
    ensures Multiple(x, UlpExp(x))
  {
    var n := Abs(x);
    var k: nat :| Multiple(n, k) && n < Pow2(24 + k);
    if x != 0 {
      LeadBounds(n);
      Pow2Orders(Lead(n), 24 + k);
      MultipleFiner(n, UlpExp(x), k);
    } else {
      ZeroIsMultiple(0);
    }
    MultipleAbs(x, UlpExp(x));
  }

  lemma {:induction false} MultipleIsFloat(x: int)
    requires Multiple(x, UlpExp(x))
    ensures IsFloat(x)
  {
    MultipleAbs(x, UlpExp(x));
    if x != 0 {
      UlpBounds(Abs(x));
    } else {
      assert Pow2(24 + 0) >= 1;
    }
    assert Multiple(Abs(x), UlpExp(x)) && Abs(x) < Pow2(24 + UlpExp(x));
  }

  /** Being a float is being a multiple of one's own ulp. */
  lemma {:induction false} FloatIff(x: int)
    ensures IsFloat(x) <==> Multiple(x, UlpExp(x))
  {
    if IsFloat(x) { FloatIsMultiple(x); }
    if Multiple(x, UlpExp(x)) { MultipleIsFloat(x); }
  }

  lemma {:induction false} FloatSign(x: int, y: int)
    requires Abs(x) == Abs(y)
    ensures IsFloat(x) <==> IsFloat(y)
  {
  }

  // ---------------------------------------------------------------- truncation and nearest

  lemma {:induction false} RzMagnitude(x: int)
    ensures Abs(Rz(x)) == Floor(Abs(x), UlpExp(x)) && UlpExp(Rz(x)) == UlpExp(x)
    ensures Multiple(Rz(x), UlpExp(x))
    ensures (x >= 0 ==> Rz(x) >= 0) && (x <= 0 ==> Rz(x) <= 0)
  {
    RoundingIs(x);
    TruncIsMultiple(x, UlpExp(x));
    if x != 0 {
      UlpBounds(Abs(x));
      FloorKeepsLead(Abs(x), UlpExp(x));
    }
  }

  lemma {:induction false} RzIsFloat(x: int)
    ensures IsFloat(Rz(x)) && Abs(Rz(x)) <= Abs(x) < Abs(Rz(x)) + Ulp(x)
  {
    RzMagnitude(x);
    FloatIff(Rz(x));
  }

  /** Rz(x) is the float of largest magnitude that is not beyond x. */
  lemma {:induction false} RzIsLargest(x: int, m: int)
    requires IsFloat(m) && Abs(m) <= Abs(x)
    ensures Abs(m) <= Abs(Rz(x))
  {
    RzMagnitude(x);
    if m != 0 {
      FloatIsMultiple(m);
      MultipleAbs(m, UlpExp(m));
      UlpBounds(Abs(x));
      LeadGrows(Abs(m), Abs(x));
      if Lead(Abs(m)) == Lead(Abs(x)) {
        FloorLargest(Abs(x), UlpExp(x), Abs(m));
      } else {
        FloorKeepsLead(Abs(x), UlpExp(x));
        LeadBounds(Abs(m));
        Pow2Orders(Lead(Abs(m)), Lead(Abs(x)));
      }
    }
  }

  /** Rz(x) + Ulp(x), away from zero, is the next float: there is none in between. */
  lemma {:induction false} NextFloat(x: int, m: int)
    requires IsFloat(m) && Abs(m) > Abs(Rz(x))
    ensures Abs(m) >= Abs(Rz(x)) + Ulp(x)
  {
    RzMagnitude(x);
    FloatIsMultiple(m);
    UlpGrows(Rz(x), m);
    MultipleFiner(m, UlpExp(x), UlpExp(m));
    MultipleAbs(m, UlpExp(x));
    MultipleAbs(Rz(x), UlpExp(x));
    if Abs(m) < Abs(Rz(x)) + Ulp(x) {
      MultiplesApart(Abs(m), Abs(Rz(x)), UlpExp(x));
    }
  }

  lemma {:induction false} PowerIsFloat(e: nat)
    ensures IsFloat(Pow2(e))
  {
    Pow2Multiple(e, e);
    Pow2Orders(e, 24 + e);
    assert Multiple(Abs(Pow2(e)), e) && Abs(Pow2(e)) < Pow2(24 + e);
  }

  /** One ulp beyond a truncated value is a float again, even across a power of two. */
  lemma {:induction false} FloorPlusUlp(n: nat)
    requires n > 0
    ensures IsFloat(Floor(n, UlpExp(n)) + Ulp(n))
    ensures Floor(n, UlpExp(n)) + Ulp(n) <= 2 * Pow2(Lead(n))
  {
    var k, next, top := UlpExp(n), Floor(n, UlpExp(n)) + Ulp(n), Lead(n) + 1;
    UlpBounds(n);
    LeadBounds(n);
    NextMultiple(n, k, top);
    if next == Pow2(top) {
      PowerIsFloat(top);
    } else {
      Pow2Grows(top, 24 + k);
      assert Multiple(Abs(next), k) && Abs(next) < Pow2(24 + k);
    }
  }

  lemma {:induction false} NextMultiple(n: nat, k: nat, top: nat)
    requires n < Pow2(top) && k <= top
    ensures Multiple(Floor(n, k) + Pow2(k), k) && Floor(n, k) + Pow2(k) <= Pow2(top)
  {
    FloorIsMultiple(n, k);
    Pow2Multiple(k, k);
    MultipleSum(Floor(n, k), Pow2(k), k);
    Pow2Multiple(k, top);
    MultiplesApart(Floor(n, k) + Pow2(k), Pow2(top), k);
  }

  /** Rn(x) is Rz(x) or the float after it. */
  lemma {:induction false} RnIsFloat(x: int)
    ensures IsFloat(Rn(x)) && Abs(Rn(x)) == Abs(Rz(x)) + if RoundsAway(x) then Ulp(x) else 0
  {
    RoundingIs(x);
    RzMagnitude(x);
    RzIsFloat(x);
    if x == 0 {
      FloatSign(Rn(x), Rz(x));
    } else {
      FloorPlusUlp(Abs(x));
      FloatSign(Rn(x), if RoundsAway(x) then Floor(Abs(x), UlpExp(x)) + Ulp(x) else Rz(x));
    }
  }

  /** ... and no float is nearer to x. */
  lemma {:induction false} RnIsNearest(x: int, m: int)
    requires IsFloat(m)
    ensures Abs(x - Rn(x)) <= Abs(x - m)
  {
    RoundingIs(x);
    RnIsFloat(x);
    RzMagnitude(x);
    RzIsFloat(x);
    if Abs(m) > Abs(Rz(x)) { NextFloat(x, m); }
  }

  /** Of two neighbouring multiples of 2^k one is a multiple of 2^(k + 1). */
  lemma {:induction false} OddThenEven(m: nat, k: nat)
    requires Multiple(m, k) && !Multiple(m, k + 1)
    ensures Multiple(m + Pow2(k), k + 1)
  {
    var q :| IsTimes(m, q, k);
    TimesOne(k);
    TimesAdds(q, 1, k);
    TwiceTimes(q, k);
    TwiceTimes(q + 1, k);
  }

  lemma {:induction false} TwiceTimes(q: int, k: nat)
    ensures q % 2 == 0 ==> Multiple(Times(q, k), k + 1)
  {
    var h := q / 2;
    TimesTimes(h, 1, k);
    assert Times(h, 1) == 2 * h && 1 + k == k + 1;
    assert IsTimes(Times(Times(h, 1), k), h, k + 1);
  }

  /** Half-way cases go to the even significand. */
  lemma {:induction false} RnTiesToEven(x: int)
    requires 2 * (Abs(x) - Abs(Rz(x))) == Ulp(x)
    ensures Multiple(Rn(x), UlpExp(x) + 1)
  {
    RoundingIs(x);
    RnIsFloat(x);
    RzMagnitude(x);
    MultipleAbs(Rz(x), UlpExp(x));
    if RoundsAway(x) { OddThenEven(Abs(Rz(x)), UlpExp(x)); }
    MultipleAbs(Rn(x), UlpExp(x) + 1);
  }

  // ---------------------------------------------------------------- the window adder

  function Sum(xs: seq<int>): int { if xs == [] then 0 else Sum(xs[..|xs| - 1]) + xs[|xs| - 1] }

  function MaxAbs(xs: seq<int>): nat {
    if xs == [] then 0 else Max(MaxAbs(xs[..|xs| - 1]), Abs(xs[|xs| - 1]))
  }

  /** The exponent of the last of the 29 bits that start at n's leading one. */
  ghost function WindowOf(n: nat): nat { if n == 0 then 0 else Max(0, Lead(n) - 28) }

  /** Each addend truncated to the window of the largest. */
  ghost function SumTrunc(xs: seq<int>, k: nat): int {
    if xs == [] then 0 else SumTrunc(xs[..|xs| - 1], k) + Trunc(xs[|xs| - 1], k)
  }

  /** "win_rz": align with a 29-bit window and no sticky bit, add exactly, truncate. */
  ghost function WinRz(xs: seq<int>): int { Rz(SumTrunc(xs, WindowOf(MaxAbs(xs)))) }

  lemma {:induction false} SumSnoc(xs: seq<int>, x: int, k: nat)
    ensures Sum(xs + [x]) == Sum(xs) + x
    ensures MaxAbs(xs + [x]) == Max(MaxAbs(xs), Abs(x))
    ensures SumTrunc(xs + [x], k) == SumTrunc(xs, k) + Trunc(x, k)
  {
    assert (xs + [x])[..|xs|] == xs;
  }

  lemma {:induction false} SumAppend(a: seq<int>, b: seq<int>, k: nat)
    ensures Sum(a + b) == Sum(a) + Sum(b)
    ensures MaxAbs(a + b) == Max(MaxAbs(a), MaxAbs(b))
    ensures SumTrunc(a + b, k) == SumTrunc(a, k) + SumTrunc(b, k)
  {
    if b == [] {
      assert a + b == a;
    } else {
      var init, x := b[..|b| - 1], b[|b| - 1];
      SumAppend(a, init, k);
      SumSnoc(a + init, x, k);
      SumSnoc(init, x, k);
      assert a + b == a + init + [x] && b == init + [x];
    }
  }

  lemma {:induction false} SumOne(x: int, k: nat)
    ensures Sum([x]) == x && MaxAbs([x]) == Abs(x) && SumTrunc([x], k) == Trunc(x, k)
  {
    SumSnoc([], x, k);
    assert [] + [x] == [x];
  }

  lemma {:induction false} SumTwo(a: int, b: int, k: nat)
    ensures Sum([a, b]) == a + b && MaxAbs([a, b]) == Max(Abs(a), Abs(b))
    ensures SumTrunc([a, b], k) == Trunc(a, k) + Trunc(b, k)
  {
    SumOne(a, k);
    SumSnoc([a], b, k);
    assert [a] + [b] == [a, b];
  }

  /** Taking one addend out of the middle. */
  lemma {:induction false} SumWithout(a: seq<int>, x: int, b: seq<int>, k: nat)
    ensures Sum(a + [x] + b) == Sum(a + b) + x
    ensures MaxAbs(a + [x] + b) == Max(MaxAbs(a + b), Abs(x))
    ensures SumTrunc(a + [x] + b, k) == SumTrunc(a + b, k) + Trunc(x, k)
    ensures multiset(a + b) == multiset(a + [x] + b) - multiset{x}
  {
    SumSnoc(a, x, k);
    SumAppend(a + [x], b, k);
    SumAppend(a, b, k);
  }

  lemma {:induction false} Located(ys: seq<int>, x: int) returns (a: seq<int>, b: seq<int>)
    requires x in multiset(ys)
    ensures ys == a + [x] + b
  {
    var i :| 0 <= i < |ys| && ys[i] == x;
    a, b := ys[..i], ys[i + 1..];
  }

  /** The adder does not depend on the order of the addends. */
  lemma {:induction false} SumPermutes(xs: seq<int>, ys: seq<int>, k: nat)
    requires multiset(xs) == multiset(ys)
    ensures Sum(xs) == Sum(ys) && MaxAbs(xs) == MaxAbs(ys) && SumTrunc(xs, k) == SumTrunc(ys, k)
    decreases |xs|
  {
    if xs == [] {
      assert |ys| == |multiset(ys)| == |multiset(xs)| == 0;
    } else {
      var init, x := xs[..|xs| - 1], xs[|xs| - 1];
      assert xs == init + [x] + [];
      SumWithout(init, x, [], k);
      assert xs[|xs| - 1] in multiset(xs);
      var a, b := Located(ys, x);
      SumWithout(a, x, b, k);
      assert multiset(init + []) == multiset(xs) - multiset{x};
      SumPermutes(init + [], a + b, k);
    }
  }

  lemma {:induction false} WinPermutes(xs: seq<int>, ys: seq<int>)
    requires multiset(xs) == multiset(ys)
    ensures WinRz(xs) == WinRz(ys)
  {
    SumPermutes(xs, ys, 0);
    SumPermutes(xs, ys, WindowOf(MaxAbs(xs)));
  }

  function Negated(xs: seq<int>): seq<int> { seq(|xs|, i requires 0 <= i < |xs| => -xs[i]) }

  lemma {:induction false} SumNegates(xs: seq<int>, k: nat)
    ensures Sum(Negated(xs)) == -Sum(xs) && MaxAbs(Negated(xs)) == MaxAbs(xs)
    ensures SumTrunc(Negated(xs), k) == -SumTrunc(xs, k)
  {
    if xs != [] {
      var init, x := xs[..|xs| - 1], xs[|xs| - 1];
      SumNegates(init, k);
      SumSnoc(Negated(init), -x, k);
      TruncNegates(x, k);
      assert Negated(xs) == Negated(init) + [-x];
    }
  }

  lemma {:induction false} RzNegates(x: int)
    ensures Rz(-x) == -Rz(x)
  {
    RoundingIs(x);
    RoundingIs(-x);
    TruncNegates(x, UlpExp(x));
  }

  /** Negating every addend negates the result. */
  lemma {:induction false} WinNegates(xs: seq<int>)
    ensures WinRz(Negated(xs)) == -WinRz(xs)
  {
    var k := WindowOf(MaxAbs(xs));
    SumNegates(xs, k);
    RzNegates(SumTrunc(xs, k));
  }

  // ---------------------------------------------------------------- alignment error

  /** The largest addend, being a float, is not changed by the alignment. */
  lemma {:induction false} LargestIsExact(x: int)
    requires IsFloat(x)
    ensures Trunc(x, WindowOf(Abs(x))) == x
  {
    FloatIsMultiple(x);
    MultipleFiner(x, WindowOf(Abs(x)), UlpExp(x));
    TruncExact(x, WindowOf(Abs(x)));
  }

  lemma {:induction false} TruncError(x: int, k: nat)
    ensures Abs(x - Trunc(x, k)) <= Pow2(k) - 1
  {
  }

  lemma {:induction false} SumError(xs: seq<int>, k: nat, d: nat)
    requires d == Pow2(k) - 1
    ensures Abs(Sum(xs) - SumTrunc(xs, k)) <= |xs| * d
  {
    if xs != [] {
      SumError(xs[..|xs| - 1], k, d);
      TruncError(xs[|xs| - 1], k);
      assert |xs| * d == (|xs| - 1) * d + d;
    }
  }

  /** An addend that is exact saves its share of the error. */
  lemma {:induction false} SumErrorBut(xs: seq<int>, k: nat, d: nat, i: nat)
    requires d == Pow2(k) - 1 && i < |xs| && Trunc(xs[i], k) == xs[i]
    ensures Abs(Sum(xs) - SumTrunc(xs, k)) <= (|xs| - 1) * d
  {
    var init, x := xs[..|xs| - 1], xs[|xs| - 1];
    if i == |xs| - 1 {
      SumError(init, k, d);
    } else {
      SumErrorBut(init, k, d, i);
      TruncError(x, k);
      assert (|xs| - 1) * d == (|init| - 1) * d + d;
    }
  }

  lemma {:induction false} MaxAbsIsReached(xs: seq<int>) returns (i: nat)
    requires xs != []
    ensures i < |xs| && Abs(xs[i]) == MaxAbs(xs)
    ensures forall j :: 0 <= j < |xs| ==> Abs(xs[j]) <= MaxAbs(xs)
  {
    if |xs| == 1 {
      SumOne(xs[0], 0);
      assert xs == [xs[0]];
      return 0;
    }
    i := MaxAbsIsReached(xs[..|xs| - 1]);
    if Abs(xs[|xs| - 1]) > MaxAbs(xs[..|xs| - 1]) { i := |xs| - 1; }
  }

  /**
    The error of the n-addend adder on floats: at most n - 1 units below 2^(e - 28) from the
    alignment, where e is the leading bit of the largest addend, and then a truncation by less than
    one ulp of the aligned sum.
   */
  lemma {:induction false} WinError(xs: seq<int>)
    requires xs != [] && forall i :: 0 <= i < |xs| ==> IsFloat(xs[i])
    ensures var k := WindowOf(MaxAbs(xs));
            var aligned := SumTrunc(xs, k);
            Abs(Sum(xs) - aligned) <= (|xs| - 1) * (Pow2(k) - 1)
            && Abs(WinRz(xs)) <= Abs(aligned) < Abs(WinRz(xs)) + Ulp(aligned)
            && IsFloat(WinRz(xs))
  {
    var i := MaxAbsIsReached(xs);
    LargestIsExact(xs[i]);
    SumErrorBut(xs, WindowOf(MaxAbs(xs)), Pow2(WindowOf(MaxAbs(xs))) - 1, i);
    RzIsFloat(SumTrunc(xs, WindowOf(MaxAbs(xs))));
  }

  /** An addend below the window of a cancelling pair is lost. */
  lemma {:induction false} CancellationLosesSmall(b: int, s: int)
    requires b != 0 && Abs(s) < Pow2(WindowOf(Abs(b)))
    ensures WinRz([b, -b, s]) == 0
  {
    var k := WindowOf(Abs(b));
    LeadBounds(Abs(b));
    Pow2Grows(k, Lead(Abs(b)));
    SumTwo(b, -b, k);
    SumSnoc([b, -b], s, k);
    assert [b, -b] + [s] == [b, -b, s];
    TruncNegates(b, k);
    FloorZero(Abs(s), k);
    RzMagnitude(0);
  }

  // ---------------------------------------------------------------- the models of the tests

  ghost function Truncated(xs: seq<int>): seq<int> { seq(|xs|, i requires 0 <= i < |xs| => Rz(xs[i])) }

  ghost function Nearest(xs: seq<int>): seq<int> { seq(|xs|, i requires 0 <= i < |xs| => Rn(xs[i])) }

  /** Each product and each partial sum truncated, in order. */
  ghost function InOrder(xs: seq<int>): int {
    if xs == [] then 0 else Rz(InOrder(xs[..|xs| - 1]) + Rz(xs[|xs| - 1]))
  }

  /** What a model predicts for an instruction that adds up `products`, which are exact. */
  ghost function Predict(m: Model, products: seq<int>): int {
    match m
    case RN => Rn(Sum(products))
    case RZ => Rz(Sum(products))
    case RN_RN => Rn(Sum(Nearest(products)))
    case RZ_RZ => Rz(Sum(Truncated(products)))
    case TP_RZ => Rz(Sum(Truncated(products)))
    case SEQ_RZ => InOrder(products)
    case WIN_RZ => WinRz(Truncated(products))
  }
}
