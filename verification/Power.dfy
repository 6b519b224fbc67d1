/** Powers of two, leading bits and truncation of low bits, on integers. */
module Power {

  function Abs(x: int): nat { if x < 0 then -x else x }

  function Max(a: int, b: int): int { if a < b then b else a }

  function Pow2(n: nat): (p: nat)
    ensures p >= 1
  {
    if n == 0 then 1 else 2 * Pow2(n - 1)
  }

  /** The position of the leading bit. */
  ghost function Lead(n: nat): nat
    requires n > 0
  {
    LeadExists(n);
    var k: nat :| Pow2(k) <= n < 2 * Pow2(k);
    k
  }

  lemma {:induction false} LeadExists(n: nat)
    requires n > 0
    ensures exists k: nat :: Pow2(k) <= n < 2 * Pow2(k)
  {
    if n == 1 {
      assert Pow2(0) <= n < 2 * Pow2(0);
    } else {
      LeadExists(n / 2);
      var k: nat :| Pow2(k) <= n / 2 < 2 * Pow2(k);
      assert Pow2(k + 1) <= n < 2 * Pow2(k + 1);
    }
  }

  lemma {:induction false} Pow2Grows(a: nat, b: nat)
    requires a <= b
    ensures Pow2(a) <= Pow2(b)
  {
    if a < b { Pow2Grows(a, b - 1); }
  }

  lemma {:induction false} Pow2Orders(a: nat, b: nat)
    ensures a < b ==> 2 * Pow2(a) <= Pow2(b)
    ensures b < a ==> 2 * Pow2(b) <= Pow2(a)
  {
    if a < b { Pow2Grows(a + 1, b); }
    if b < a { Pow2Grows(b + 1, a); }
  }

  lemma {:induction false} LeadBounds(n: nat)
    requires n > 0
    ensures Pow2(Lead(n)) <= n < 2 * Pow2(Lead(n))
  {
  }

  /** The bounds determine the leading bit. */
  lemma {:induction false} LeadIs(n: nat, k: nat)
    requires Pow2(k) <= n < 2 * Pow2(k)
    ensures Lead(n) == k
  {
    LeadBounds(n);
    Pow2Orders(Lead(n), k);
  }

  lemma {:induction false} LeadGrows(m: nat, n: nat)
    requires 0 < m <= n
    ensures Lead(m) <= Lead(n)
  {
    LeadBounds(m);
    LeadBounds(n);
    Pow2Orders(Lead(n), Lead(m));
  }

  // ---------------------------------------------------------------- multiples of 2^k

  /** q * 2^k. */
  function Times(q: int, k: nat): int
    decreases k
  {
    if k == 0 then q else 2 * Times(q, k - 1)
  }

  /** The k low bits of n are zero. */
  ghost predicate Multiple(n: int, k: nat) { exists q: int :: IsTimes(n, q, k) }

  predicate IsTimes(n: int, q: int, k: nat) { n == Times(q, k) }

  lemma {:induction false} TimesAdds(a: int, b: int, k: nat)
    ensures Times(a + b, k) == Times(a, k) + Times(b, k)
    ensures Times(a - b, k) == Times(a, k) - Times(b, k)
    decreases k
  {
    if k > 0 { TimesAdds(a, b, k - 1); }
  }

  lemma {:induction false} TimesOne(k: nat)
    ensures Times(1, k) == Pow2(k) && Times(0, k) == 0
  {
    if k > 0 { TimesOne(k - 1); }
  }

  lemma {:induction false} TimesTimes(q: int, j: nat, k: nat)
    ensures Times(Times(q, j), k) == Times(q, j + k)
    decreases k
  {
    if k > 0 {
      TimesTimes(q, j, k - 1);
      assert Times(q, j + k) == 2 * Times(q, j + (k - 1));
    }
  }

  lemma {:induction false} TimesOrders(a: int, b: int, k: nat)
    requires a < b
    ensures Times(a, k) + Pow2(k) <= Times(b, k)
    decreases k
  {
    if k > 0 { TimesOrders(a, b, k - 1); }
  }

  lemma {:induction false} MultipleSum(a: int, b: int, k: nat)
    requires Multiple(a, k) && Multiple(b, k)
    ensures Multiple(a + b, k) && Multiple(a - b, k)
  {
    var q, r :| IsTimes(a, q, k) && IsTimes(b, r, k);
    TimesAdds(q, r, k);
    assert IsTimes(a + b, q + r, k) && IsTimes(a - b, q - r, k);
  }

  lemma {:induction false} ZeroIsMultiple(k: nat)
    ensures Multiple(0, k)
  {
    TimesOne(k);
    assert IsTimes(0, 0, k);
  }

  lemma {:induction false} MultipleNegates(n: int, k: nat)
    ensures Multiple(-n, k) <==> Multiple(n, k)
  {
    ZeroIsMultiple(k);
    if Multiple(n, k) { MultipleSum(0, n, k); }
    if Multiple(-n, k) { MultipleSum(0, -n, k); }
  }

  lemma {:induction false} MultipleAbs(n: int, k: nat)
    ensures Multiple(Abs(n), k) <==> Multiple(n, k)
  {
    MultipleNegates(n, k);
  }

  lemma {:induction false} MultipleFiner(n: int, j: nat, k: nat)
    requires j <= k && Multiple(n, k)
    ensures Multiple(n, j)
  {
    var q :| IsTimes(n, q, k);
    TimesTimes(q, k - j, j);
    assert IsTimes(n, Times(q, k - j), j);
  }

  lemma {:induction false} Pow2Multiple(j: nat, k: nat)
    requires j <= k
    ensures Multiple(Pow2(k), j)
  {
    TimesOne(k);
    assert IsTimes(Pow2(k), 1, k);
    MultipleFiner(Pow2(k), j, k);
  }

  /** Multiples of 2^k less than 2^k apart are equal. */
  lemma {:induction false} MultiplesApart(a: int, b: int, k: nat)
    requires Multiple(a, k) && Multiple(b, k) && a < b + Pow2(k)
    ensures a <= b
  {
    var q, r :| IsTimes(a, q, k) && IsTimes(b, r, k);
    if r < q { TimesOrders(r, q, k); }
    if q < r { TimesOrders(q, r, k); }
  }

  lemma {:induction false} MultipleDoubles(n: int, k: nat)
    ensures Multiple(2 * n, k + 1) <==> Multiple(n, k)
  {
    if Multiple(n, k) {
      var q :| IsTimes(n, q, k);
      assert IsTimes(2 * n, q, k + 1);
    }
    if Multiple(2 * n, k + 1) {
      var q :| IsTimes(2 * n, q, k + 1);
      assert IsTimes(n, q, k);
    }
  }

  // ---------------------------------------------------------------- dropping the low bits

  /** n with its k low bits cleared: the largest multiple of 2^k that is at most n. */
  ghost function Floor(n: nat, k: nat): (m: nat)
    ensures m <= n < m + Pow2(k)
  {
    FloorExists(n, k);
    var m: nat :| Multiple(m, k) && m <= n < m + Pow2(k);
    m
  }

  lemma {:induction false} FloorExists(n: nat, k: nat)
    ensures exists m: nat :: Multiple(m, k) && m <= n < m + Pow2(k)
    decreases k
  {
    if k == 0 {
      assert IsTimes(n, n, k);
      assert Multiple(n, k) && n <= n < n + Pow2(k);
    } else {
      FloorExists(n / 2, k - 1);
      var m: nat :| Multiple(m, k - 1) && m <= n / 2 < m + Pow2(k - 1);
      MultipleDoubles(m, k - 1);
      assert Multiple(2 * m, k) && 2 * m <= n < 2 * m + Pow2(k);
    }
  }

  lemma {:induction false} FloorIsMultiple(n: nat, k: nat)
    ensures Multiple(Floor(n, k), k)
  {
  }

  lemma {:induction false} FloorUnique(n: nat, k: nat, m: nat)
    requires Multiple(m, k) && m <= n < m + Pow2(k)
    ensures Floor(n, k) == m
  {
    FloorIsMultiple(n, k);
    MultiplesApart(Floor(n, k), m, k);
    MultiplesApart(m, Floor(n, k), k);
  }

  lemma {:induction false} FloorLargest(n: nat, k: nat, m: nat)
    requires Multiple(m, k) && m <= n
    ensures m <= Floor(n, k)
  {
    FloorIsMultiple(n, k);
    MultiplesApart(m, Floor(n, k), k);
  }

  lemma {:induction false} FloorExact(n: nat, k: nat)
    requires Multiple(n, k)
    ensures Floor(n, k) == n
  {
    FloorUnique(n, k, n);
  }

  /** Truncation toward zero to a multiple of 2^k. */
  ghost function Trunc(x: int, k: nat): int { if x >= 0 then Floor(x, k) else 0 - Floor(-x, k) }

  lemma {:induction false} TruncNegates(x: int, k: nat)
    ensures Trunc(-x, k) == -Trunc(x, k)
  {
    ZeroIsMultiple(k);
    FloorExact(0, k);
  }

  lemma {:induction false} TruncIsMultiple(x: int, k: nat)
    ensures Multiple(Trunc(x, k), k)
    ensures Abs(Trunc(x, k)) == Floor(Abs(x), k)
  {
    FloorIsMultiple(Abs(x), k);
    MultipleNegates(Floor(Abs(x), k), k);
  }

  lemma {:induction false} TruncExact(x: int, k: nat)
    requires Multiple(x, k)
    ensures Trunc(x, k) == x
  {
    MultipleAbs(x, k);
    FloorExact(Abs(x), k);
  }

  /** Clearing bits below the leading one keeps the leading one. */
  lemma {:induction false} FloorKeepsLead(n: nat, k: nat)
    requires n > 0 && k <= Lead(n)
    ensures Floor(n, k) >= Pow2(Lead(n)) && Lead(Floor(n, k)) == Lead(n)
  {
    LeadBounds(n);
    Pow2Multiple(k, Lead(n));
    FloorLargest(n, k, Pow2(Lead(n)));
    LeadIs(Floor(n, k), Lead(n));
  }

  lemma {:induction false} FloorZero(n: nat, k: nat)
    requires n < Pow2(k)
    ensures Floor(n, k) == 0
  {
    ZeroIsMultiple(k);
    FloorUnique(n, k, 0);
  }

  /** Clearing k bits and then more is clearing more. */
  lemma {:induction false} FloorFloor(n: nat, j: nat, k: nat)
    requires j <= k
    ensures Floor(Floor(n, j), k) == Floor(n, k)
  {
    FloorIsMultiple(n, k);
    MultipleFiner(Floor(n, k), j, k);
    FloorLargest(n, j, Floor(n, k));
    FloorUnique(Floor(n, j), k, Floor(n, k));
  }
}
