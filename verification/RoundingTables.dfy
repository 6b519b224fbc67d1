/**
  Evaluating the models: what each one predicts for up to four addends in closed form, and how to get
  there from written-out roundings.
 */
module RoundingTables {
  import opened Power
  import opened Rounding
  import opened RoundingTheorems
  import opened VshRounding

  // ---------------------------------------------------------------- rounding a written-out number

  lemma {:induction false} Powers()
    ensures Pow2(0) == 1 && Pow2(1) == 2 && Pow2(2) == 4 && Pow2(3) == 8 && Pow2(4) == 16 && Pow2(5) == 32
    ensures Pow2(6) == 64 && Pow2(23) == 0x80_0000 && Pow2(24) == 0x100_0000 && Pow2(28) == 0x1000_0000
    ensures Pow2(29) == 0x2000_0000 && Pow2(36) == 0x10_0000_0000 && Pow2(41) == 0x200_0000_0000
  {
    Pow2Plus(3, 3, 8);
    Pow2Plus(4, 4, 16);
    Pow2Plus(8, 8, 0x100);
    Pow2Plus(16, 4, 16);
    Pow2Plus(20, 3, 8);
    Pow2Plus(23, 1, 2);
    Pow2Plus(24, 4, 16);
    Pow2Plus(28, 1, 2);
    Pow2Plus(28, 8, 0x100);
    Pow2Plus(36, 5, 32);
  }

  lemma {:induction false} Pow2Plus(a: nat, b: nat, p: nat)
    requires Pow2(b) == p
    ensures Pow2(a + b) == p * Pow2(a)
  {
    TimesOne(a);
    TimesOne(b);
    TimesTimes(1, b, a);
    TimesOne(a + b);
    TimesIsProduct(p, a);
  }

  lemma {:induction false} TimesIsProduct(q: nat, k: nat)
    ensures Times(q, k) == q * Pow2(k)
  {
    if k > 0 {
      TimesIsProduct(q, k - 1);
      assert q * Pow2(k) == 2 * (q * Pow2(k - 1));
    }
  }

  /** n without its k low bits is q. */
  predicate Splits(n: nat, k: nat, q: nat) { Times(q, k) <= n < Times(q, k) + Pow2(k) }

  lemma {:induction false} SplitFloor(n: nat, k: nat, q: nat)
    requires Splits(n, k, q)
    ensures Floor(n, k) == Times(q, k)
    ensures Multiple(Times(q, k), k + 1) <==> q % 2 == 0
  {
    TimesOrder(0, q, k);
    assert IsTimes(Times(q, k), q, k);
    FloorUnique(n, k, Times(q, k));
    EvenTimes(q, k);
  }

  lemma {:induction false} TimesOrder(a: int, b: int, k: nat)
    requires a <= b
    ensures Times(a, k) <= Times(b, k) && Times(0, k) == 0
  {
    TimesOne(k);
    if a < b { TimesOrders(a, b, k); }
  }

  lemma {:induction false} EvenTimes(q: nat, k: nat)
    ensures Multiple(Times(q, k), k + 1) <==> q % 2 == 0
  {
    TwiceTimes(q, k);
    if Multiple(Times(q, k), k + 1) {
      var r :| IsTimes(Times(q, k), r, k + 1);
      TimesTimes(r, 1, k);
      assert Times(r, 1) == 2 * r && 1 + k == k + 1;
      if q < 2 * r { TimesOrders(q, 2 * r, k); }
      if 2 * r < q { TimesOrders(2 * r, q, k); }
    }
  }

  lemma {:induction false} TimesPower(j: nat, k: nat)
    ensures Times(Pow2(j), k) == Pow2(j + k)
  {
    TimesOne(j);
    TimesTimes(1, j, k);
    TimesOne(j + k);
  }

  lemma {:induction false} SplitLead(n: nat, j: nat, k: nat, q: nat)
    requires Splits(n, k, q) && Pow2(j) <= q < Pow2(j + 1)
    ensures n > 0 && Lead(n) == j + k
  {
    TimesPower(j, k);
    TimesPower(j + 1, k);
    assert j + 1 + k == j + k + 1;
    TimesOrder(Pow2(j), q, k);
    TimesOrders(q, Pow2(j + 1), k);
    LeadIs(n, j + k);
  }

  function Signed(n: int, x: int): int { if x < 0 then 0 - n else n }

  /** A written-out rounding: x has significand q and last place 2^k, and is z truncated and n to nearest. */
  datatype Division = R(x: int, k: nat, q: nat, z: int, n: int) {
    predicate Holds() {
      && Splits(Abs(x), k, q) && q < 0x100_0000 && (k > 0 ==> q >= 0x80_0000)
      && z == Signed(Times(q, k), x)
      && n == (var r := 2 * (Abs(x) - Times(q, k));
               Signed(Times(q, k) + if r > Pow2(k) || (r == Pow2(k) && q % 2 == 1) then Pow2(k) else 0, x))
    }

    ghost predicate Correct() { Rz(x) == z && Rn(x) == n }
  }

  function Short(x: int): Division { R(x, 0, Abs(x), x, x) }

  /** x without the bits below a last place 2^k: its quotient and its value. */
  datatype Cut = Cut(q: nat, t: int) {
    predicate Holds(x: int, k: nat) { Splits(Abs(x), k, q) && t == Signed(Times(q, k), x) }
  }

  lemma {:induction false} PlaceIs(t: Division)
    requires t.Holds()
    ensures UlpExp(t.x) == t.k
  {
    Powers();
    if t.k > 0 {
      SplitLead(Abs(t.x), 23, t.k, t.q);
    } else if t.x != 0 {
      LeadBounds(Abs(t.x));
      Pow2Orders(Lead(Abs(t.x)), 24);
    }
  }

  lemma {:induction false} Rounds(x: int, t: Division)
    requires t.Holds() && x == t.x
    ensures Rz(x) == t.z && Rn(x) == t.n
  {
    RoundingIs(x);
    PlaceIs(t);
    SplitFloor(Abs(t.x), t.k, t.q);
  }

  lemma {:induction false} AllCorrect(a: Division, b: Division, c: Division, d: Division)
    requires a.Holds() && b.Holds() && c.Holds() && d.Holds()
    ensures a.Correct() && b.Correct() && c.Correct() && d.Correct()
  {
    Rounds(a.x, a);
    Rounds(b.x, b);
    Rounds(c.x, c);
    Rounds(d.x, d);
  }

  predicate WindowIs(n: nat, k: nat) { n < Times(0x2000_0000, k) && (k > 0 ==> n >= Times(0x1000_0000, k)) }

  lemma {:induction false} Windowed(n: nat, k: nat)
    requires WindowIs(n, k)
    ensures WindowOf(n) == k
  {
    Powers();
    TimesPower(28, k);
    TimesPower(29, k);
    if n > 0 {
      LeadBounds(n);
      Pow2Orders(Lead(n), k + 29);
      Pow2Orders(Lead(n) + 1, k + 28);
    }
  }

  lemma {:induction false} Aligns(x: int, k: nat, q: nat)
    requires Splits(Abs(x), k, q)
    ensures Trunc(x, k) == Signed(Times(q, k), x)
  {
    SplitFloor(Abs(x), k, q);
  }

  // ---------------------------------------------------------------- four addends

  function Max4(a: int, b: int, c: int, d: int): nat { Max(Max(Max(Abs(a), Abs(b)), Abs(c)), Abs(d)) }

  datatype Predictions = Predictions(rn: int, rz: int, rnRn: int, rzRz: int, inOrder: int, window: int) {
    function Of(m: Model): int {
      match m
      case RN => rn
      case RZ => rz
      case RN_RN => rnRn
      case RZ_RZ => rzRz
      case TP_RZ => rzRz
      case SEQ_RZ => inOrder
      case WIN_RZ => window
    }
  }

  /** All predictions for four addends, some of which may be zero. */
  ghost function PredictAll(a: int, b: int, c: int, d: int): Predictions {
    var p, q, r, s := Rz(a), Rz(b), Rz(c), Rz(d);
    var k := WindowOf(Max4(p, q, r, s));
    Predictions(Rn(a + b + c + d), Rz(a + b + c + d), Rn(Rn(a) + Rn(b) + Rn(c) + Rn(d)), Rz(p + q + r + s),
                Rz(Rz(Rz(p + q) + r) + s), Rz(Trunc(p, k) + Trunc(q, k) + Trunc(r, k) + Trunc(s, k)))
  }

  lemma {:induction false} ComposeOnce(a: int, b: int, c: int, d: int, exact: Division)
    requires exact.Correct() && exact.x == a + b + c + d
    ensures PredictAll(a, b, c, d).rn == exact.n && PredictAll(a, b, c, d).rz == exact.z
  {
  }

  lemma {:induction false} ComposeTwice(a: Division, b: Division, c: Division, d: Division,
                                        truncated: Division, nearest: Division)
    requires a.Correct() && b.Correct() && c.Correct() && d.Correct()
    requires truncated.Correct() && truncated.x == a.z + b.z + c.z + d.z
    requires nearest.Correct() && nearest.x == a.n + b.n + c.n + d.n
    ensures PredictAll(a.x, b.x, c.x, d.x).rzRz == truncated.z
    ensures PredictAll(a.x, b.x, c.x, d.x).rnRn == nearest.n
  {
  }

  lemma {:induction false} ComposeInOrder(a: Division, b: Division, c: Division, d: Division,
                                          s1: Division, s2: Division, s3: Division)
    requires a.Correct() && b.Correct() && c.Correct() && d.Correct()
    requires s1.Correct() && s1.x == a.z + b.z
    requires s2.Correct() && s2.x == s1.z + c.z
    requires s3.Correct() && s3.x == s2.z + d.z
    ensures PredictAll(a.x, b.x, c.x, d.x).inOrder == s3.z
  {
  }

  lemma {:induction false} ComposeAligned(p: int, q: int, r: int, s: int,
                                          k: nat, ka: Cut, kb: Cut, kc: Cut, kd: Cut, aligned: Division)
    requires WindowIs(Max4(p, q, r, s), k)
    requires ka.Holds(p, k) && kb.Holds(q, k) && kc.Holds(r, k) && kd.Holds(s, k)
    requires aligned.Holds() && aligned.x == ka.t + kb.t + kc.t + kd.t
    ensures var w := WindowOf(Max4(p, q, r, s));
            Rz(Trunc(p, w) + Trunc(q, w) + Trunc(r, w) + Trunc(s, w)) == aligned.z
  {
    Windowed(Max4(p, q, r, s), k);
    Aligns(p, k, ka.q);
    Aligns(q, k, kb.q);
    Aligns(r, k, kc.q);
    Aligns(s, k, kd.q);
    Rounds(Trunc(p, k) + Trunc(q, k) + Trunc(r, k) + Trunc(s, k), aligned);
  }

  lemma {:induction false} ComposeWindow(a: Division, b: Division, c: Division, d: Division,
                                         k: nat, ka: Cut, kb: Cut, kc: Cut, kd: Cut, aligned: Division)
    requires a.Correct() && b.Correct() && c.Correct() && d.Correct()
    requires WindowIs(Max4(a.z, b.z, c.z, d.z), k)
    requires ka.Holds(a.z, k) && kb.Holds(b.z, k) && kc.Holds(c.z, k) && kd.Holds(d.z, k)
    requires aligned.Holds() && aligned.x == ka.t + kb.t + kc.t + kd.t
    ensures PredictAll(a.x, b.x, c.x, d.x).window == aligned.z
  {
    ComposeAligned(a.z, b.z, c.z, d.z, k, ka, kb, kc, kd, aligned);
  }

  /** A row of the tables from its written-out roundings. */
  lemma {:induction false} Compose(a: Division, b: Division, c: Division, d: Division,
                                   exact: Division, truncated: Division, nearest: Division,
                                   s1: Division, s2: Division, s3: Division,
                                   k: nat, ka: Cut, kb: Cut, kc: Cut, kd: Cut, aligned: Division)
    requires a.Holds() && b.Holds() && c.Holds() && d.Holds()
    requires exact.Holds() && exact.x == a.x + b.x + c.x + d.x
    requires truncated.Holds() && truncated.x == a.z + b.z + c.z + d.z
    requires nearest.Holds() && nearest.x == a.n + b.n + c.n + d.n
    requires s1.Holds() && s1.x == a.z + b.z
    requires s2.Holds() && s2.x == s1.z + c.z
    requires s3.Holds() && s3.x == s2.z + d.z
    requires WindowIs(Max4(a.z, b.z, c.z, d.z), k)
    requires ka.Holds(a.z, k) && kb.Holds(b.z, k) && kc.Holds(c.z, k) && kd.Holds(d.z, k)
    requires aligned.Holds() && aligned.x == ka.t + kb.t + kc.t + kd.t
    ensures PredictAll(a.x, b.x, c.x, d.x)
         == Predictions(exact.n, exact.z, nearest.n, truncated.z, s3.z, aligned.z)
  {
    AllCorrect(a, b, c, d);
    AllCorrect(exact, truncated, nearest, s1);
    AllCorrect(s1, s2, s3, s3);
    ComposeOnce(a.x, b.x, c.x, d.x, exact);
    ComposeTwice(a, b, c, d, truncated, nearest);
    ComposeInOrder(a, b, c, d, s1, s2, s3);
    ComposeWindow(a, b, c, d, k, ka, kb, kc, kd, aligned);
  }

  // ---------------------------------------------------------------- lists of addends

  lemma {:induction false} ListsSnoc(xs: seq<int>, x: int)
    ensures Truncated(xs + [x]) == Truncated(xs) + [Rz(x)] && Nearest(xs + [x]) == Nearest(xs) + [Rn(x)]
    ensures InOrder(xs + [x]) == Rz(InOrder(xs) + Rz(x))
  {
    assert (xs + [x])[..|xs|] == xs;
  }

  lemma {:induction false} RoundingZero()
    ensures Rz(0) == 0 && Rn(0) == 0
  {
    ZeroIsMultiple(0);
    TruncExact(0, 0);
    RoundingIs(0);
    ZeroIsMultiple(1);
  }

  lemma {:induction false} InOrderIsFloat(xs: seq<int>)
    ensures IsFloat(InOrder(xs))
  {
    if xs == [] {
      RoundingZero();
      RzIsFloat(0);
    } else {
      RzIsFloat(InOrder(xs[..|xs| - 1]) + Rz(xs[|xs| - 1]));
    }
  }

  /** A zero addend changes no prediction. */
  lemma {:induction false} PadZero(m: Model, xs: seq<int>)
    ensures Predict(m, xs + [0]) == Predict(m, xs)
  {
    ListsSnoc(xs, 0);
    RoundingZero();
    SumSnoc(xs, 0, 0);
    SumSnoc(Truncated(xs), 0, 0);
    SumSnoc(Nearest(xs), 0, 0);
    ZeroAddend(Truncated(xs));
    InOrderIsFloat(xs);
    RzOfFloat(InOrder(xs));
  }

  lemma {:induction false} SumFour(a: int, b: int, c: int, d: int, k: nat)
    ensures Sum([a, b, c, d]) == a + b + c + d
    ensures MaxAbs([a, b, c, d]) == Max4(a, b, c, d)
    ensures SumTrunc([a, b, c, d], k) == Trunc(a, k) + Trunc(b, k) + Trunc(c, k) + Trunc(d, k)
  {
    SumTwo(a, b, k);
    SumSnoc([a, b], c, k);
    assert [a, b] + [c] == [a, b, c];
    SumSnoc([a, b, c], d, k);
    assert [a, b, c] + [d] == [a, b, c, d];
  }

  lemma {:induction false} InOrderFour(a: int, b: int, c: int, d: int)
    ensures InOrder([a, b, c, d]) == Rz(Rz(Rz(Rz(a) + Rz(b)) + Rz(c)) + Rz(d))
  {
    ListsSnoc([], a);
    assert [] + [a] == [a] && InOrder([]) == 0;
    RzIsFloat(a);
    RzOfFloat(Rz(a));
    ListsSnoc([a], b);
    assert [a] + [b] == [a, b];
    ListsSnoc([a, b], c);
    assert [a, b] + [c] == [a, b, c];
    ListsSnoc([a, b, c], d);
    assert [a, b, c] + [d] == [a, b, c, d];
  }

  lemma {:induction false} PredictFour(m: Model, a: int, b: int, c: int, d: int)
    ensures Predict(m, [a, b, c, d]) == PredictAll(a, b, c, d).Of(m)
  {
    var p, q, r, s := Rz(a), Rz(b), Rz(c), Rz(d);
    assert Truncated([a, b, c, d]) == [p, q, r, s];
    assert Nearest([a, b, c, d]) == [Rn(a), Rn(b), Rn(c), Rn(d)];
    match m
    case RN => SumFour(a, b, c, d, 0);
    case RZ => SumFour(a, b, c, d, 0);
    case RN_RN => SumFour(Rn(a), Rn(b), Rn(c), Rn(d), 0);
    case RZ_RZ => SumFour(p, q, r, s, 0);
    case TP_RZ => SumFour(p, q, r, s, 0);
    case SEQ_RZ => InOrderFour(a, b, c, d);
    case WIN_RZ => SumFour(p, q, r, s, WindowOf(Max4(p, q, r, s)));
  }

  lemma {:induction false} PredictThree(m: Model, a: int, b: int, c: int)
    ensures Predict(m, [a, b, c]) == PredictAll(a, b, c, 0).Of(m)
  {
    PadZero(m, [a, b, c]);
    assert [a, b, c] + [0] == [a, b, c, 0];
    PredictFour(m, a, b, c, 0);
  }

  lemma {:induction false} PredictTwo(m: Model, a: int, b: int)
    ensures Predict(m, [a, b]) == PredictAll(a, b, 0, 0).Of(m)
  {
    PadZero(m, [a, b]);
    assert [a, b] + [0] == [a, b, 0];
    PredictThree(m, a, b, 0);
  }

  lemma {:induction false} PredictOne(m: Model, a: int)
    ensures Predict(m, [a]) == PredictAll(a, 0, 0, 0).Of(m)
  {
    PadZero(m, [a]);
    assert [a] + [0] == [a, 0];
    PredictTwo(m, a, 0);
  }

  // ---------------------------------------------------------------- rows, in units

  lemma {:induction false} LargePowers()
    ensures Pow2(36) == 0x10_0000_0000 && Pow2(41) == 0x200_0000_0000
    ensures Times(0x80_0000, 41) == 0x1_0000_0000_0000_0000 && Times(0x1000_0000, 36) == 0x1_0000_0000_0000_0000
    ensures Times(0x2000_0000, 36) == 0x2_0000_0000_0000_0000 && Times(0, 36) == 0
  {
    Powers();
    TimesIsProduct(0x80_0000, 41);
    TimesIsProduct(0x1000_0000, 36);
    TimesIsProduct(0x2000_0000, 36);
    TimesOne(36);
  }

  /** 1 and 0.75 ulp, in units of 2^-25 (ADD, MAD and dot-product rows). */
  lemma {:induction false} OneAndUlp()
    ensures PredictAll(0x200_0000, 3, 0, 0)
         == Predictions(0x200_0004, 0x200_0000, 0x200_0004, 0x200_0000, 0x200_0000, 0x200_0000)
  {
    Compose(R(0x200_0000, 2, 0x80_0000, 0x200_0000, 0x200_0000),
            Short(3),
            Short(0),
            Short(0),
            R(0x200_0003, 2, 0x80_0000, 0x200_0000, 0x200_0004), R(0x200_0003, 2, 0x80_0000, 0x200_0000, 0x200_0004),
            R(0x200_0003, 2, 0x80_0000, 0x200_0000, 0x200_0004),
            R(0x200_0003, 2, 0x80_0000, 0x200_0000, 0x200_0004), R(0x200_0000, 2, 0x80_0000, 0x200_0000, 0x200_0000),
            R(0x200_0000, 2, 0x80_0000, 0x200_0000, 0x200_0000),
            0, Cut(0x200_0000, 0x200_0000), Cut(3, 3), Cut(0, 0), Cut(0, 0),
            R(0x200_0003, 2, 0x80_0000, 0x200_0000, 0x200_0004));
  }

  /** -1 and -0.75 ulp, in units of 2^-25 (ADD and dot-product rows). */
  lemma {:induction false} MinusOneAndUlp()
    ensures PredictAll(-0x200_0000, -3, 0, 0)
         == Predictions(-0x200_0004, -0x200_0000, -0x200_0004, -0x200_0000, -0x200_0000, -0x200_0000)
  {
    Compose(R(-0x200_0000, 2, 0x80_0000, -0x200_0000, -0x200_0000),
            Short(-3),
            Short(0),
            Short(0),
            R(-0x200_0003, 2, 0x80_0000, -0x200_0000, -0x200_0004),
            R(-0x200_0003, 2, 0x80_0000, -0x200_0000, -0x200_0004),
            R(-0x200_0003, 2, 0x80_0000, -0x200_0000, -0x200_0004),
            R(-0x200_0003, 2, 0x80_0000, -0x200_0000, -0x200_0004),
            R(-0x200_0000, 2, 0x80_0000, -0x200_0000, -0x200_0000),
            R(-0x200_0000, 2, 0x80_0000, -0x200_0000, -0x200_0000),
            0, Cut(0x200_0000, -0x200_0000), Cut(3, -3), Cut(0, 0), Cut(0, 0),
            R(-0x200_0003, 2, 0x80_0000, -0x200_0000, -0x200_0004));
  }

  /** 1 and -2^-28, in units of 2^-28 (ADD and MAD rows). */
  lemma {:induction false} OneMinusTiny()
    ensures PredictAll(0x1000_0000, -1, 0, 0)
         == Predictions(0x1000_0000, 0xFFF_FFF0, 0x1000_0000, 0xFFF_FFF0, 0xFFF_FFF0, 0xFFF_FFF0)
  {
    Compose(R(0x1000_0000, 5, 0x80_0000, 0x1000_0000, 0x1000_0000),
            Short(-1),
            Short(0),
            Short(0),
            R(0xFFF_FFFF, 4, 0xFF_FFFF, 0xFFF_FFF0, 0x1000_0000),
            R(0xFFF_FFFF, 4, 0xFF_FFFF, 0xFFF_FFF0, 0x1000_0000),
            R(0xFFF_FFFF, 4, 0xFF_FFFF, 0xFFF_FFF0, 0x1000_0000),
            R(0xFFF_FFFF, 4, 0xFF_FFFF, 0xFFF_FFF0, 0x1000_0000),
            R(0xFFF_FFF0, 4, 0xFF_FFFF, 0xFFF_FFF0, 0xFFF_FFF0), R(0xFFF_FFF0, 4, 0xFF_FFFF, 0xFFF_FFF0, 0xFFF_FFF0),
            0, Cut(0x1000_0000, 0x1000_0000), Cut(1, -1), Cut(0, 0), Cut(0, 0),
            R(0xFFF_FFFF, 4, 0xFF_FFFF, 0xFFF_FFF0, 0x1000_0000));
  }

  /** 1 and -(2^-24 + 2^-29), in units of 2^-29 (ADD, MAD and accumulation rows). */
  lemma {:induction false} OneMinusSticky()
    ensures PredictAll(0x2000_0000, -0x21, 0, 0)
         == Predictions(0x1FFF_FFE0, 0x1FFF_FFC0, 0x1FFF_FFE0, 0x1FFF_FFC0, 0x1FFF_FFC0, 0x1FFF_FFE0)
  {
    assert Times(0x80_0000, 6) == 0x2000_0000 && Times(0xFF_FFFE, 5) == 0x1FFF_FFC0;
    assert Times(0xFF_FFFF, 5) == 0x1FFF_FFE0 && Pow2(5) == 32 && Pow2(6) == 64;
    Compose(R(0x2000_0000, 6, 0x80_0000, 0x2000_0000, 0x2000_0000),
            Short(-0x21),
            Short(0),
            Short(0),
            R(0x1FFF_FFDF, 5, 0xFF_FFFE, 0x1FFF_FFC0, 0x1FFF_FFE0),
            R(0x1FFF_FFDF, 5, 0xFF_FFFE, 0x1FFF_FFC0, 0x1FFF_FFE0),
            R(0x1FFF_FFDF, 5, 0xFF_FFFE, 0x1FFF_FFC0, 0x1FFF_FFE0),
            R(0x1FFF_FFDF, 5, 0xFF_FFFE, 0x1FFF_FFC0, 0x1FFF_FFE0),
            R(0x1FFF_FFC0, 5, 0xFF_FFFE, 0x1FFF_FFC0, 0x1FFF_FFC0),
            R(0x1FFF_FFC0, 5, 0xFF_FFFE, 0x1FFF_FFC0, 0x1FFF_FFC0),
            1, Cut(0x1000_0000, 0x2000_0000), Cut(0x10, -0x20), Cut(0, 0), Cut(0, 0),
            R(0x1FFF_FFE0, 5, 0xFF_FFFF, 0x1FFF_FFE0, 0x1FFF_FFE0));
  }

  /** The product of 0x3F800800 and 0x3F800C00, in units of 2^-25 (MUL row). */
  lemma {:induction false} InexactProduct()
    ensures PredictAll(0x200_5003, 0, 0, 0)
         == Predictions(0x200_5004, 0x200_5000, 0x200_5004, 0x200_5000, 0x200_5000, 0x200_5000)
  {
    Compose(R(0x200_5003, 2, 0x80_1400, 0x200_5000, 0x200_5004),
            Short(0),
            Short(0),
            Short(0),
            R(0x200_5003, 2, 0x80_1400, 0x200_5000, 0x200_5004), R(0x200_5000, 2, 0x80_1400, 0x200_5000, 0x200_5000),
            R(0x200_5004, 2, 0x80_1401, 0x200_5004, 0x200_5004),
            R(0x200_5000, 2, 0x80_1400, 0x200_5000, 0x200_5000), R(0x200_5000, 2, 0x80_1400, 0x200_5000, 0x200_5000),
            R(0x200_5000, 2, 0x80_1400, 0x200_5000, 0x200_5000),
            0, Cut(0x200_5000, 0x200_5000), Cut(0, 0), Cut(0, 0), Cut(0, 0),
            R(0x200_5000, 2, 0x80_1400, 0x200_5000, 0x200_5000));
  }

  /** Its negation (MUL row). */
  lemma {:induction false} MinusInexactProduct()
    ensures PredictAll(-0x200_5003, 0, 0, 0)
         == Predictions(-0x200_5004, -0x200_5000, -0x200_5004, -0x200_5000, -0x200_5000, -0x200_5000)
  {
    Compose(R(-0x200_5003, 2, 0x80_1400, -0x200_5000, -0x200_5004),
            Short(0),
            Short(0),
            Short(0),
            R(-0x200_5003, 2, 0x80_1400, -0x200_5000, -0x200_5004),
            R(-0x200_5000, 2, 0x80_1400, -0x200_5000, -0x200_5000),
            R(-0x200_5004, 2, 0x80_1401, -0x200_5004, -0x200_5004),
            R(-0x200_5000, 2, 0x80_1400, -0x200_5000, -0x200_5000),
            R(-0x200_5000, 2, 0x80_1400, -0x200_5000, -0x200_5000),
            R(-0x200_5000, 2, 0x80_1400, -0x200_5000, -0x200_5000),
            0, Cut(0x200_5000, -0x200_5000), Cut(0, 0), Cut(0, 0), Cut(0, 0),
            R(-0x200_5000, 2, 0x80_1400, -0x200_5000, -0x200_5000));
  }

  /** The same product and minus its rounding to nearest (MAD and dot-product rows). */
  lemma {:induction false} ProductResidue()
    ensures PredictAll(0x200_5003, -0x200_5004, 0, 0)
         == Predictions(-1, -1, 0, -4, -4, -4)
  {
    Compose(R(0x200_5003, 2, 0x80_1400, 0x200_5000, 0x200_5004),
            R(-0x200_5004, 2, 0x80_1401, -0x200_5004, -0x200_5004),
            Short(0),
            Short(0),
            Short(-1), Short(-4), Short(0),
            Short(-4), Short(-4), Short(-4),
            0, Cut(0x200_5000, 0x200_5000), Cut(0x200_5004, -0x200_5004), Cut(0, 0), Cut(0, 0), Short(-4));
  }

  /** The negated product and -2^-24 (MAD row). */
  lemma {:induction false} BothInexact()
    ensures PredictAll(-0x200_5003, -2, 0, 0)
         == Predictions(-0x200_5004, -0x200_5004, -0x200_5008, -0x200_5000, -0x200_5000, -0x200_5000)
  {
    Compose(R(-0x200_5003, 2, 0x80_1400, -0x200_5000, -0x200_5004),
            Short(-2),
            Short(0),
            Short(0),
            R(-0x200_5005, 2, 0x80_1401, -0x200_5004, -0x200_5004),
            R(-0x200_5002, 2, 0x80_1400, -0x200_5000, -0x200_5000),
            R(-0x200_5006, 2, 0x80_1401, -0x200_5004, -0x200_5008),
            R(-0x200_5002, 2, 0x80_1400, -0x200_5000, -0x200_5000),
            R(-0x200_5000, 2, 0x80_1400, -0x200_5000, -0x200_5000),
            R(-0x200_5000, 2, 0x80_1400, -0x200_5000, -0x200_5000),
            0, Cut(0x200_5000, -0x200_5000), Cut(2, -2), Cut(0, 0), Cut(0, 0),
            R(-0x200_5002, 2, 0x80_1400, -0x200_5000, -0x200_5000));
  }

  /** 1, 0.75 ulp and -(1 + ulp), in units of 2^-25 (dot-product rows). */
  lemma {:induction false} ThreeAddends()
    ensures PredictAll(0x200_0000, 3, -0x200_0004, 0)
         == Predictions(-1, -1, -1, -1, -4, -1)
  {
    Compose(R(0x200_0000, 2, 0x80_0000, 0x200_0000, 0x200_0000),
            Short(3),
            R(-0x200_0004, 2, 0x80_0001, -0x200_0004, -0x200_0004),
            Short(0),
            Short(-1), Short(-1), Short(-1),
            R(0x200_0003, 2, 0x80_0000, 0x200_0000, 0x200_0004), Short(-4), Short(-4),
            0, Cut(0x200_0000, 0x200_0000), Cut(3, 3), Cut(0x200_0004, -0x200_0004), Cut(0, 0), Short(-1));
  }

  /** The same with a zero in between, as DPH adds them. */
  lemma {:induction false} ThreeAddendsApart()
    ensures PredictAll(0x200_0000, 3, 0, -0x200_0004)
         == Predictions(-1, -1, -1, -1, -4, -1)
  {
    Compose(R(0x200_0000, 2, 0x80_0000, 0x200_0000, 0x200_0000),
            Short(3),
            Short(0),
            R(-0x200_0004, 2, 0x80_0001, -0x200_0004, -0x200_0004),
            Short(-1), Short(-1), Short(-1),
            R(0x200_0003, 2, 0x80_0000, 0x200_0000, 0x200_0004), R(0x200_0000, 2, 0x80_0000, 0x200_0000, 0x200_0000),
            Short(-4),
            0, Cut(0x200_0000, 0x200_0000), Cut(3, 3), Cut(0, 0), Cut(0x200_0004, -0x200_0004), Short(-1));
  }

  /** 0xBF80309E times 0xC2200000 and minus its rounding to nearest, in units of 2^-22 (the Rugby 2005 row). */
  lemma {:induction false} Rugby()
    ensures PredictAll(0xA03_CC58, -0xA03_CC60, 0, 0)
         == Predictions(-8, -8, 0, -0x10, -0x10, -0x10)
  {
    Compose(R(0xA03_CC58, 4, 0xA0_3CC5, 0xA03_CC50, 0xA03_CC60),
            R(-0xA03_CC60, 4, 0xA0_3CC6, -0xA03_CC60, -0xA03_CC60),
            Short(0),
            Short(0),
            Short(-8), Short(-0x10), Short(0),
            Short(-0x10), Short(-0x10), Short(-0x10),
            0, Cut(0xA03_CC50, 0xA03_CC50), Cut(0xA03_CC60, -0xA03_CC60), Cut(0, 0), Cut(0, 0), Short(-0x10));
  }

  /** 1, 2^-28 and -1, in units of 2^-28 (accumulation row). */
  lemma {:induction false} SmallInWindow()
    ensures PredictAll(0x1000_0000, 1, -0x1000_0000, 0)
         == Predictions(1, 1, 1, 1, 0, 1)
  {
    Compose(R(0x1000_0000, 5, 0x80_0000, 0x1000_0000, 0x1000_0000),
            Short(1),
            R(-0x1000_0000, 5, 0x80_0000, -0x1000_0000, -0x1000_0000),
            Short(0),
            Short(1), Short(1), Short(1),
            R(0x1000_0001, 5, 0x80_0000, 0x1000_0000, 0x1000_0000), Short(0), Short(0),
            0, Cut(0x1000_0000, 0x1000_0000), Cut(1, 1), Cut(0x1000_0000, -0x1000_0000), Cut(0, 0), Short(1));
  }

  /** 2^32, -2^32 and 2^-32, in units of 2^-32 (accumulation row). */
  lemma {:induction false} SmallBelowWindow()
    ensures PredictAll(0x1_0000_0000_0000_0000, -0x1_0000_0000_0000_0000, 1, 0)
         == Predictions(1, 1, 1, 1, 1, 0)
  {
    LargePowers();
    OneBelowWindow(0x1_0000_0000_0000_0000, 41, 36);
  }

  /** A unit and two opposite powers of two, last place 2^k and window 2^j. */
  lemma {:induction false} OneBelowWindow(big: int, k: nat, j: nat)
    requires big == Times(0x80_0000, k) && big == Times(0x1000_0000, j) && 0 < big < Times(0x2000_0000, j)
    requires k > 0 && j > 0 && Times(0, j) == 0 && Pow2(j) > 1
    ensures PredictAll(big, -big, 1, 0) == Predictions(1, 1, 1, 1, 1, 0)
  {
    Compose(R(big, k, 0x80_0000, big, big), R(-big, k, 0x80_0000, -big, -big), Short(1), Short(0),
            Short(1), Short(1), Short(1),
            Short(0), Short(1), Short(1),
            j, Cut(0x1000_0000, big), Cut(0x1000_0000, -big), Cut(0, 0), Cut(0, 0), Short(0));
  }
}
