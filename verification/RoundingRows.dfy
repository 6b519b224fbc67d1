/**
  The rows of the rounding tables, in bits: every recorded pattern denotes what the model it is recorded
  for predicts for the operands of the row.
 */
module RoundingRows {
  import opened BitPatterns
  import opened Rounding
  import opened RoundingTables
  import opened VshHarness
  import opened VshRounding

  /** An addend of an instruction: a register, or the product of two. */
  datatype Operand = Value(bits: Bits) | Product(a: Bits, b: Bits)

  ghost predicate Factored(a: Bits, u: int, g: nat, b: Bits, v: int, h: nat) { Denotes(a, u, g) && Denotes(b, v, h) }

  /** The operand is exactly x units of 2^-grid. */
  ghost predicate Stands(o: Operand, x: int, grid: nat) {
    match o
    case Value(bits) => Denotes(bits, x, grid)
    case Product(a, b) =>
      exists u: int, g: nat, v: int, h: nat :: Factored(a, u, g, b, v, h) && g + h == grid && x == u * v
  }

  ghost predicate Stand(operands: seq<Operand>, xs: seq<int>, grid: nat) {
    |operands| == |xs| && forall i :: 0 <= i < |xs| ==> Stands(operands[i], xs[i], grid)
  }

  /**
    A row of a table: the operands are exactly xs, the expected result is what win_rz predicts for them
    (for a single product that is rz), and the bits of every model are what that model predicts.
   */
  ghost predicate RowHolds(operands: seq<Operand>, e: Expectation, xs: seq<int>, grid: nat) {
    && Stand(operands, xs, grid)
    && Denotes(e.expected, Predict(WIN_RZ, xs), grid)
    && forall r :: r in e.models ==> Denotes(r.bits, Predict(r.model, xs), grid)
  }

  /** On a row, the bits that a model is recorded with tell whether the unit followed that model. */
  lemma {:induction false} RowTells(operands: seq<Operand>, e: Expectation, xs: seq<int>, grid: nat,
                                    r: RoundingModel, actual: Bits, x: int)
    requires RowHolds(operands, e, xs, grid) && r in e.models && Denotes(actual, x, grid)
    ensures r.bits == actual ==> Predict(r.model, xs) == x
    ensures Predict(r.model, xs) == x && x != 0 ==> r.bits == actual
  {
    PatternTells(r.bits, Predict(r.model, xs), actual, x, grid);
  }

  /** ... and the check of the row passes exactly when the unit returned what win_rz predicts. */
  lemma {:induction false} RowChecks(operands: seq<Operand>, e: Expectation, xs: seq<int>, grid: nat,
                                     actual: Bits, x: int)
    requires RowHolds(operands, e, xs, grid) && e.checked && Denotes(actual, x, grid)
    ensures Acceptable(e, actual) ==> Predict(WIN_RZ, xs) == x
    ensures Predict(WIN_RZ, xs) == x && x != 0 ==> Acceptable(e, actual)
  {
    PatternTells(e.expected, Predict(WIN_RZ, xs), actual, x, grid);
  }

  lemma {:induction false} PatternTells(b: Bits, y: int, c: Bits, x: int, grid: nat)
    requires Denotes(b, y, grid) && Denotes(c, x, grid)
    ensures b == c ==> y == x
    ensures y == x && x != 0 ==> b == c
  {
    if b == c { DenotesValue(b, y, x, grid); }
    if y == x && x != 0 { DenotesOne(b, c, x, grid); }
  }

  // ---------------------------------------------------------------- operands

  lemma {:induction false} ProductStands(a: Bits, u: int, g: nat, b: Bits, v: int, h: nat, x: int, grid: nat)
    requires Denotes(a, u, g) && Denotes(b, v, h) && g + h == grid && x == u * v
    ensures Stands(Product(a, b), x, grid)
  {
    assert Factored(a, u, g, b, v, h);
  }

  lemma {:induction false} UnitStands(a: Bits, x: int, grid: nat)
    requires Denotes(a, x, grid)
    ensures Stands(Product(a, 0x3F800000), x, grid)
  {
    Units();
    ProductStands(a, x, grid, 0x3F800000, 1, 0, x, grid);
  }

  lemma {:induction false} MinusUnitStands(a: Bits, x: int, grid: nat)
    requires Denotes(a, 0 - x, grid)
    ensures Stands(Product(a, 0xBF800000), x, grid)
  {
    Units();
    ProductStands(a, 0 - x, grid, 0xBF800000, -1, 0, x, grid);
  }

  lemma {:induction false} ZeroStands(b: Bits, v: int, grid: nat)
    requires Denotes(b, v, grid)
    ensures Stands(Product(0, b), 0, grid)
  {
    ZeroDenotes(0);
    ProductStands(0, 0, 0, b, v, grid, 0, grid);
  }

  // ---------------------------------------------------------------- from predictions to rows

  /** t holds the predictions for xs. */
  ghost predicate Forecast(xs: seq<int>, t: Predictions) { forall m: Model :: Predict(m, xs) == t.Of(m) }

  lemma {:induction false} ForecastOne(a: int, t: Predictions)
    requires t == PredictAll(a, 0, 0, 0)
    ensures Forecast([a], t)
  {
    forall m: Model ensures Predict(m, [a]) == t.Of(m) { PredictOne(m, a); }
  }

  lemma {:induction false} ForecastTwo(a: int, b: int, t: Predictions)
    requires t == PredictAll(a, b, 0, 0)
    ensures Forecast([a, b], t)
  {
    forall m: Model ensures Predict(m, [a, b]) == t.Of(m) { PredictTwo(m, a, b); }
  }

  lemma {:induction false} ForecastThree(a: int, b: int, c: int, t: Predictions)
    requires t == PredictAll(a, b, c, 0)
    ensures Forecast([a, b, c], t)
  {
    forall m: Model ensures Predict(m, [a, b, c]) == t.Of(m) { PredictThree(m, a, b, c); }
  }

  lemma {:induction false} ForecastFour(a: int, b: int, c: int, d: int, t: Predictions)
    requires t == PredictAll(a, b, c, d)
    ensures Forecast([a, b, c, d], t)
  {
    forall m: Model ensures Predict(m, [a, b, c, d]) == t.Of(m) { PredictFour(m, a, b, c, d); }
  }

  /** The bits of e denote the predictions t. */
  ghost predicate Recorded(e: Expectation, t: Predictions, grid: nat) {
    && Denotes(e.expected, t.window, grid)
    && forall r :: r in e.models ==> Denotes(r.bits, t.Of(r.model), grid)
  }

  lemma {:induction false} RowFrom(operands: seq<Operand>, e: Expectation, xs: seq<int>, grid: nat, t: Predictions)
    requires Stand(operands, xs, grid) && Forecast(xs, t) && Recorded(e, t, grid)
    ensures RowHolds(operands, e, xs, grid)
  {
    assert Predict(WIN_RZ, xs) == t.window;
    forall r | r in e.models ensures Denotes(r.bits, Predict(r.model, xs), grid) {
      assert Predict(r.model, xs) == t.Of(r.model);
    }
  }

  // ---------------------------------------------------------------- ADD

  function AddExpectation(rn: Bits, rz: Bits, win: Bits): Expectation {
    Expectation(true, win, [RoundingModel(RN, rn), RoundingModel(RZ, rz), RoundingModel(WIN_RZ, win)])
  }

  ghost predicate AddRow(a: Bits, b: Bits, e: Expectation, xs: seq<int>, grid: nat) {
    RowHolds([Value(a), Value(b)], e, xs, grid)
  }

  lemma {:induction false} AddFrom(a: Bits, b: Bits, rn: Bits, rz: Bits, win: Bits,
                                   x: int, y: int, grid: nat, t: Predictions)
    requires Denotes(a, x, grid) && Denotes(b, y, grid) && t == PredictAll(x, y, 0, 0)
    requires Denotes(rn, t.rn, grid) && Denotes(rz, t.rz, grid) && Denotes(win, t.window, grid)
    ensures AddRow(a, b, AddExpectation(rn, rz, win), [x, y], grid)
  {
    ForecastTwo(x, y, t);
    RowFrom([Value(a), Value(b)], AddExpectation(rn, rz, win), [x, y], grid, t);
  }

  /** "+0.75 ulp" */
  lemma {:induction false} AddRow0()
    ensures AddRow(0x3F800000, 0x33C00000, AddExpectation(0x3F800001, 0x3F800000, 0x3F800000), [0x200_0000, 3], 25)
  {
    Ones25();
    OneAndUlp();
    AddFrom(0x3F800000, 0x33C00000, 0x3F800001, 0x3F800000, 0x3F800000, 0x200_0000, 3, 25,
            PredictAll(0x200_0000, 3, 0, 0));
  }

  /** "-0.75 ulp" */
  lemma {:induction false} AddRow1()
    ensures AddRow(0xBF800000, 0xB3C00000, AddExpectation(0xBF800001, 0xBF800000, 0xBF800000), [-0x200_0000, -3], 25)
  {
    MinusOnes25();
    MinusOneAndUlp();
    AddFrom(0xBF800000, 0xB3C00000, 0xBF800001, 0xBF800000, 0xBF800000, -0x200_0000, -3, 25,
            PredictAll(-0x200_0000, -3, 0, 0));
  }

  /** "1 - 2^-28" */
  lemma {:induction false} AddRow2()
    ensures AddRow(0x3F800000, 0xB1800000, AddExpectation(0x3F800000, 0x3F7FFFFF, 0x3F7FFFFF), [0x1000_0000, -1], 28)
  {
    Patterns28();
    OneMinusTiny();
    AddFrom(0x3F800000, 0xB1800000, 0x3F800000, 0x3F7FFFFF, 0x3F7FFFFF, 0x1000_0000, -1, 28,
            PredictAll(0x1000_0000, -1, 0, 0));
  }

  /** "1 - (2^-24 + 2^-29)", where rz and win_rz differ */
  lemma {:induction false} AddRow3()
    ensures AddRow(0x3F800000, 0xB3840000, AddExpectation(0x3F7FFFFF, 0x3F7FFFFE, 0x3F7FFFFF), [0x2000_0000, -0x21], 29)
  {
    Patterns29();
    OneMinusSticky();
    AddFrom(0x3F800000, 0xB3840000, 0x3F7FFFFF, 0x3F7FFFFE, 0x3F7FFFFF, 0x2000_0000, -0x21, 29,
            PredictAll(0x2000_0000, -0x21, 0, 0));
  }

  // ---------------------------------------------------------------- MUL

  function MulExpectation(rn: Bits, rz: Bits): Expectation {
    Expectation(true, rz, [RoundingModel(RN, rn), RoundingModel(RZ, rz)])
  }

  ghost predicate MulRow(a: Bits, b: Bits, e: Expectation, xs: seq<int>, grid: nat) {
    RowHolds([Product(a, b)], e, xs, grid)
  }

  lemma {:induction false} MulFrom(a: Bits, b: Bits, rn: Bits, rz: Bits, x: int, grid: nat, t: Predictions)
    requires Stands(Product(a, b), x, grid) && t == PredictAll(x, 0, 0, 0) && t.rz == t.window
    requires Denotes(rn, t.rn, grid) && Denotes(rz, t.rz, grid)
    ensures MulRow(a, b, MulExpectation(rn, rz), [x], grid)
  {
    ForecastOne(x, t);
    RowFrom([Product(a, b)], MulExpectation(rn, rz), [x], grid, t);
  }

  lemma {:induction false} InexactStands()
    ensures Stands(Product(0x3F800800, 0x3F800C00), 0x200_5003, 25)
  {
    Factors();
    ProductStands(0x3F800800, 0x1001, 12, 0x3F800C00, 0x2003, 13, 0x200_5003, 25);
  }

  lemma {:induction false} InexactMinusStands()
    ensures Stands(Product(0xBF800800, 0x3F800C00), -0x200_5003, 25)
  {
    Factors();
    ProductStands(0xBF800800, -0x1001, 12, 0x3F800C00, 0x2003, 13, -0x200_5003, 25);
  }

  /** "+0.75 ulp" */
  lemma {:induction false} MulRow0()
    ensures MulRow(0x3F800800, 0x3F800C00, MulExpectation(0x3F801401, 0x3F801400), [0x200_5003], 25)
  {
    Products25();
    InexactProduct();
    InexactStands();
    MulFrom(0x3F800800, 0x3F800C00, 0x3F801401, 0x3F801400, 0x200_5003, 25, PredictAll(0x200_5003, 0, 0, 0));
  }

  /** "-0.75 ulp" */
  lemma {:induction false} MulRow1()
    ensures MulRow(0xBF800800, 0x3F800C00, MulExpectation(0xBF801401, 0xBF801400), [-0x200_5003], 25)
  {
    MinusProducts25();
    MinusInexactProduct();
    InexactMinusStands();
    MulFrom(0xBF800800, 0x3F800C00, 0xBF801401, 0xBF801400, -0x200_5003, 25, PredictAll(-0x200_5003, 0, 0, 0));
  }

  // ---------------------------------------------------------------- MAD

  function MadExpectation(rn: Bits, rz: Bits, rnRn: Bits, rzRz: Bits, win: Bits): Expectation {
    Expectation(true, win, [RoundingModel(RN, rn), RoundingModel(RZ, rz), RoundingModel(RN_RN, rnRn),
                            RoundingModel(RZ_RZ, rzRz), RoundingModel(WIN_RZ, win)])
  }

  ghost predicate MadRow(a: Bits, b: Bits, c: Bits, e: Expectation, xs: seq<int>, grid: nat) {
    RowHolds([Product(a, b), Value(c)], e, xs, grid)
  }

  lemma {:induction false} MadRecorded(rn: Bits, rz: Bits, rnRn: Bits, rzRz: Bits, win: Bits, grid: nat,
                                       t: Predictions)
    requires Denotes(rn, t.rn, grid) && Denotes(rz, t.rz, grid) && Denotes(rnRn, t.rnRn, grid)
    requires Denotes(rzRz, t.rzRz, grid) && Denotes(win, t.window, grid)
    ensures Recorded(MadExpectation(rn, rz, rnRn, rzRz, win), t, grid)
  {
  }

  lemma {:induction false} MadFrom(a: Bits, b: Bits, c: Bits, e: Expectation, x: int, y: int, grid: nat, t: Predictions)
    requires Stands(Product(a, b), x, grid) && Denotes(c, y, grid) && t == PredictAll(x, y, 0, 0)
    requires Recorded(e, t, grid)
    ensures MadRow(a, b, c, e, [x, y], grid)
  {
    ForecastTwo(x, y, t);
    RowFrom([Product(a, b), Value(c)], e, [x, y], grid, t);
  }

  /** "a * b - RN(a * b), +0.75 ulp" */
  lemma {:induction false} MadRow0()
    ensures MadRow(0x3F800800, 0x3F800C00, 0xBF801401,
                   MadExpectation(0xB3000000, 0xB3000000, 0x00000000, 0xB4000000, 0xB4000000),
                   [0x200_5003, -0x200_5004], 25)
  {
    MinusProducts25();
    Residues25();
    ProductResidue();
    InexactStands();
    ZeroDenotes(25);
    var t := PredictAll(0x200_5003, -0x200_5004, 0, 0);
    MadRecorded(0xB3000000, 0xB3000000, 0x00000000, 0xB4000000, 0xB4000000, 25, t);
    MadFrom(0x3F800800, 0x3F800C00, 0xBF801401,
            MadExpectation(0xB3000000, 0xB3000000, 0x00000000, 0xB4000000, 0xB4000000),
            0x200_5003, -0x200_5004, 25, t);
  }

  /** "a * 1 + b, +0.75 ulp" */
  lemma {:induction false} MadRow1()
    ensures MadRow(0x3F800000, 0x3F800000, 0x33C00000,
                   MadExpectation(0x3F800001, 0x3F800000, 0x3F800001, 0x3F800000, 0x3F800000),
                   [0x200_0000, 3], 25)
  {
    Ones25();
    OneAndUlp();
    UnitStands(0x3F800000, 0x200_0000, 25);
    var t := PredictAll(0x200_0000, 3, 0, 0);
    MadRecorded(0x3F800001, 0x3F800000, 0x3F800001, 0x3F800000, 0x3F800000, 25, t);
    MadFrom(0x3F800000, 0x3F800000, 0x33C00000,
            MadExpectation(0x3F800001, 0x3F800000, 0x3F800001, 0x3F800000, 0x3F800000),
            0x200_0000, 3, 25, t);
  }

  /** "both inexact, -" */
  lemma {:induction false} MadRow2()
    ensures MadRow(0xBF800800, 0x3F800C00, 0xB3800000,
                   MadExpectation(0xBF801401, 0xBF801401, 0xBF801402, 0xBF801400, 0xBF801400),
                   [-0x200_5003, -2], 25)
  {
    MinusProducts25();
    Residues25();
    BothInexact();
    InexactMinusStands();
    var t := PredictAll(-0x200_5003, -2, 0, 0);
    MadRecorded(0xBF801401, 0xBF801401, 0xBF801402, 0xBF801400, 0xBF801400, 25, t);
    MadFrom(0xBF800800, 0x3F800C00, 0xB3800000,
            MadExpectation(0xBF801401, 0xBF801401, 0xBF801402, 0xBF801400, 0xBF801400),
            -0x200_5003, -2, 25, t);
  }

  /** "1 * 1 - 2^-28" */
  lemma {:induction false} MadRow3()
    ensures MadRow(0x3F800000, 0x3F800000, 0xB1800000,
                   MadExpectation(0x3F800000, 0x3F7FFFFF, 0x3F800000, 0x3F7FFFFF, 0x3F7FFFFF),
                   [0x1000_0000, -1], 28)
  {
    Patterns28();
    OneMinusTiny();
    UnitStands(0x3F800000, 0x1000_0000, 28);
    var t := PredictAll(0x1000_0000, -1, 0, 0);
    MadRecorded(0x3F800000, 0x3F7FFFFF, 0x3F800000, 0x3F7FFFFF, 0x3F7FFFFF, 28, t);
    MadFrom(0x3F800000, 0x3F800000, 0xB1800000,
            MadExpectation(0x3F800000, 0x3F7FFFFF, 0x3F800000, 0x3F7FFFFF, 0x3F7FFFFF),
            0x1000_0000, -1, 28, t);
  }

  /** "1 * 1 - (2^-24 + 2^-29)" */
  lemma {:induction false} MadRow4()
    ensures MadRow(0x3F800000, 0x3F800000, 0xB3840000,
                   MadExpectation(0x3F7FFFFF, 0x3F7FFFFE, 0x3F7FFFFF, 0x3F7FFFFE, 0x3F7FFFFF),
                   [0x2000_0000, -0x21], 29)
  {
    Patterns29();
    OneMinusSticky();
    UnitStands(0x3F800000, 0x2000_0000, 29);
    var t := PredictAll(0x2000_0000, -0x21, 0, 0);
    MadRecorded(0x3F7FFFFF, 0x3F7FFFFE, 0x3F7FFFFF, 0x3F7FFFFE, 0x3F7FFFFF, 29, t);
    MadFrom(0x3F800000, 0x3F800000, 0xB3840000,
            MadExpectation(0x3F7FFFFF, 0x3F7FFFFE, 0x3F7FFFFF, 0x3F7FFFFE, 0x3F7FFFFF),
            0x2000_0000, -0x21, 29, t);
  }

  // ---------------------------------------------------------------- dot products

  function DotExpectation(rn: Bits, rz: Bits, tpRz: Bits, seqRz: Bits, win: Bits): Expectation {
    Expectation(true, win, [RoundingModel(RN, rn), RoundingModel(RZ, rz), RoundingModel(TP_RZ, tpRz),
                            RoundingModel(SEQ_RZ, seqRz), RoundingModel(WIN_RZ, win)])
  }

  function Products3(a: Vec4, b: Vec4): seq<Operand> { [Product(a.x, b.x), Product(a.y, b.y), Product(a.z, b.z)] }

  ghost predicate Dp3Row(a: Vec4, b: Vec4, e: Expectation, xs: seq<int>, grid: nat) {
    RowHolds(Products3(a, b), e, xs, grid)
  }

  /** DPH takes 1 for the w of its first operand. */
  ghost predicate DphRow(a: Vec4, b: Vec4, e: Expectation, xs: seq<int>, grid: nat) {
    RowHolds(Products3(a, b) + [Value(b.w)], e, xs, grid)
  }

  ghost predicate Dp4Row(a: Vec4, b: Vec4, e: Expectation, xs: seq<int>, grid: nat) {
    RowHolds(Products3(a, b) + [Product(a.w, b.w)], e, xs, grid)
  }

  lemma {:induction false} DotRecorded(rn: Bits, rz: Bits, tpRz: Bits, seqRz: Bits, win: Bits, grid: nat,
                                       t: Predictions)
    requires Denotes(rn, t.rn, grid) && Denotes(rz, t.rz, grid) && Denotes(tpRz, t.rzRz, grid)
    requires Denotes(seqRz, t.inOrder, grid) && Denotes(win, t.window, grid)
    ensures Recorded(DotExpectation(rn, rz, tpRz, seqRz, win), t, grid)
  {
  }

  lemma {:induction false} Dp3From(a: Vec4, b: Vec4, e: Expectation, x: int, y: int, z: int, grid: nat, t: Predictions)
    requires Stand(Products3(a, b), [x, y, z], grid) && t == PredictAll(x, y, z, 0) && Recorded(e, t, grid)
    ensures Dp3Row(a, b, e, [x, y, z], grid)
  {
    ForecastThree(x, y, z, t);
    RowFrom(Products3(a, b), e, [x, y, z], grid, t);
  }

  lemma {:induction false} DphFrom(a: Vec4, b: Vec4, e: Expectation, x: int, y: int, z: int, w: int, grid: nat,
                                   t: Predictions)
    requires Stand(Products3(a, b), [x, y, z], grid) && Denotes(b.w, w, grid)
    requires t == PredictAll(x, y, z, w) && Recorded(e, t, grid)
    ensures DphRow(a, b, e, [x, y, z, w], grid)
  {
    ForecastFour(x, y, z, w, t);
    StandSnoc(Products3(a, b), [x, y, z], grid, Value(b.w), w);
    assert [x, y, z] + [w] == [x, y, z, w];
    RowFrom(Products3(a, b) + [Value(b.w)], e, [x, y, z, w], grid, t);
  }

  lemma {:induction false} Dp4From(a: Vec4, b: Vec4, e: Expectation, x: int, y: int, z: int, w: int, grid: nat,
                                   t: Predictions)
    requires Stand(Products3(a, b), [x, y, z], grid) && Stands(Product(a.w, b.w), w, grid)
    requires t == PredictAll(x, y, z, w) && Recorded(e, t, grid)
    ensures Dp4Row(a, b, e, [x, y, z, w], grid)
  {
    ForecastFour(x, y, z, w, t);
    StandSnoc(Products3(a, b), [x, y, z], grid, Product(a.w, b.w), w);
    assert [x, y, z] + [w] == [x, y, z, w];
    RowFrom(Products3(a, b) + [Product(a.w, b.w)], e, [x, y, z, w], grid, t);
  }

  lemma {:induction false} StandSnoc(operands: seq<Operand>, xs: seq<int>, grid: nat, o: Operand, x: int)
    requires Stand(operands, xs, grid) && Stands(o, x, grid)
    ensures Stand(operands + [o], xs + [x], grid)
  {
  }

  lemma {:induction false} StandThree(a: Vec4, b: Vec4, x: int, y: int, z: int, grid: nat)
    requires Stands(Product(a.x, b.x), x, grid) && Stands(Product(a.y, b.y), y, grid)
    requires Stands(Product(a.z, b.z), z, grid)
    ensures Stand(Products3(a, b), [x, y, z], grid)
  {
  }

  /** All three instructions of a case, when the fourth products are w for DPH and v for DP4. */
  ghost predicate DotRow(c: DotCase, x: int, y: int, z: int, w: int, v: int, grid: nat) {
    && Dp3Row(c.a, c.b, c.dp3, [x, y, z], grid)
    && DphRow(c.a, c.b, c.dph, [x, y, z, w], grid)
    && Dp4Row(c.a, c.b, c.dp4, [x, y, z, v], grid)
  }

  /** With nothing in w all three record the same. */
  lemma {:induction false} DotFrom(title: string, a: Vec4, b: Vec4, e: Expectation,
                                   x: int, y: int, z: int, grid: nat, t: Predictions)
    requires Stand(Products3(a, b), [x, y, z], grid) && a.w == 0 && b.w == 0
    requires t == PredictAll(x, y, z, 0) && Recorded(e, t, grid)
    ensures DotRow(DotCase(title, a, b, e, e, e), x, y, z, 0, 0, grid)
  {
    ZeroDenotes(grid);
    ZeroStands(0, 0, grid);
    Dp3From(a, b, e, x, y, z, grid, t);
    DphFrom(a, b, e, x, y, z, 0, grid, t);
    Dp4From(a, b, e, x, y, z, 0, grid, t);
  }

  /** "(a, RN(a * b)) . (b, -1), +0.75 ulp" */
  lemma {:induction false} DotRow0(title: string)
    ensures var e := DotExpectation(0xB3000000, 0xB3000000, 0xB4000000, 0xB4000000, 0xB4000000);
            DotRow(DotCase(title, Vec4(0x3F800800, 0x3F801401, 0, 0),
                           Vec4(0x3F800C00, 0xBF800000, 0, 0), e, e, e),
                   0x200_5003, -0x200_5004, 0, 0, 0, 25)
  {
    var a := Vec4(0x3F800800, 0x3F801401, 0, 0);
    var b := Vec4(0x3F800C00, 0xBF800000, 0, 0);
    var t := PredictAll(0x200_5003, -0x200_5004, 0, 0);
    Products25();
    Residues25();
    ProductResidue();
    InexactStands();
    MinusUnitStands(0x3F801401, -0x200_5004, 25);
    ZeroDenotes(25);
    ZeroStands(0, 0, 25);
    StandThree(a, b, 0x200_5003, -0x200_5004, 0, 25);
    DotRecorded(0xB3000000, 0xB3000000, 0xB4000000, 0xB4000000, 0xB4000000, 25, t);
    DotFrom(title, a, b, DotExpectation(0xB3000000, 0xB3000000, 0xB4000000, 0xB4000000, 0xB4000000),
            0x200_5003, -0x200_5004, 0, 25, t);
  }

  /** "(a, b, c) . (1, 1, -1), +0.75 ulp" */
  lemma {:induction false} DotRow1(title: string)
    ensures var e := DotExpectation(0xB3000000, 0xB3000000, 0xB3000000, 0xB4000000, 0xB3000000);
            DotRow(DotCase(title, Vec4(0x3F800000, 0x33C00000, 0x3F800001, 0),
                           Vec4(0x3F800000, 0x3F800000, 0xBF800000, 0), e, e, e),
                   0x200_0000, 3, -0x200_0004, 0, 0, 25)
  {
    var a := Vec4(0x3F800000, 0x33C00000, 0x3F800001, 0);
    var b := Vec4(0x3F800000, 0x3F800000, 0xBF800000, 0);
    var t := PredictAll(0x200_0000, 3, -0x200_0004, 0);
    Ones25();
    Residues25();
    ThreeAddends();
    UnitStands(0x3F800000, 0x200_0000, 25);
    UnitStands(0x33C00000, 3, 25);
    MinusUnitStands(0x3F800001, -0x200_0004, 25);
    StandThree(a, b, 0x200_0000, 3, -0x200_0004, 25);
    DotRecorded(0xB3000000, 0xB3000000, 0xB3000000, 0xB4000000, 0xB3000000, 25, t);
    DotFrom(title, a, b, DotExpectation(0xB3000000, 0xB3000000, 0xB3000000, 0xB4000000, 0xB3000000),
            0x200_0000, 3, -0x200_0004, 25, t);
  }

  /** "(a, b) . (1, 1), +0.75 ulp" */
  lemma {:induction false} DotRow2(title: string)
    ensures var e := DotExpectation(0x3F800001, 0x3F800000, 0x3F800000, 0x3F800000, 0x3F800000);
            DotRow(DotCase(title, Vec4(0x3F800000, 0x33C00000, 0, 0),
                           Vec4(0x3F800000, 0x3F800000, 0, 0), e, e, e),
                   0x200_0000, 3, 0, 0, 0, 25)
  {
    var a := Vec4(0x3F800000, 0x33C00000, 0, 0);
    var b := Vec4(0x3F800000, 0x3F800000, 0, 0);
    var t := PredictAll(0x200_0000, 3, 0, 0);
    Ones25();
    OneAndUlp();
    UnitStands(0x3F800000, 0x200_0000, 25);
    UnitStands(0x33C00000, 3, 25);
    ZeroDenotes(25);
    ZeroStands(0, 0, 25);
    StandThree(a, b, 0x200_0000, 3, 0, 25);
    DotRecorded(0x3F800001, 0x3F800000, 0x3F800000, 0x3F800000, 0x3F800000, 25, t);
    DotFrom(title, a, b, DotExpectation(0x3F800001, 0x3F800000, 0x3F800000, 0x3F800000, 0x3F800000),
            0x200_0000, 3, 0, 25, t);
  }

  /** "(a, b) . (1, 1), -0.75 ulp" */
  lemma {:induction false} DotRow3(title: string)
    ensures var e := DotExpectation(0xBF800001, 0xBF800000, 0xBF800000, 0xBF800000, 0xBF800000);
            DotRow(DotCase(title, Vec4(0xBF800000, 0xB3C00000, 0, 0),
                           Vec4(0x3F800000, 0x3F800000, 0, 0), e, e, e),
                   -0x200_0000, -3, 0, 0, 0, 25)
  {
    var a := Vec4(0xBF800000, 0xB3C00000, 0, 0);
    var b := Vec4(0x3F800000, 0x3F800000, 0, 0);
    var t := PredictAll(-0x200_0000, -3, 0, 0);
    MinusOnes25();
    MinusOneAndUlp();
    UnitStands(0xBF800000, -0x200_0000, 25);
    UnitStands(0xB3C00000, -3, 25);
    ZeroDenotes(25);
    ZeroStands(0, 0, 25);
    StandThree(a, b, -0x200_0000, -3, 0, 25);
    DotRecorded(0xBF800001, 0xBF800000, 0xBF800000, 0xBF800000, 0xBF800000, 25, t);
    DotFrom(title, a, b, DotExpectation(0xBF800001, 0xBF800000, 0xBF800000, 0xBF800000, 0xBF800000),
            -0x200_0000, -3, 0, 25, t);
  }

  /** "(a, b) . (1, 1) + w(-c), +0.75 ulp": only DPH sees the w of its second operand. */
  lemma {:induction false} DotRow4(title: string)
    ensures DotRow(DotCase(title, Vec4(0x3F800000, 0x33C00000, 0, 0), Vec4(0x3F800000, 0x3F800000, 0, 0xBF800001),
                           DotExpectation(0x3F800001, 0x3F800000, 0x3F800000, 0x3F800000, 0x3F800000),
                           DotExpectation(0xB3000000, 0xB3000000, 0xB3000000, 0xB4000000, 0xB3000000),
                           DotExpectation(0x3F800001, 0x3F800000, 0x3F800000, 0x3F800000, 0x3F800000)),
                   0x200_0000, 3, 0, -0x200_0004, 0, 25)
  {
    var a := Vec4(0x3F800000, 0x33C00000, 0, 0);
    var b := Vec4(0x3F800000, 0x3F800000, 0, 0xBF800001);
    ApartStands(a, b);
    ApartRow(a, b);
    var e := DotExpectation(0x3F800001, 0x3F800000, 0x3F800000, 0x3F800000, 0x3F800000);
    var t := PredictAll(0x200_0000, 3, 0, 0);
    Ones25();
    OneAndUlp();
    DotRecorded(0x3F800001, 0x3F800000, 0x3F800000, 0x3F800000, 0x3F800000, 25, t);
    Dp3From(a, b, e, 0x200_0000, 3, 0, 25, t);
    Dp4From(a, b, e, 0x200_0000, 3, 0, 0, 25, t);
  }

  lemma {:induction false} ApartStands(a: Vec4, b: Vec4)
    requires a == Vec4(0x3F800000, 0x33C00000, 0, 0) && b == Vec4(0x3F800000, 0x3F800000, 0, 0xBF800001)
    ensures Stand(Products3(a, b), [0x200_0000, 3, 0], 25) && Stands(Product(a.w, b.w), 0, 25)
  {
    Ones25();
    MinusOnes25();
    ZeroDenotes(25);
    UnitStands(0x3F800000, 0x200_0000, 25);
    UnitStands(0x33C00000, 3, 25);
    ZeroStands(0, 0, 25);
    ZeroStands(0xBF800001, -0x200_0004, 25);
    StandThree(a, b, 0x200_0000, 3, 0, 25);
  }

  lemma {:induction false} ApartRow(a: Vec4, b: Vec4)
    requires Stand(Products3(a, b), [0x200_0000, 3, 0], 25) && b.w == 0xBF800001
    ensures DphRow(a, b, DotExpectation(0xB3000000, 0xB3000000, 0xB3000000, 0xB4000000, 0xB3000000),
                   [0x200_0000, 3, 0, -0x200_0004], 25)
  {
    var e := DotExpectation(0xB3000000, 0xB3000000, 0xB3000000, 0xB4000000, 0xB3000000);
    var t := PredictAll(0x200_0000, 3, 0, -0x200_0004);
    MinusOnes25();
    Residues25();
    ThreeAddendsApart();
    DotRecorded(0xB3000000, 0xB3000000, 0xB3000000, 0xB4000000, 0xB3000000, 25, t);
    DphFrom(a, b, e, 0x200_0000, 3, 0, -0x200_0004, 25, t);
  }

  /** "(a, RN(a * b), 0, NaN) . (b, -1, 0, NaN), Rugby": DP3, whose result is a number, whatever w holds. */
  lemma {:induction false} DotRow5(aw: Bits, bw: Bits)
    ensures Dp3Row(Vec4(0xBF80309E, 0x42203CC6, 0, aw), Vec4(0xC2200000, 0xBF800000, 0, bw),
                   DotExpectation(0xB6000000, 0xB6000000, 0xB6800000, 0xB6800000, 0xB6800000),
                   [0xA03_CC58, -0xA03_CC60, 0], 22)
  {
    var a := Vec4(0xBF80309E, 0x42203CC6, 0, aw);
    var b := Vec4(0xC2200000, 0xBF800000, 0, bw);
    var t := PredictAll(0xA03_CC58, -0xA03_CC60, 0, 0);
    RugbyStands(a, b);
    Patterns22();
    Rugby();
    DotRecorded(0xB6000000, 0xB6000000, 0xB6800000, 0xB6800000, 0xB6800000, 22, t);
    Dp3From(a, b, DotExpectation(0xB6000000, 0xB6000000, 0xB6800000, 0xB6800000, 0xB6800000),
            0xA03_CC58, -0xA03_CC60, 0, 22, t);
  }

  lemma {:induction false} RugbyStands(a: Vec4, b: Vec4)
    requires a == Vec4(0xBF80309E, 0x42203CC6, 0, a.w) && b == Vec4(0xC2200000, 0xBF800000, 0, b.w)
    ensures Stand(Products3(a, b), [0xA03_CC58, -0xA03_CC60, 0], 22)
  {
    Factors();
    Patterns22();
    ZeroDenotes(22);
    ProductStands(0xBF80309E, -0x40_184F, 22, 0xC2200000, -0x28, 0, 0xA03_CC58, 22);
    MinusUnitStands(0x42203CC6, -0xA03_CC60, 22);
    ZeroStands(0, 0, 22);
    StandThree(a, b, 0xA03_CC58, -0xA03_CC60, 0, 22);
  }

  /** "1 + small - 1, gap 2^28" */
  lemma {:induction false} AccumulationRow0(title: string)
    ensures var e := DotExpectation(0x31800000, 0x31800000, 0x31800000, 0, 0x31800000);
            DotRow(DotCase(title, Vec4(0x3F800000, 0x31800000, 0xBF800000, 0),
                           Vec4(0x3F800000, 0x3F800000, 0x3F800000, 0), e, e, e),
                   0x1000_0000, 1, -0x1000_0000, 0, 0, 28)
  {
    var a := Vec4(0x3F800000, 0x31800000, 0xBF800000, 0);
    var b := Vec4(0x3F800000, 0x3F800000, 0x3F800000, 0);
    var t := PredictAll(0x1000_0000, 1, -0x1000_0000, 0);
    Patterns28();
    SmallInWindow();
    ZeroDenotes(28);
    UnitStands(0x3F800000, 0x1000_0000, 28);
    UnitStands(0x31800000, 1, 28);
    UnitStands(0xBF800000, -0x1000_0000, 28);
    StandThree(a, b, 0x1000_0000, 1, -0x1000_0000, 28);
    DotRecorded(0x31800000, 0x31800000, 0x31800000, 0, 0x31800000, 28, t);
    DotFrom(title, a, b, DotExpectation(0x31800000, 0x31800000, 0x31800000, 0, 0x31800000),
            0x1000_0000, 1, -0x1000_0000, 28, t);
  }

  /** "big - big + small, gap 2^64" */
  lemma {:induction false} AccumulationRow1(title: string)
    ensures var e := DotExpectation(0x2F800000, 0x2F800000, 0x2F800000, 0x2F800000, 0);
            DotRow(DotCase(title, Vec4(0x4F800000, 0xCF800000, 0x2F800000, 0),
                           Vec4(0x3F800000, 0x3F800000, 0x3F800000, 0), e, e, e),
                   0x1_0000_0000_0000_0000, -0x1_0000_0000_0000_0000, 1, 0, 0, 32)
  {
    var a := Vec4(0x4F800000, 0xCF800000, 0x2F800000, 0);
    var b := Vec4(0x3F800000, 0x3F800000, 0x3F800000, 0);
    var t := PredictAll(0x1_0000_0000_0000_0000, -0x1_0000_0000_0000_0000, 1, 0);
    Patterns32();
    SmallBelowWindow();
    ZeroDenotes(32);
    UnitStands(0x4F800000, 0x1_0000_0000_0000_0000, 32);
    UnitStands(0xCF800000, -0x1_0000_0000_0000_0000, 32);
    UnitStands(0x2F800000, 1, 32);
    StandThree(a, b, 0x1_0000_0000_0000_0000, -0x1_0000_0000_0000_0000, 1, 32);
    DotRecorded(0x2F800000, 0x2F800000, 0x2F800000, 0x2F800000, 0, 32, t);
    DotFrom(title, a, b, DotExpectation(0x2F800000, 0x2F800000, 0x2F800000, 0x2F800000, 0),
            0x1_0000_0000_0000_0000, -0x1_0000_0000_0000_0000, 1, 32, t);
  }

  /** "(1, -(2^-24 + 2^-29)) . (1, 1)" */
  lemma {:induction false} AccumulationRow2(title: string)
    ensures var e := DotExpectation(0x3F7FFFFF, 0x3F7FFFFE, 0x3F7FFFFE, 0x3F7FFFFE, 0x3F7FFFFF);
            DotRow(DotCase(title, Vec4(0x3F800000, 0xB3840000, 0, 0),
                           Vec4(0x3F800000, 0x3F800000, 0, 0), e, e, e),
                   0x2000_0000, -0x21, 0, 0, 0, 29)
  {
    var a := Vec4(0x3F800000, 0xB3840000, 0, 0);
    var b := Vec4(0x3F800000, 0x3F800000, 0, 0);
    var t := PredictAll(0x2000_0000, -0x21, 0, 0);
    Patterns29();
    OneMinusSticky();
    UnitStands(0x3F800000, 0x2000_0000, 29);
    UnitStands(0xB3840000, -0x21, 29);
    ZeroDenotes(29);
    ZeroStands(0, 0, 29);
    StandThree(a, b, 0x2000_0000, -0x21, 0, 29);
    DotRecorded(0x3F7FFFFF, 0x3F7FFFFE, 0x3F7FFFFE, 0x3F7FFFFE, 0x3F7FFFFF, 29, t);
    DotFrom(title, a, b, DotExpectation(0x3F7FFFFF, 0x3F7FFFFE, 0x3F7FFFFE, 0x3F7FFFFE, 0x3F7FFFFF),
            0x2000_0000, -0x21, 0, 29, t);
  }
}
