/** The batching loops of the rounding tests, each against a check of every case by itself. */
module VshBatches {
  import opened VshRounding
  import opened VshHarness

  /** A comparison to be made: `actual` is what the operation under test gives for the case's own operands. */
  datatype Probe = Probe(op: string, title: string, actual: Bits, expectation: Expectation) {
    function Entry(): Report { ReportOf(op, title, actual, expectation) }
  }

  function Entries(probes: seq<Probe>): seq<Report> {
    if probes == [] then [] else Entries(probes[..|probes| - 1]) + [probes[|probes| - 1].Entry()]
  }

  ghost predicate AllAcceptable(probes: seq<Probe>) {
    forall p :: p in probes ==> Acceptable(p.expectation, p.actual)
  }

  lemma {:induction false} EntriesAppend(a: seq<Probe>, b: seq<Probe>)
    ensures Entries(a + b) == Entries(a) + Entries(b)
    ensures AllAcceptable(a + b) <==> AllAcceptable(a) && AllAcceptable(b)
  {
    if b == [] {
      assert a + b == a;
    } else {
      var init := b[..|b| - 1];
      EntriesAppend(a, init);
      assert (a + b)[..|a + b| - 1] == a + init;
    }
    assert forall p :: p in a || p in b ==> p in a + b;
  }

  lemma {:induction false} EntriesOne(p: Probe)
    ensures Entries([p]) == [p.Entry()]
    ensures AllAcceptable([p]) <==> Acceptable(p.expectation, p.actual)
  {
    assert Entries([p]) == Entries([p][..0]) + [p.Entry()];
    assert p in [p];
  }

  /** One entry a probe, in order. */
  lemma {:induction false} EntriesInOrder(probes: seq<Probe>)
    ensures |Entries(probes)| == |probes|
    ensures forall i :: 0 <= i < |probes| ==> Entries(probes)[i] == probes[i].Entry()
  {
    if probes != [] { EntriesInOrder(probes[..|probes| - 1]); }
  }

  /** A run that could draw has logged every probe in order; one that could not says so and fails. */
  ghost predicate Outcome(drawn: bool, probes: seq<Probe>, before: seq<Report>, after: seq<Report>, pass: bool) {
    if drawn then after == before + Entries(probes) && (pass <==> AllAcceptable(probes))
    else after == before + [DrawFailed] && !pass
  }

  lemma {:induction false} OutcomeAppend(a: seq<Probe>, b: seq<Probe>, before: seq<Report>, middle: seq<Report>,
                                         after: seq<Report>, passA: bool, passB: bool)
    requires Outcome(true, a, before, middle, passA) && Outcome(true, b, middle, after, passB)
    ensures Outcome(true, a + b, before, after, passA && passB)
  {
    EntriesAppend(a, b);
  }

  // ---------------------------------------------------------------- cases and their probes

  /** The probes of all cases, in order. */
  function Probes<C>(f: C -> seq<Probe>, cases: seq<C>): seq<Probe> {
    if cases == [] then [] else Probes(f, cases[..|cases| - 1]) + f(cases[|cases| - 1])
  }

  lemma {:induction false} ProbesAppend<C>(f: C -> seq<Probe>, a: seq<C>, b: seq<C>)
    ensures Probes(f, a + b) == Probes(f, a) + Probes(f, b)
  {
    if b == [] {
      assert a + b == a;
    } else {
      ProbesAppend(f, a, b[..|b| - 1]);
      assert (a + b)[..|a + b| - 1] == a + b[..|b| - 1];
    }
  }

  /** The first n cases have been reported. */
  ghost predicate Reported<C>(f: C -> seq<Probe>, cases: seq<C>, n: nat, before: seq<Report>, now: seq<Report>,
                              pass: bool)
    requires n <= |cases|
  {
    Outcome(true, Probes(f, cases[..n]), before, now, pass)
  }

  lemma {:induction false} ReportedNone<C>(f: C -> seq<Probe>, cases: seq<C>, log: seq<Report>)
    ensures Reported(f, cases, 0, log, log, true)
  {
    assert Entries(Probes(f, cases[..0])) == [];
  }

  lemma {:induction false} ReportedAll<C>(f: C -> seq<Probe>, cases: seq<C>, before: seq<Report>, now: seq<Report>,
                                          pass: bool)
    requires Reported(f, cases, |cases|, before, now, pass)
    ensures Outcome(true, Probes(f, cases), before, now, pass)
  {
    assert cases[..|cases|] == cases;
  }

  lemma {:induction false} ReportedNext<C>(f: C -> seq<Probe>, cases: seq<C>, i: nat, before: seq<Report>,
                                           now: seq<Report>, pass: bool)
    requires i < |cases| && Outcome(true, Probes(f, cases[..i]) + f(cases[i]), before, now, pass)
    ensures Reported(f, cases, i + 1, before, now, pass)
  {
    assert cases[..i + 1][..i] == cases[..i];
  }

  /** A draw's cases come after those of the draws before. */
  lemma {:induction false} ReportedDraw<C>(f: C -> seq<Probe>, cases: seq<C>, first: nat, next: nat,
      before: seq<Report>, middle: seq<Report>, now: seq<Report>, passed: bool, pass: bool)
    requires first <= next <= |cases| && Reported(f, cases, first, before, middle, passed)
    requires Outcome(true, Probes(f, cases[first..next]), middle, now, pass)
    ensures Reported(f, cases, next, before, now, passed && pass)
  {
    ProbesAppend(f, cases[..first], cases[first..next]);
    OutcomeAppend(Probes(f, cases[..first]), Probes(f, cases[first..next]), before, middle, now, passed, pass);
    assert cases[..first] + cases[first..next] == cases[..next];
  }

  // ---------------------------------------------------------------- what a run finds, read off the cases

  /** The entries that a run has added. */
  function Added(before: seq<Report>, after: seq<Report>): seq<Report> {
    if before <= after then after[|before|..] else []
  }

  lemma {:induction false} OutcomeAdds(drawn: bool, probes: seq<Probe>, before: seq<Report>, after: seq<Report>,
                                       pass: bool)
    requires Outcome(drawn, probes, before, after, pass)
    ensures before <= after
    ensures if drawn then Added(before, after) == Entries(probes) && (pass <==> AllAcceptable(probes))
            else Added(before, after) == [DrawFailed] && !pass
  {
  }

  /** A probe that its case accepts, and the entry about it. */
  lemma {:induction false} ProbeReads(probes: seq<Probe>, k: nat, p: Probe)
    requires k < |probes| && probes[k] == p
    ensures |Entries(probes)| == |probes| && Logged(Entries(probes)[k], p.op, p.title, p.actual, p.expectation)
    ensures AllAcceptable(probes) && p.expectation.checked ==> p.actual == p.expectation.expected
  {
    EntriesInOrder(probes);
    ReportIsLogged(p.op, p.title, p.actual, p.expectation);
    assert p in probes;
  }

  lemma {:induction false} OneProbeAt<C>(f: C -> seq<Probe>, cases: seq<C>, i: nat)
    requires i < |cases| && forall c :: |f(c)| == 1
    ensures |Probes(f, cases)| == |cases| && Probes(f, cases)[i] == f(cases[i])[0]
  {
    var init := cases[..|cases| - 1];
    if i < |init| { OneProbeAt(f, init, i); } else { OneProbeEach(f, init); }
  }

  lemma {:induction false} OneProbeEach<C>(f: C -> seq<Probe>, cases: seq<C>)
    requires forall c :: |f(c)| == 1
    ensures |Probes(f, cases)| == |cases|
  {
    if cases != [] { OneProbeEach(f, cases[..|cases| - 1]); }
  }

  predicate BinaryAgrees(op: (Bits, Bits) -> Bits, c: BinaryCase) {
    c.expectation.checked ==> op(c.a, c.b) == c.expectation.expected
  }

  /** Entry i is about case i. */
  ghost predicate BinariesLogged(op: (Bits, Bits) -> Bits, name: string, cases: seq<BinaryCase>, log: seq<Report>) {
    |log| == |cases| && forall i :: 0 <= i < |cases| ==>
      Logged(log[i], name, cases[i].title, op(cases[i].a, cases[i].b), cases[i].expectation)
  }

  lemma {:induction false} BinariesRead(op: (Bits, Bits) -> Bits, name: string, cases: seq<BinaryCase>)
    ensures AllAcceptable(Probes(BinaryProbes(op, name), cases)) <==>
            forall i :: 0 <= i < |cases| ==> BinaryAgrees(op, cases[i])
    ensures BinariesLogged(op, name, cases, Entries(Probes(BinaryProbes(op, name), cases)))
  {
    var f := BinaryProbes(op, name);
    var probes := Probes(f, cases);
    OneProbeEach(f, cases);
    EntriesInOrder(probes);
    forall i | 0 <= i < |cases|
      ensures probes[i] == Probe(name, cases[i].title, op(cases[i].a, cases[i].b), cases[i].expectation)
      ensures Logged(Entries(probes)[i], name, cases[i].title, op(cases[i].a, cases[i].b), cases[i].expectation)
      ensures AllAcceptable(probes) ==> BinaryAgrees(op, cases[i])
    {
      OneProbeAt(f, cases, i);
      ProbeReads(probes, i, f(cases[i])[0]);
    }
  }

  predicate MadAgrees(mad: (Bits, Bits, Bits) -> Bits, c: MadCase) {
    c.expectation.checked ==> mad(c.a, c.b, c.c) == c.expectation.expected
  }

  ghost predicate MadsLogged(mad: (Bits, Bits, Bits) -> Bits, cases: seq<MadCase>, log: seq<Report>) {
    |log| == |cases| && forall i :: 0 <= i < |cases| ==>
      Logged(log[i], "MAD", cases[i].title, mad(cases[i].a, cases[i].b, cases[i].c), cases[i].expectation)
  }

  lemma {:induction false} MadsRead(alu: Alu, cases: seq<MadCase>)
    ensures AllAcceptable(Probes(MadProbes(alu), cases)) <==>
            forall i :: 0 <= i < |cases| ==> MadAgrees(alu.mad, cases[i])
    ensures MadsLogged(alu.mad, cases, Entries(Probes(MadProbes(alu), cases)))
  {
    var f := MadProbes(alu);
    var probes := Probes(f, cases);
    OneProbeEach(f, cases);
    EntriesInOrder(probes);
    forall i | 0 <= i < |cases|
      ensures probes[i] == Probe("MAD", cases[i].title, alu.mad(cases[i].a, cases[i].b, cases[i].c),
                                 cases[i].expectation)
      ensures Logged(Entries(probes)[i], "MAD", cases[i].title, alu.mad(cases[i].a, cases[i].b, cases[i].c),
                     cases[i].expectation)
      ensures AllAcceptable(probes) ==> MadAgrees(alu.mad, cases[i])
    {
      OneProbeAt(f, cases, i);
      ProbeReads(probes, i, f(cases[i])[0]);
    }
  }

  /** Every instruction is held against its own expectation. */
  predicate DotAgrees(alu: Alu, c: DotCase) {
    && (c.dp3.checked ==> alu.dp3(c.a, c.b) == c.dp3.expected)
    && (c.dph.checked ==> alu.dph(c.a, c.b) == c.dph.expected)
    && (c.dp4.checked ==> alu.dp4(c.a, c.b) == c.dp4.expected)
  }

  predicate DotLogged(alu: Alu, c: DotCase, r: Report, s: Report, t: Report) {
    && Logged(r, "DP3", c.title, alu.dp3(c.a, c.b), c.dp3)
    && Logged(s, "DPH", c.title, alu.dph(c.a, c.b), c.dph)
    && Logged(t, "DP4", c.title, alu.dp4(c.a, c.b), c.dp4)
  }

  ghost predicate DotsLogged(alu: Alu, cases: seq<DotCase>, log: seq<Report>) {
    |log| == 3 * |cases| && forall i :: 0 <= i < |cases| ==>
      DotLogged(alu, cases[i], log[3 * i], log[3 * i + 1], log[3 * i + 2])
  }

  lemma {:induction false} ThreeProbesEach(alu: Alu, cases: seq<DotCase>)
    ensures |Probes(DotProbes(alu), cases)| == 3 * |cases|
  {
    if cases != [] { ThreeProbesEach(alu, cases[..|cases| - 1]); }
  }

  lemma {:induction false} ThreeProbesAt(alu: Alu, cases: seq<DotCase>, i: nat)
    requires i < |cases|
    ensures |Probes(DotProbes(alu), cases)| == 3 * |cases|
    ensures var probes, triple := Probes(DotProbes(alu), cases), DotProbes(alu)(cases[i]);
            probes[3 * i] == triple[0] && probes[3 * i + 1] == triple[1] && probes[3 * i + 2] == triple[2]
  {
    var init := cases[..|cases| - 1];
    ThreeProbesEach(alu, init);
    if i < |init| { ThreeProbesAt(alu, init, i); }
  }

  lemma {:induction false} TripleReads(alu: Alu, c: DotCase, probes: seq<Probe>, k: nat)
    requires k + 3 <= |probes|
    requires probes[k] == Probe("DP3", c.title, alu.dp3(c.a, c.b), c.dp3)
    requires probes[k + 1] == Probe("DPH", c.title, alu.dph(c.a, c.b), c.dph)
    requires probes[k + 2] == Probe("DP4", c.title, alu.dp4(c.a, c.b), c.dp4)
    ensures |Entries(probes)| == |probes|
    ensures DotLogged(alu, c, Entries(probes)[k], Entries(probes)[k + 1], Entries(probes)[k + 2])
    ensures AllAcceptable(probes) ==> DotAgrees(alu, c)
  {
    ProbeReads(probes, k, probes[k]);
    ProbeReads(probes, k + 1, probes[k + 1]);
    ProbeReads(probes, k + 2, probes[k + 2]);
  }

  lemma {:induction false} DotReads(alu: Alu, cases: seq<DotCase>, i: nat)
    requires i < |cases|
    ensures var probes := Probes(DotProbes(alu), cases);
            |Entries(probes)| == 3 * |cases| &&
            DotLogged(alu, cases[i], Entries(probes)[3 * i], Entries(probes)[3 * i + 1], Entries(probes)[3 * i + 2]) &&
            (AllAcceptable(probes) ==> DotAgrees(alu, cases[i]))
  {
    ThreeProbesAt(alu, cases, i);
    TripleReads(alu, cases[i], Probes(DotProbes(alu), cases), 3 * i);
  }

  lemma {:induction false} DotsAcceptable(alu: Alu, cases: seq<DotCase>, j: nat)
    requires j < 3 * |cases| && DotAgrees(alu, cases[j / 3])
    ensures |Probes(DotProbes(alu), cases)| == 3 * |cases|
    ensures var p := Probes(DotProbes(alu), cases)[j]; Acceptable(p.expectation, p.actual)
  {
    ThreeProbesAt(alu, cases, j / 3);
  }

  lemma {:induction false} DotsRead(alu: Alu, cases: seq<DotCase>)
    ensures AllAcceptable(Probes(DotProbes(alu), cases)) <==>
            forall i :: 0 <= i < |cases| ==> DotAgrees(alu, cases[i])
    ensures DotsLogged(alu, cases, Entries(Probes(DotProbes(alu), cases)))
  {
    var probes := Probes(DotProbes(alu), cases);
    ThreeProbesEach(alu, cases);
    EntriesInOrder(probes);
    forall i | 0 <= i < |cases|
      ensures DotLogged(alu, cases[i], Entries(probes)[3 * i], Entries(probes)[3 * i + 1], Entries(probes)[3 * i + 2])
      ensures AllAcceptable(probes) ==> DotAgrees(alu, cases[i])
    {
      DotReads(alu, cases, i);
    }
    if forall i :: 0 <= i < |cases| ==> DotAgrees(alu, cases[i]) {
      forall j | 0 <= j < |probes| ensures Acceptable(probes[j].expectation, probes[j].actual) {
        assert 0 <= j / 3 < |cases|;
        DotsAcceptable(alu, cases, j);
      }
    }
  }

  // ---------------------------------------------------------------- inputs

  function Blank(n: nat): (inputs: seq<VshConstant>)
    ensures |inputs| == n && forall k :: 0 <= k < n ==> inputs[k] == VshConstant(INPUT_BASE + k, Zero())
  {
    seq(n, k requires 0 <= k < n => VshConstant(INPUT_BASE + k, Zero()))
  }

  /** inputs[k].bits[lane] = v */
  function Put(inputs: seq<VshConstant>, k: nat, lane: nat, v: Bits): (r: seq<VshConstant>)
    requires k < |inputs| && lane < 4
    ensures |r| == |inputs| && forall j :: 0 <= j < |r| ==> r[j].index == inputs[j].index
    ensures forall j, l :: 0 <= j < |r| && 0 <= l < 4 ==>
      r[j].bits.Get(l) == if j == k && l == lane then v else inputs[j].bits.Get(l)
  {
    inputs[k := inputs[k].(bits := inputs[k].bits.Set(lane, v))]
  }

  // ---------------------------------------------------------------- ADD and MUL

  const CASES_PER_DRAW: nat := 16

  function BinaryOp(alu: Alu, shader: Shader): (Bits, Bits) -> Bits { if shader.RoundMul? then alu.mul else alu.add }

  function BinaryProbes(f: (Bits, Bits) -> Bits, op: string): BinaryCase -> seq<Probe> {
    (c: BinaryCase) => [Probe(op, c.title, f(c.a, c.b), c.expectation)]
  }

  /** Case j uses component j % 4 of vectors j / 4. */
  ghost predicate BinaryLaidOut(batch: seq<BinaryCase>, inputs: seq<VshConstant>) {
    |batch| <= CASES_PER_DRAW && |inputs| == 8 && Consecutive(inputs) &&
    forall j :: 0 <= j < |batch| ==>
      inputs[j / 4 * 2].bits.Get(j % 4) == batch[j].a && inputs[j / 4 * 2 + 1].bits.Get(j % 4) == batch[j].b
  }

  method LayOutBinary(batch: seq<BinaryCase>) returns (inputs: seq<VshConstant>)
    requires |batch| <= CASES_PER_DRAW
    ensures BinaryLaidOut(batch, inputs)
  {
    inputs := Blank(8);
    for i := 0 to |batch|
      invariant BinaryLaidOut(batch[..i], inputs)
    {
      inputs := PutBinary(inputs, batch, i);
    }
    assert batch[..|batch|] == batch;
  }

  method PutBinary(given: seq<VshConstant>, batch: seq<BinaryCase>, i: nat) returns (inputs: seq<VshConstant>)
    requires i < |batch| <= CASES_PER_DRAW && BinaryLaidOut(batch[..i], given)
    ensures BinaryLaidOut(batch[..i + 1], inputs)
  {
    ghost var k, lane := i / 4 * 2, i % 4;
    inputs := Put(given, i / 4 * 2, i % 4, batch[i].a);
    inputs := Put(inputs, i / 4 * 2 + 1, i % 4, batch[i].b);
    assert OnlyLane(given, inputs, k, k + 1, lane);
    BinaryStays(given, inputs, batch, i);
  }

  /** t is s except for one component of vectors k to last. */
  ghost predicate OnlyLane(s: seq<VshConstant>, t: seq<VshConstant>, k: nat, last: nat, lane: nat) {
    && |t| == |s| && (forall j :: 0 <= j < |s| ==> t[j].index == s[j].index)
    && forall j, l :: 0 <= j < |s| && 0 <= l < 4 && !(l == lane && k <= j <= last) ==>
      t[j].bits.Get(l) == s[j].bits.Get(l)
  }

  lemma {:induction false} BinaryStays(given: seq<VshConstant>, inputs: seq<VshConstant>, batch: seq<BinaryCase>,
      i: nat)
    requires i < |batch| <= CASES_PER_DRAW && BinaryLaidOut(batch[..i], given)
    requires OnlyLane(given, inputs, i / 4 * 2, i / 4 * 2 + 1, i % 4)
    requires inputs[i / 4 * 2].bits.Get(i % 4) == batch[i].a && inputs[i / 4 * 2 + 1].bits.Get(i % 4) == batch[i].b
    ensures BinaryLaidOut(batch[..i + 1], inputs)
  {
    forall j | 0 <= j < i
      ensures inputs[j / 4 * 2].bits.Get(j % 4) == batch[j].a && inputs[j / 4 * 2 + 1].bits.Get(j % 4) == batch[j].b
    {
      var k, lane := j / 4 * 2, j % 4;
      assert batch[..i][j] == batch[j];
      assert k != i / 4 * 2 || lane != i % 4;
      assert k + 1 < i / 4 * 2 || k == i / 4 * 2;
    }
  }

  /** Every lane of the outputs belongs to its own case. */
  lemma {:induction false} BinaryLanes(alu: Alu, shader: Shader, batch: seq<BinaryCase>, inputs: seq<VshConstant>,
      f: File, g: File)
    requires shader.RoundMul? || shader.RoundAdd?
    requires BinaryLaidOut(batch, inputs)
    requires Shaded(alu, shader, Filled(LoadAll(f, inputs), OUTPUT_BASE, 4), g)
    ensures forall j :: 0 <= j < |batch| ==>
      g[OUTPUT_BASE + j / 4].Get(j % 4) == BinaryOp(alu, shader)(batch[j].a, batch[j].b)
  {
    var h := Filled(LoadAll(f, inputs), OUTPUT_BASE, 4);
    InputsArrive(f, inputs, 4);
    forall j | 0 <= j < |batch|
      ensures g[OUTPUT_BASE + j / 4].Get(j % 4) == BinaryOp(alu, shader)(batch[j].a, batch[j].b)
    {
      var k := j / 4;
      assert g[OUTPUT_BASE + k] == Output(alu, shader, h, k);
      assert h[INPUT_BASE + 2 * k] == inputs[j / 4 * 2].bits;
      assert h[INPUT_BASE + (2 * k + 1)] == inputs[j / 4 * 2 + 1].bits;
    }
  }

  /** Reports one probe after those in `done`. */
  method ReportProbe(gpu: Gpu, ghost before: seq<Report>, ghost done: seq<Probe>, p: Probe, passed: bool)
    returns (pass: bool)
    requires Outcome(true, done, before, gpu.reports, passed)
    modifies gpu`reports
    ensures Outcome(true, done + [p], before, gpu.reports, pass)
  {
    var ok := gpu.ReportRounding(p.op, p.title, p.actual, p.expectation);
    EntriesOne(p);
    EntriesAppend(done, [p]);
    pass := passed && ok;
  }

  method ReportBinary(gpu: Gpu, ghost f: (Bits, Bits) -> Bits, op: string, batch: seq<BinaryCase>, outputs: seq<Vec4>)
    returns (pass: bool)
    requires |batch| <= CASES_PER_DRAW && |outputs| == 4
    requires forall j :: 0 <= j < |batch| ==> outputs[j / 4].Get(j % 4) == f(batch[j].a, batch[j].b)
    modifies gpu`reports
    ensures Outcome(true, Probes(BinaryProbes(f, op), batch), old(gpu.reports), gpu.reports, pass)
  {
    pass := true;
    ghost var probes := BinaryProbes(f, op);
    ReportedNone(probes, batch, gpu.reports);
    for i := 0 to |batch|
      invariant Reported(probes, batch, i, old(gpu.reports), gpu.reports, pass)
    {
      var c := batch[i];
      var p := Probe(op, c.title, outputs[i / 4].Get(i % 4), c.expectation);
      assert probes(c) == [p];
      pass := ReportProbe(gpu, old(gpu.reports), Probes(probes, batch[..i]), p, pass);
      ReportedNext(probes, batch, i, old(gpu.reports), gpu.reports, pass);
    }
    ReportedAll(probes, batch, old(gpu.reports), gpu.reports, pass);
  }

  /** One draw. */
  method DrawBinary(gpu: Gpu, shader: Shader, op: string, batch: seq<BinaryCase>) returns (drawn: bool, pass: bool)
    requires shader.RoundMul? || shader.RoundAdd?
    requires |batch| <= CASES_PER_DRAW
    modifies gpu`file, gpu`reports
    ensures drawn == gpu.ready
    ensures Outcome(drawn, Probes(BinaryProbes(BinaryOp(gpu.alu, shader), op), batch),
                    old(gpu.reports), gpu.reports, pass)
  {
    var inputs := LayOutBinary(batch);
    ghost var before := gpu.file;
    var ok, outputs := gpu.RunCompute(shader, inputs, OUTPUT_BASE, 4);
    if !ok {
      gpu.reports := gpu.reports + [DrawFailed];
      return false, false;
    }
    BinaryLanes(gpu.alu, shader, batch, inputs, before, gpu.file);
    pass := ReportBinary(gpu, BinaryOp(gpu.alu, shader), op, batch, outputs);
    drawn := true;
  }

  /** Every case once and in order, whatever their number. */
  method RunBinaryCases(gpu: Gpu, shader: Shader, op: string, cases: seq<BinaryCase>) returns (pass: bool)
    requires shader.RoundMul? || shader.RoundAdd?
    modifies gpu`file, gpu`reports
    ensures Outcome(gpu.ready || cases == [], Probes(BinaryProbes(BinaryOp(gpu.alu, shader), op), cases),
                    old(gpu.reports), gpu.reports, pass)
    ensures old(gpu.reports) <= gpu.reports
    ensures !(gpu.ready || cases == []) ==> !pass && Added(old(gpu.reports), gpu.reports) == [DrawFailed]
    ensures gpu.ready || cases == [] ==>
      var f := if shader.RoundMul? then gpu.alu.mul else gpu.alu.add;
      (pass <==> forall i :: 0 <= i < |cases| ==> BinaryAgrees(f, cases[i])) &&
      BinariesLogged(f, op, cases, Added(old(gpu.reports), gpu.reports))
  {
    pass := true;
    var first := 0;
    ghost var probes := BinaryProbes(BinaryOp(gpu.alu, shader), op);
    ReportedNone(probes, cases, gpu.reports);
    while first < |cases|
      invariant first <= |cases| && (gpu.ready || gpu.reports == old(gpu.reports))
      invariant Reported(probes, cases, first, old(gpu.reports), gpu.reports, pass)
    {
      var drawn;
      first, drawn, pass := NextBinaryDraw(gpu, shader, op, cases, first, pass, old(gpu.reports));
      if !drawn {
        OutcomeAdds(false, Probes(probes, cases), old(gpu.reports), gpu.reports, false);
        return false;
      }
    }
    ReportedAll(probes, cases, old(gpu.reports), gpu.reports, pass);
    OutcomeAdds(true, Probes(probes, cases), old(gpu.reports), gpu.reports, pass);
    BinariesRead(BinaryOp(gpu.alu, shader), op, cases);
  }

  /** One turn of the loop. */
  method NextBinaryDraw(gpu: Gpu, shader: Shader, op: string, cases: seq<BinaryCase>, first: nat, passed: bool,
      ghost before: seq<Report>)
    returns (next: nat, drawn: bool, pass: bool)
    requires shader.RoundMul? || shader.RoundAdd?
    requires first < |cases|
    requires Reported(BinaryProbes(BinaryOp(gpu.alu, shader), op), cases, first, before, gpu.reports, passed)
    modifies gpu`file, gpu`reports
    ensures drawn == gpu.ready && first < next <= |cases|
    ensures drawn ==> Reported(BinaryProbes(BinaryOp(gpu.alu, shader), op), cases, next, before, gpu.reports, pass)
    ensures !drawn ==> gpu.reports == old(gpu.reports) + [DrawFailed]
  {
    next := if |cases| - first < CASES_PER_DRAW then |cases| else first + CASES_PER_DRAW;
    ghost var middle := gpu.reports;
    var all;
    drawn, all := DrawBinary(gpu, shader, op, cases[first..next]);
    if drawn {
      ReportedDraw(BinaryProbes(BinaryOp(gpu.alu, shader), op), cases, first, next,
                   before, middle, gpu.reports, passed, all);
    }
    pass := passed && all;
  }

  // ---------------------------------------------------------------- MAD

  function MadProbes(alu: Alu): MadCase -> seq<Probe> {
    (c: MadCase) => [Probe("MAD", c.title, alu.mad(c.a, c.b, c.c), c.expectation)]
  }

  ghost predicate MadLaidOut(batch: seq<MadCase>, inputs: seq<VshConstant>) {
    |batch| <= CASES_PER_DRAW && |inputs| == 12 && Consecutive(inputs) &&
    forall j :: 0 <= j < |batch| ==>
      inputs[j / 4 * 3].bits.Get(j % 4) == batch[j].a && inputs[j / 4 * 3 + 1].bits.Get(j % 4) == batch[j].b &&
      inputs[j / 4 * 3 + 2].bits.Get(j % 4) == batch[j].c
  }

  method LayOutMad(batch: seq<MadCase>) returns (inputs: seq<VshConstant>)
    requires |batch| <= CASES_PER_DRAW
    ensures MadLaidOut(batch, inputs)
  {
    inputs := Blank(12);
    for i := 0 to |batch|
      invariant MadLaidOut(batch[..i], inputs)
    {
      inputs := PutMad(inputs, batch, i);
    }
    assert batch[..|batch|] == batch;
  }

  method PutMad(given: seq<VshConstant>, batch: seq<MadCase>, i: nat) returns (inputs: seq<VshConstant>)
    requires i < |batch| <= CASES_PER_DRAW && MadLaidOut(batch[..i], given)
    ensures MadLaidOut(batch[..i + 1], inputs)
  {
    ghost var k, lane := i / 4 * 3, i % 4;
    inputs := Put(given, i / 4 * 3, i % 4, batch[i].a);
    inputs := Put(inputs, i / 4 * 3 + 1, i % 4, batch[i].b);
    inputs := Put(inputs, i / 4 * 3 + 2, i % 4, batch[i].c);
    assert OnlyLane(given, inputs, k, k + 2, lane);
    MadStays(given, inputs, batch, i);
  }

  lemma {:induction false} MadStays(given: seq<VshConstant>, inputs: seq<VshConstant>, batch: seq<MadCase>, i: nat)
    requires i < |batch| <= CASES_PER_DRAW && MadLaidOut(batch[..i], given)
    requires OnlyLane(given, inputs, i / 4 * 3, i / 4 * 3 + 2, i % 4)
    requires inputs[i / 4 * 3].bits.Get(i % 4) == batch[i].a && inputs[i / 4 * 3 + 1].bits.Get(i % 4) == batch[i].b
    requires inputs[i / 4 * 3 + 2].bits.Get(i % 4) == batch[i].c
    ensures MadLaidOut(batch[..i + 1], inputs)
  {
    forall j | 0 <= j < i
      ensures inputs[j / 4 * 3].bits.Get(j % 4) == batch[j].a && inputs[j / 4 * 3 + 1].bits.Get(j % 4) == batch[j].b
      ensures inputs[j / 4 * 3 + 2].bits.Get(j % 4) == batch[j].c
    {
      var k, lane := j / 4 * 3, j % 4;
      assert batch[..i][j] == batch[j];
      assert k != i / 4 * 3 || lane != i % 4;
      assert k + 2 < i / 4 * 3 || k == i / 4 * 3;
    }
  }

  lemma {:induction false} MadLanes(alu: Alu, batch: seq<MadCase>, inputs: seq<VshConstant>, f: File, g: File)
    requires MadLaidOut(batch, inputs)
    requires Shaded(alu, RoundMad, Filled(LoadAll(f, inputs), OUTPUT_BASE, 4), g)
    ensures forall j :: 0 <= j < |batch| ==>
      g[OUTPUT_BASE + j / 4].Get(j % 4) == alu.mad(batch[j].a, batch[j].b, batch[j].c)
  {
    var h := Filled(LoadAll(f, inputs), OUTPUT_BASE, 4);
    InputsArrive(f, inputs, 4);
    forall j | 0 <= j < |batch|
      ensures g[OUTPUT_BASE + j / 4].Get(j % 4) == alu.mad(batch[j].a, batch[j].b, batch[j].c)
    {
      var k := j / 4;
      assert g[OUTPUT_BASE + k] == Output(alu, RoundMad, h, k);
      assert h[INPUT_BASE + 3 * k] == inputs[k * 3].bits && h[INPUT_BASE + (3 * k + 1)] == inputs[k * 3 + 1].bits;
      assert h[INPUT_BASE + (3 * k + 2)] == inputs[k * 3 + 2].bits;
    }
  }

  method ReportMad(gpu: Gpu, batch: seq<MadCase>, outputs: seq<Vec4>) returns (pass: bool)
    requires |batch| <= CASES_PER_DRAW && |outputs| == 4
    requires forall j :: 0 <= j < |batch| ==>
      outputs[j / 4].Get(j % 4) == gpu.alu.mad(batch[j].a, batch[j].b, batch[j].c)
    modifies gpu`reports
    ensures Outcome(true, Probes(MadProbes(gpu.alu), batch), old(gpu.reports), gpu.reports, pass)
  {
    pass := true;
    ghost var probes := MadProbes(gpu.alu);
    ReportedNone(probes, batch, gpu.reports);
    for i := 0 to |batch|
      invariant Reported(probes, batch, i, old(gpu.reports), gpu.reports, pass)
    {
      var c := batch[i];
      var p := Probe("MAD", c.title, outputs[i / 4].Get(i % 4), c.expectation);
      assert probes(c) == [p];
      pass := ReportProbe(gpu, old(gpu.reports), Probes(probes, batch[..i]), p, pass);
      ReportedNext(probes, batch, i, old(gpu.reports), gpu.reports, pass);
    }
    ReportedAll(probes, batch, old(gpu.reports), gpu.reports, pass);
  }

  method DrawMad(gpu: Gpu, batch: seq<MadCase>) returns (drawn: bool, pass: bool)
    requires |batch| <= CASES_PER_DRAW
    modifies gpu`file, gpu`reports
    ensures drawn == gpu.ready
    ensures Outcome(drawn, Probes(MadProbes(gpu.alu), batch), old(gpu.reports), gpu.reports, pass)
  {
    var inputs := LayOutMad(batch);
    ghost var before := gpu.file;
    var ok, outputs := gpu.RunCompute(RoundMad, inputs, OUTPUT_BASE, 4);
    if !ok {
      gpu.reports := gpu.reports + [DrawFailed];
      return false, false;
    }
    MadLanes(gpu.alu, batch, inputs, before, gpu.file);
    pass := ReportMad(gpu, batch, outputs);
    drawn := true;
  }

  method RunMadCases(gpu: Gpu, cases: seq<MadCase>) returns (pass: bool)
    modifies gpu`file, gpu`reports
    ensures Outcome(gpu.ready || cases == [], Probes(MadProbes(gpu.alu), cases),
                    old(gpu.reports), gpu.reports, pass)
    ensures old(gpu.reports) <= gpu.reports
    ensures !(gpu.ready || cases == []) ==> !pass && Added(old(gpu.reports), gpu.reports) == [DrawFailed]
    ensures gpu.ready || cases == [] ==>
      (pass <==> forall i :: 0 <= i < |cases| ==> MadAgrees(gpu.alu.mad, cases[i])) &&
      MadsLogged(gpu.alu.mad, cases, Added(old(gpu.reports), gpu.reports))
  {
    pass := true;
    var first := 0;
    ghost var probes := MadProbes(gpu.alu);
    ReportedNone(probes, cases, gpu.reports);
    while first < |cases|
      invariant first <= |cases| && (gpu.ready || gpu.reports == old(gpu.reports))
      invariant Reported(probes, cases, first, old(gpu.reports), gpu.reports, pass)
    {
      var drawn;
      first, drawn, pass := NextMadDraw(gpu, cases, first, pass, old(gpu.reports));
      if !drawn {
        OutcomeAdds(false, Probes(probes, cases), old(gpu.reports), gpu.reports, false);
        return false;
      }
    }
    ReportedAll(probes, cases, old(gpu.reports), gpu.reports, pass);
    OutcomeAdds(true, Probes(probes, cases), old(gpu.reports), gpu.reports, pass);
    MadsRead(gpu.alu, cases);
  }

  /** One turn of the loop. */
  method NextMadDraw(gpu: Gpu, cases: seq<MadCase>, first: nat, passed: bool,
      ghost before: seq<Report>)
    returns (next: nat, drawn: bool, pass: bool)
    requires first < |cases|
    requires Reported(MadProbes(gpu.alu), cases, first, before, gpu.reports, passed)
    modifies gpu`file, gpu`reports
    ensures drawn == gpu.ready && first < next <= |cases|
    ensures drawn ==> Reported(MadProbes(gpu.alu), cases, next, before, gpu.reports, pass)
    ensures !drawn ==> gpu.reports == old(gpu.reports) + [DrawFailed]
  {
    next := if |cases| - first < CASES_PER_DRAW then |cases| else first + CASES_PER_DRAW;
    ghost var middle := gpu.reports;
    var all;
    drawn, all := DrawMad(gpu, cases[first..next]);
    if drawn {
      ReportedDraw(MadProbes(gpu.alu), cases, first, next, before, middle, gpu.reports, passed, all);
    }
    pass := passed && all;
  }

  // ---------------------------------------------------------------- DP3, DPH and DP4

  const DOT_CASES_PER_DRAW: nat := 4

  /** Three comparisons a case. */
  function DotProbes(alu: Alu): DotCase -> seq<Probe> {
    (c: DotCase) => [Probe("DP3", c.title, alu.dp3(c.a, c.b), c.dp3),
                     Probe("DPH", c.title, alu.dph(c.a, c.b), c.dph),
                     Probe("DP4", c.title, alu.dp4(c.a, c.b), c.dp4)]
  }

  ghost predicate DotLaidOut(batch: seq<DotCase>, inputs: seq<VshConstant>) {
    |batch| <= DOT_CASES_PER_DRAW && |inputs| == 8 && Consecutive(inputs) &&
    forall j :: 0 <= j < |batch| ==> inputs[j * 2].bits == batch[j].a && inputs[j * 2 + 1].bits == batch[j].b
  }

  method LayOutDot(batch: seq<DotCase>) returns (inputs: seq<VshConstant>)
    requires |batch| <= DOT_CASES_PER_DRAW
    ensures DotLaidOut(batch, inputs)
  {
    inputs := Blank(8);
    for i := 0 to |batch|
      invariant DotLaidOut(batch[..i], inputs)
    {
      ghost var filled := inputs;
      for j := 0 to 4
        invariant |inputs| == 8 && Consecutive(inputs)
        invariant forall k :: 0 <= k < 8 && k != i * 2 && k != i * 2 + 1 ==> inputs[k] == filled[k]
        invariant forall l :: 0 <= l < j ==>
          inputs[i * 2].bits.Get(l) == batch[i].a.Get(l) && inputs[i * 2 + 1].bits.Get(l) == batch[i].b.Get(l)
      {
        ghost var last := inputs;
        inputs := Put(inputs, i * 2, j, batch[i].a.Get(j));
        inputs := Put(inputs, i * 2 + 1, j, batch[i].b.Get(j));
        PutElsewhere(last, inputs, i);
      }
      SameComponents(inputs[i * 2].bits, batch[i].a);
      SameComponents(inputs[i * 2 + 1].bits, batch[i].b);
    }
    assert batch[..|batch|] == batch;
  }

  lemma {:induction false} PutElsewhere(s: seq<VshConstant>, t: seq<VshConstant>, i: nat)
    requires |s| == |t| && forall k :: 0 <= k < |s| ==> s[k].index == t[k].index
    requires forall k, l :: 0 <= k < |s| && 0 <= l < 4 && k != i * 2 && k != i * 2 + 1 ==>
      s[k].bits.Get(l) == t[k].bits.Get(l)
    ensures forall k :: 0 <= k < |s| && k != i * 2 && k != i * 2 + 1 ==> s[k] == t[k]
  {
    forall k | 0 <= k < |s| && k != i * 2 && k != i * 2 + 1
      ensures s[k] == t[k]
    {
      SameComponents(s[k].bits, t[k].bits);
    }
  }

  /** The results are transposed: component j of the three outputs belongs to case j. */
  lemma {:induction false} DotLanes(alu: Alu, batch: seq<DotCase>, inputs: seq<VshConstant>, f: File, g: File)
    requires DotLaidOut(batch, inputs)
    requires Shaded(alu, RoundDot, Filled(LoadAll(f, inputs), OUTPUT_BASE, 3), g)
    ensures forall j :: 0 <= j < |batch| ==>
      g[OUTPUT_BASE].Get(j) == alu.dp3(batch[j].a, batch[j].b) &&
      g[OUTPUT_BASE + 1].Get(j) == alu.dph(batch[j].a, batch[j].b) &&
      g[OUTPUT_BASE + 2].Get(j) == alu.dp4(batch[j].a, batch[j].b)
  {
    var h := Filled(LoadAll(f, inputs), OUTPUT_BASE, 3);
    InputsArrive(f, inputs, 3);
    assert g[188] == PerPair(alu.dp3, h) && g[189] == PerPair(alu.dph, h) && g[190] == PerPair(alu.dp4, h);
    forall j | 0 <= j < |batch|
      ensures h[INPUT_BASE + 2 * j] == batch[j].a && h[INPUT_BASE + 2 * j + 1] == batch[j].b
    {
      assert h[INPUT_BASE + (2 * j)] == inputs[j * 2].bits && h[INPUT_BASE + (2 * j + 1)] == inputs[j * 2 + 1].bits;
    }
  }

  method ReportTriple(gpu: Gpu, ghost before: seq<Report>, ghost done: seq<Probe>, c: DotCase, x: Bits, y: Bits,
      z: Bits, passed: bool)
    returns (pass: bool)
    requires Outcome(true, done, before, gpu.reports, passed)
    requires x == gpu.alu.dp3(c.a, c.b) && y == gpu.alu.dph(c.a, c.b) && z == gpu.alu.dp4(c.a, c.b)
    modifies gpu`reports
    ensures Outcome(true, done + DotProbes(gpu.alu)(c), before, gpu.reports, pass)
  {
    var p, q, r := Probe("DP3", c.title, x, c.dp3), Probe("DPH", c.title, y, c.dph), Probe("DP4", c.title, z, c.dp4);
    pass := ReportProbe(gpu, before, done, p, passed);
    pass := ReportProbe(gpu, before, done + [p], q, pass);
    pass := ReportProbe(gpu, before, done + [p] + [q], r, pass);
    assert DotProbes(gpu.alu)(c) == [p, q, r];
    assert done + [p] + [q] + [r] == done + [p, q, r];
  }

  method ReportDot(gpu: Gpu, batch: seq<DotCase>, outputs: seq<Vec4>) returns (pass: bool)
    requires |batch| <= DOT_CASES_PER_DRAW && |outputs| == 3
    requires forall j :: 0 <= j < |batch| ==>
      outputs[0].Get(j) == gpu.alu.dp3(batch[j].a, batch[j].b) &&
      outputs[1].Get(j) == gpu.alu.dph(batch[j].a, batch[j].b) &&
      outputs[2].Get(j) == gpu.alu.dp4(batch[j].a, batch[j].b)
    modifies gpu`reports
    ensures Outcome(true, Probes(DotProbes(gpu.alu), batch), old(gpu.reports), gpu.reports, pass)
  {
    pass := true;
    ghost var probes := DotProbes(gpu.alu);
    ReportedNone(probes, batch, gpu.reports);
    for i := 0 to |batch|
      invariant Reported(probes, batch, i, old(gpu.reports), gpu.reports, pass)
    {
      pass := ReportTriple(gpu, old(gpu.reports), Probes(probes, batch[..i]), batch[i],
                           outputs[0].Get(i), outputs[1].Get(i), outputs[2].Get(i), pass);
      ReportedNext(probes, batch, i, old(gpu.reports), gpu.reports, pass);
    }
    ReportedAll(probes, batch, old(gpu.reports), gpu.reports, pass);
  }

  method DrawDot(gpu: Gpu, batch: seq<DotCase>) returns (drawn: bool, pass: bool)
    requires |batch| <= DOT_CASES_PER_DRAW
    modifies gpu`file, gpu`reports
    ensures drawn == gpu.ready
    ensures Outcome(drawn, Probes(DotProbes(gpu.alu), batch), old(gpu.reports), gpu.reports, pass)
  {
    var inputs := LayOutDot(batch);
    ghost var before := gpu.file;
    var ok, outputs := gpu.RunCompute(RoundDot, inputs, OUTPUT_BASE, 3);
    if !ok {
      gpu.reports := gpu.reports + [DrawFailed];
      return false, false;
    }
    DotLanes(gpu.alu, batch, inputs, before, gpu.file);
    pass := ReportDot(gpu, batch, outputs);
    drawn := true;
  }

  method RunDotCases(gpu: Gpu, cases: seq<DotCase>) returns (pass: bool)
    modifies gpu`file, gpu`reports
    ensures Outcome(gpu.ready || cases == [], Probes(DotProbes(gpu.alu), cases),
                    old(gpu.reports), gpu.reports, pass)
    ensures old(gpu.reports) <= gpu.reports
    ensures !(gpu.ready || cases == []) ==> !pass && Added(old(gpu.reports), gpu.reports) == [DrawFailed]
    ensures gpu.ready || cases == [] ==>
      (pass <==> forall i :: 0 <= i < |cases| ==> DotAgrees(gpu.alu, cases[i])) &&
      DotsLogged(gpu.alu, cases, Added(old(gpu.reports), gpu.reports))
  {
    pass := true;
    var first := 0;
    ghost var probes := DotProbes(gpu.alu);
    ReportedNone(probes, cases, gpu.reports);
    while first < |cases|
      invariant first <= |cases| && (gpu.ready || gpu.reports == old(gpu.reports))
      invariant Reported(probes, cases, first, old(gpu.reports), gpu.reports, pass)
    {
      var drawn;
      first, drawn, pass := NextDotDraw(gpu, cases, first, pass, old(gpu.reports));
      if !drawn {
        OutcomeAdds(false, Probes(probes, cases), old(gpu.reports), gpu.reports, false);
        return false;
      }
    }
    ReportedAll(probes, cases, old(gpu.reports), gpu.reports, pass);
    OutcomeAdds(true, Probes(probes, cases), old(gpu.reports), gpu.reports, pass);
    DotsRead(gpu.alu, cases);
  }

  /** One turn of the loop. */
  method NextDotDraw(gpu: Gpu, cases: seq<DotCase>, first: nat, passed: bool,
      ghost before: seq<Report>)
    returns (next: nat, drawn: bool, pass: bool)
    requires first < |cases|
    requires Reported(DotProbes(gpu.alu), cases, first, before, gpu.reports, passed)
    modifies gpu`file, gpu`reports
    ensures drawn == gpu.ready && first < next <= |cases|
    ensures drawn ==> Reported(DotProbes(gpu.alu), cases, next, before, gpu.reports, pass)
    ensures !drawn ==> gpu.reports == old(gpu.reports) + [DrawFailed]
  {
    next := if |cases| - first < DOT_CASES_PER_DRAW then |cases| else first + DOT_CASES_PER_DRAW;
    ghost var middle := gpu.reports;
    var all;
    drawn, all := DrawDot(gpu, cases[first..next]);
    if drawn {
      ReportedDraw(DotProbes(gpu.alu), cases, first, next, before, middle, gpu.reports, passed, all);
    }
    pass := passed && all;
  }
}
