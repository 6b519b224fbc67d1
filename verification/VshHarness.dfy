/**
  The compute harness of the vertex shader tests: the constant file, the straight-line rounding
  shaders and the batching loops, over an arbitrary arithmetic unit.
 */
module VshHarness {
  import opened VshRounding

  const CONSTANTS: nat := 192
  const MAX_OUTPUTS: nat := 5
  const SENTINEL: Bits := 0xC0DE_C0DE
  const INPUT_BASE: nat := 96
  const OUTPUT_BASE: nat := 188

  /** The operations of the unit under test, whatever they compute. */
  datatype Alu = Alu(
    add: (Bits, Bits) -> Bits,
    mul: (Bits, Bits) -> Bits,
    mad: (Bits, Bits, Bits) -> Bits,
    dp3: (Vec4, Vec4) -> Bits,
    dph: (Vec4, Vec4) -> Bits,
    dp4: (Vec4, Vec4) -> Bits)

  datatype Shader = RoundMul | RoundAdd | RoundMad | RoundDot

  /** A value for a constant register. */
  datatype VshConstant = VshConstant(index: nat, bits: Vec4)

  function Zero(): Vec4 { Vec4(0, 0, 0, 0) }

  function Sentinels(): Vec4 { Vec4(SENTINEL, SENTINEL, SENTINEL, SENTINEL) }

  // ---------------------------------------------------------------- what a draw computes

  function Lift2(op: (Bits, Bits) -> Bits, a: Vec4, b: Vec4): Vec4 {
    Vec4(op(a.x, b.x), op(a.y, b.y), op(a.z, b.z), op(a.w, b.w))
  }

  function Lift3(op: (Bits, Bits, Bits) -> Bits, a: Vec4, b: Vec4, c: Vec4): Vec4 {
    Vec4(op(a.x, b.x, c.x), op(a.y, b.y, c.y), op(a.z, b.z, c.z), op(a.w, b.w, c.w))
  }

  /** A constant file. */
  type File = f: seq<Vec4> | |f| == CONSTANTS witness seq(CONSTANTS, i => Zero())

  /** Register 188 + k after one run of a shader, in terms of the file before it. */
  function Output(alu: Alu, shader: Shader, f: File, k: nat): Vec4
    requires k < 4
  {
    match shader
    case RoundMul => Lift2(alu.mul, f[INPUT_BASE + 2 * k], f[INPUT_BASE + 2 * k + 1])
    case RoundAdd => Lift2(alu.add, f[INPUT_BASE + 2 * k], f[INPUT_BASE + 2 * k + 1])
    case RoundMad => Lift3(alu.mad, f[INPUT_BASE + 3 * k], f[INPUT_BASE + 3 * k + 1], f[INPUT_BASE + 3 * k + 2])
    case RoundDot =>
      if k == 0 then PerPair(alu.dp3, f) else if k == 1 then PerPair(alu.dph, f) else if k == 2 then PerPair(alu.dp4, f)
      else f[OUTPUT_BASE + 3]
  }

  /** Component k is op of the k-th pair of inputs. */
  function PerPair(op: (Vec4, Vec4) -> Bits, f: File): Vec4 {
    Vec4(op(f[96], f[97]), op(f[98], f[99]), op(f[100], f[101]), op(f[102], f[103]))
  }

  /** f and g agree except on the output registers, which `shader` has written in g. */
  ghost predicate Shaded(alu: Alu, shader: Shader, f: File, g: File) {
    && (forall i :: 0 <= i < OUTPUT_BASE ==> g[i] == f[i])
    && (forall i :: OUTPUT_BASE <= i < CONSTANTS ==> g[i] == Output(alu, shader, f, i - OUTPUT_BASE))
  }

  /** Running the shader for every vertex of the quad is running it once. */
  lemma {:induction false} ShadedAgain(alu: Alu, shader: Shader, f: File, g: File, h: File)
    requires Shaded(alu, shader, f, g) && Shaded(alu, shader, g, h)
    ensures g == h
  {
    forall i | OUTPUT_BASE <= i < CONSTANTS
      ensures h[i] == g[i]
    {
      assert h[i] == Output(alu, shader, g, i - OUTPUT_BASE);
      SameOutput(alu, shader, f, g, i - OUTPUT_BASE);
    }
  }

  lemma {:induction false} SameOutput(alu: Alu, shader: Shader, f: File, g: File, k: nat)
    requires k < 4 && Shaded(alu, shader, f, g)
    ensures Output(alu, shader, g, k) == g[OUTPUT_BASE + k]
  {
    assert g[OUTPUT_BASE + k] == Output(alu, shader, f, k);
  }

  // ---------------------------------------------------------------- reports

  datatype Verdict = Passed | Failed | Recorded

  /** One logged comparison, or the one line about a draw that failed. */
  datatype Report =
    | Compared(op: string, title: string, actual: Bits, expectation: Expectation, matching: string, verdict: Verdict)
    | DrawFailed

  /** The names of the models that predict `actual`. */
  function Matching(models: seq<RoundingModel>, actual: Bits): seq<string> {
    if models == [] then []
    else
      var last := models[|models| - 1];
      Matching(models[..|models| - 1], actual) + if last.bits == actual then [last.model.Name()] else []
  }

  function Joined(names: seq<string>): string {
    if names == [] then []
    else if |names| == 1 then names[0]
    else Joined(names[..|names| - 1]) + "," + names[|names| - 1]
  }

  /** Whether a probe's result is acceptable. */
  predicate Acceptable(e: Expectation, actual: Bits) { e.checked ==> actual == e.expected }

  function ReportOf(op: string, title: string, actual: Bits, e: Expectation): Report {
    Compared(op, title, actual, e, Joined(Matching(e.models, actual)),
             if !e.checked then Recorded else if actual == e.expected then Passed else Failed)
  }

  lemma JoinedIsEmpty(names: seq<string>)
    requires forall i :: 0 <= i < |names| ==> names[i] != []
    ensures Joined(names) == [] <==> names == []
  {
  }

  lemma NamesAreNotEmpty(models: seq<RoundingModel>, actual: Bits)
    ensures forall i :: 0 <= i < |Matching(models, actual)| ==> Matching(models, actual)[i] != []
  {
  }

  /** A model is listed exactly when it predicts the result. */
  lemma {:induction false} MatchingIff(models: seq<RoundingModel>, actual: Bits, name: string)
    ensures name in Matching(models, actual) <==>
            exists i :: 0 <= i < |models| && models[i].bits == actual && models[i].model.Name() == name
  {
    if models != [] {
      var init, last := models[..|models| - 1], models[|models| - 1];
      MatchingIff(init, actual, name);
      assert models == init + [last];
      if last.bits == actual && last.model.Name() == name {
        assert models[|models| - 1].bits == actual;
      }
      if name in Matching(init, actual) {
        var i :| 0 <= i < |init| && init[i].bits == actual && init[i].model.Name() == name;
        assert models[i].bits == actual;
      }
    }
  }

  // ---------------------------------------------------------------- reading a report back

  /** The pieces of a text between its commas. */
  function SplitAtCommas(s: string): (pieces: seq<string>)
    ensures pieces != []
  {
    if s == "" then [""]
    else
      var pieces, c := SplitAtCommas(s[..|s| - 1]), s[|s| - 1];
      if c == ',' then pieces + [""] else pieces[|pieces| - 1 := pieces[|pieces| - 1] + [c]]
  }

  /** The model that a name in the log stands for. */
  function ModelNamed(name: string): seq<Model> {
    if name == "rn" then [RN] else if name == "rz" then [RZ] else if name == "rn_rn" then [RN_RN]
    else if name == "rz_rz" then [RZ_RZ] else if name == "tp_rz" then [TP_RZ] else if name == "seq_rz" then [SEQ_RZ]
    else if name == "win_rz" then [WIN_RZ] else []
  }

  function ModelsNamed(names: seq<string>): seq<Model> {
    if names == [] then [] else ModelsNamed(names[..|names| - 1]) + ModelNamed(names[|names| - 1])
  }

  /** The recorded models whose bits are `actual`, in the order of the table. */
  function Predicting(models: seq<RoundingModel>, actual: Bits): seq<Model> {
    if models == [] then []
    else
      var init, last := models[..|models| - 1], models[|models| - 1];
      Predicting(init, actual) + if last.bits == actual then [last.model] else []
  }

  lemma {:induction false} SplitWord(s: string, word: string)
    requires ',' !in word
    ensures var pieces := SplitAtCommas(s);
            SplitAtCommas(s + word) == pieces[|pieces| - 1 := pieces[|pieces| - 1] + word]
  {
    if word == "" {
      assert s + word == s;
      var pieces := SplitAtCommas(s);
      assert pieces[|pieces| - 1] + word == pieces[|pieces| - 1];
    } else {
      var init, c := word[..|word| - 1], word[|word| - 1];
      SplitWord(s, init);
      assert (s + word)[..|s + word| - 1] == s + init && c in word;
      var pieces := SplitAtCommas(s);
      assert pieces[|pieces| - 1] + init + [c] == pieces[|pieces| - 1] + word;
    }
  }

  lemma {:induction false} JoinedSplits(names: seq<string>)
    requires names != [] && forall i :: 0 <= i < |names| ==> ',' !in names[i]
    ensures SplitAtCommas(Joined(names)) == names
  {
    var init, last := names[..|names| - 1], names[|names| - 1];
    if init == [] {
      SplitWord("", last);
      assert "" + last == last && names == [last];
    } else {
      JoinedSplits(init);
      var text := Joined(init);
      assert (text + ",")[..|text + ","| - 1] == text;
      assert SplitAtCommas(text + ",") == init + [""];
      SplitWord(text + ",", last);
      assert "" + last == last;
      assert text + "," + last == Joined(names);
    }
  }

  lemma {:induction false} NameStandsFor(m: Model)
    ensures ModelNamed(m.Name()) == [m] && ',' !in m.Name()
  {
  }

  lemma {:induction false} NamesStandFor(models: seq<RoundingModel>, actual: Bits)
    ensures ModelsNamed(Matching(models, actual)) == Predicting(models, actual)
    ensures forall i :: 0 <= i < |Matching(models, actual)| ==> ',' !in Matching(models, actual)[i]
  {
    if models != [] {
      var init, last := models[..|models| - 1], models[|models| - 1];
      NamesStandFor(init, actual);
      NameStandsFor(last.model);
      var names := Matching(init, actual);
      if last.bits == actual {
        assert (names + [last.model.Name()])[..|names|] == names;
      } else {
        assert Matching(models, actual) == names + [] == names;
      }
    }
  }

  /** The names in a report, split at the commas, stand for the models that predict the result, in order. */
  lemma {:induction false} MatchingReads(models: seq<RoundingModel>, actual: Bits)
    ensures var text := Joined(Matching(models, actual));
            Predicting(models, actual) == if text == "" then [] else ModelsNamed(SplitAtCommas(text))
  {
    var names := Matching(models, actual);
    NamesAreNotEmpty(models, actual);
    JoinedIsEmpty(names);
    NamesStandFor(models, actual);
    if names != [] { JoinedSplits(names); }
  }

  /** What a reader of the log learns from one comparison. */
  predicate Logged(r: Report, op: string, title: string, actual: Bits, e: Expectation) {
    && r.Compared? && r.op == op && r.title == title && r.actual == actual && r.expectation == e
    && (r.verdict == Recorded <==> !e.checked)
    && (r.verdict == Passed <==> e.checked && actual == e.expected)
    && Predicting(e.models, actual) == if r.matching == "" then [] else ModelsNamed(SplitAtCommas(r.matching))
  }

  lemma {:induction false} ReportIsLogged(op: string, title: string, actual: Bits, e: Expectation)
    ensures Logged(ReportOf(op, title, actual, e), op, title, actual, e)
  {
    MatchingReads(e.models, actual);
  }

  // ---------------------------------------------------------------- loading registers

  ghost predicate Loadable(inputs: seq<VshConstant>) {
    forall k :: 0 <= k < |inputs| ==> inputs[k].index < CONSTANTS
  }

  function LoadAll(f: File, inputs: seq<VshConstant>): File
    requires Loadable(inputs)
  {
    if inputs == [] then f
    else
      var last := inputs[|inputs| - 1];
      LoadAll(f, inputs[..|inputs| - 1])[last.index := last.bits]
  }

  /** n registers from `first` on hold the sentinel. */
  function Filled(f: File, first: nat, n: nat): File
    requires first + n <= CONSTANTS
  {
    if n == 0 then f else Filled(f, first, n - 1)[first + n - 1 := Sentinels()]
  }

  lemma {:induction false} FilledAt(f: File, first: nat, n: nat, i: nat)
    requires first + n <= CONSTANTS && i < CONSTANTS
    ensures Filled(f, first, n)[i] == if first <= i < first + n then Sentinels() else f[i]
  {
    if n > 0 { FilledAt(f, first, n - 1, i); }
  }

  /** Inputs for consecutive registers from 96 on. */
  ghost predicate Consecutive(inputs: seq<VshConstant>) {
    |inputs| <= OUTPUT_BASE - INPUT_BASE && forall k :: 0 <= k < |inputs| ==> inputs[k].index == INPUT_BASE + k
  }

  lemma {:induction false} LoadedAt(f: File, inputs: seq<VshConstant>, k: nat)
    requires Consecutive(inputs) && k < |inputs|
    ensures LoadAll(f, inputs)[INPUT_BASE + k] == inputs[k].bits
  {
    if k < |inputs| - 1 { LoadedAt(f, inputs[..|inputs| - 1], k); }
  }

  /** What the shader finds: the inputs, whatever the file held before and whatever outputs are marked. */
  lemma {:induction false} InputsArrive(f: File, inputs: seq<VshConstant>, n: nat)
    requires Consecutive(inputs) && n <= 4
    ensures forall k :: 0 <= k < |inputs| ==>
      Filled(LoadAll(f, inputs), OUTPUT_BASE, n)[INPUT_BASE + k] == inputs[k].bits
  {
    forall k | 0 <= k < |inputs|
      ensures Filled(LoadAll(f, inputs), OUTPUT_BASE, n)[INPUT_BASE + k] == inputs[k].bits
    {
      FilledAt(LoadAll(f, inputs), OUTPUT_BASE, n, INPUT_BASE + k);
      LoadedAt(f, inputs, k);
    }
  }

  // ---------------------------------------------------------------- the device

  class Gpu {
    const alu: Alu
    var ready: bool
    var file: File
    var reports: seq<Report>

    constructor (alu: Alu, ready: bool)
      ensures this.alu == alu && this.ready == ready && reports == []
    {
      this.alu := alu;
      this.ready := ready;
      file := seq(CONSTANTS, i => Zero());
      reports := [];
    }

    method LoadConstant(c: VshConstant)
      requires c.index < CONSTANTS
      modifies this`file
      ensures file == old(file)[c.index := c.bits]
    {
      file := file[c.index := c.bits];
    }

    /** The data port yields the components of a register in the order w, z, y, x. */
    function DataPort(index: nat, n: nat): Bits
      requires index < CONSTANTS && n < 4
      reads this`file
    {
      if n == 0 then file[index].w else if n == 1 then file[index].z
      else if n == 2 then file[index].y else file[index].x
    }

    method ReadConstant(index: nat) returns (v: Vec4)
      requires index < CONSTANTS
      ensures v == file[index]
    {
      v := Zero();
      for n := 0 to 4
        invariant forall j :: 4 - n <= j < 4 ==> v.Get(j) == file[index].Get(j)
      {
        v := v.Set(3 - n, DataPort(index, n));
      }
      SameComponents(v, file[index]);
    }

    method AddOrMul(op: (Bits, Bits) -> Bits)
      modifies this`file
      ensures forall i :: 0 <= i < OUTPUT_BASE ==> file[i] == old(file)[i]
      ensures forall i :: OUTPUT_BASE <= i < CONSTANTS ==>
        file[i] == Lift2(op, old(file)[INPUT_BASE + 2 * (i - OUTPUT_BASE)],
                         old(file)[INPUT_BASE + 2 * (i - OUTPUT_BASE) + 1])
    {
      var r0 := file[96];
      file := file[188 := Lift2(op, r0, file[97])];
      r0 := file[98];
      file := file[189 := Lift2(op, r0, file[99])];
      r0 := file[100];
      file := file[190 := Lift2(op, r0, file[101])];
      r0 := file[102];
      file := file[191 := Lift2(op, r0, file[103])];
    }

    method MulAdd()
      modifies this`file
      ensures Shaded(alu, RoundMad, old(file), file)
    {
      var r0, r1 := file[96], file[97];
      file := file[188 := Lift3(alu.mad, r0, r1, file[98])];
      r0, r1 := file[99], file[100];
      file := file[189 := Lift3(alu.mad, r0, r1, file[101])];
      r0, r1 := file[102], file[103];
      file := file[190 := Lift3(alu.mad, r0, r1, file[104])];
      r0, r1 := file[105], file[106];
      file := file[191 := Lift3(alu.mad, r0, r1, file[107])];
    }

    /** A write masked to one component. */
    method Mask(index: nat, k: nat, v: Bits)
      requires index < CONSTANTS && k < 4
      modifies this`file
      ensures file == old(file)[index := old(file)[index].Set(k, v)]
    {
      file := file[index := file[index].Set(k, v)];
    }

    method DotPair(k: nat)
      requires k < 4
      modifies this`file
      ensures var a, b := old(file)[INPUT_BASE + 2 * k], old(file)[INPUT_BASE + 2 * k + 1];
              file == old(file)[188 := old(file)[188].Set(k, alu.dp3(a, b))]
                               [189 := old(file)[189].Set(k, alu.dph(a, b))]
                               [190 := old(file)[190].Set(k, alu.dp4(a, b))]
    {
      var r0 := file[INPUT_BASE + 2 * k];
      Mask(188, k, alu.dp3(r0, file[INPUT_BASE + 2 * k + 1]));
      Mask(189, k, alu.dph(r0, file[INPUT_BASE + 2 * k + 1]));
      Mask(190, k, alu.dp4(r0, file[INPUT_BASE + 2 * k + 1]));
    }

    method Dot()
      modifies this`file
      ensures Shaded(alu, RoundDot, old(file), file)
    {
      DotPair(0);
      DotPair(1);
      DotPair(2);
      DotPair(3);
    }

    method RunShader(shader: Shader)
      modifies this`file
      ensures Shaded(alu, shader, old(file), file)
    {
      match shader
      case RoundMul => AddOrMul(alu.mul);
      case RoundAdd => AddOrMul(alu.add);
      case RoundMad => MulAdd();
      case RoundDot => Dot();
    }

    /** Four vertices, each of which runs the whole shader. */
    method DrawQuad(shader: Shader)
      modifies this`file
      ensures Shaded(alu, shader, old(file), file)
    {
      RunShader(shader);
      ghost var first := file;
      for vertex := 1 to 4
        invariant file == first
      {
        RunShader(shader);
        ShadedAgain(alu, shader, old(file), first, file);
      }
    }

    /** Loads the inputs, marks the outputs, draws, and reads the outputs back. */
    method RunCompute(shader: Shader, inputs: seq<VshConstant>, firstOutput: nat, outputCount: nat)
      returns (ok: bool, outputs: seq<Vec4>)
      requires Loadable(inputs)
      modifies this`file
      ensures ok == (ready && outputCount <= MAX_OUTPUTS && firstOutput + outputCount <= CONSTANTS)
      ensures !ok ==> file == old(file) && outputs == []
      ensures ok ==> Shaded(alu, shader, Filled(LoadAll(old(file), inputs), firstOutput, outputCount), file)
      ensures ok ==> outputs == file[firstOutput..firstOutput + outputCount]
    {
      outputs := [];
      if !ready || outputCount > MAX_OUTPUTS || firstOutput + outputCount > CONSTANTS { return false, []; }
      LoadInputs(inputs);
      MarkOutputs(firstOutput, outputCount);
      DrawQuad(shader);
      outputs := ReadOutputs(firstOutput, outputCount);
      ok := true;
    }

    method ReadOutputs(first: nat, count: nat) returns (outputs: seq<Vec4>)
      requires first + count <= CONSTANTS
      ensures outputs == file[first..first + count]
    {
      outputs := [];
      for i := 0 to count
        invariant outputs == file[first..first + i]
      {
        var v := ReadConstant(first + i);
        outputs := outputs + [v];
      }
    }

    method LoadInputs(inputs: seq<VshConstant>)
      requires Loadable(inputs)
      modifies this`file
      ensures file == LoadAll(old(file), inputs)
    {
      for i := 0 to |inputs|
        invariant file == LoadAll(old(file), inputs[..i])
      {
        LoadConstant(inputs[i]);
        assert inputs[..i + 1][..i] == inputs[..i];
      }
      assert inputs[..|inputs|] == inputs;
    }

    method MarkOutputs(first: nat, count: nat)
      requires first + count <= CONSTANTS
      modifies this`file
      ensures file == Filled(old(file), first, count)
    {
      for i := 0 to count
        invariant file == Filled(old(file), first, i)
      {
        LoadConstant(VshConstant(first + i, Sentinels()));
      }
    }

    /** Logs a result with the models that predict it. */
    method ReportRounding(op: string, title: string, actual: Bits, e: Expectation) returns (pass: bool)
      modifies this`reports
      ensures reports == old(reports) + [ReportOf(op, title, actual, e)]
      ensures Logged(reports[|old(reports)|], op, title, actual, e)
      ensures pass <==> (e.checked ==> actual == e.expected)
    {
      var matches: string := [];
      for i := 0 to |e.models|
        invariant matches == Joined(Matching(e.models[..i], actual))
        invariant reports == old(reports)
      {
        var model := e.models[i];
        MatchingSnoc(e.models, i, actual);
        if model.bits == actual {
          if matches != [] { matches := matches + ","; }
          matches := matches + model.model.Name();
        }
      }
      assert e.models[..|e.models|] == e.models;
      assert matches == Joined(Matching(e.models, actual));
      var verdict := if !e.checked then Recorded else if actual == e.expected then Passed else Failed;
      reports := reports + [Compared(op, title, actual, e, matches, verdict)];
      ReportIsLogged(op, title, actual, e);
      pass := !e.checked || actual == e.expected;
    }
  }

  /** One more model: its name goes to the end of the list, after a comma unless it is the first. */
  lemma {:induction false} MatchingSnoc(models: seq<RoundingModel>, i: nat, actual: Bits)
    requires i < |models|
    ensures var before, name := Joined(Matching(models[..i], actual)), models[i].model.Name();
            Joined(Matching(models[..i + 1], actual)) ==
            if models[i].bits != actual then before else if before == [] then name else before + "," + name
  {
    var names := Matching(models[..i], actual);
    assert models[..i + 1][..i] == models[..i];
    NamesAreNotEmpty(models[..i], actual);
    JoinedIsEmpty(names);
    var name := models[i].model.Name();
    if models[i].bits == actual {
      assert Matching(models[..i + 1], actual) == names + [name];
      assert (names + [name])[..|names|] == names;
    } else {
      assert Matching(models[..i + 1], actual) == names + [] == names;
    }
  }

  lemma SameComponents(v: Vec4, w: Vec4)
    requires forall j :: 0 <= j < 4 ==> v.Get(j) == w.Get(j)
    ensures v == w
  {
    assert v.Get(0) == w.Get(0) && v.Get(1) == w.Get(1) && v.Get(2) == w.Get(2) && v.Get(3) == w.Get(3);
  }
}
