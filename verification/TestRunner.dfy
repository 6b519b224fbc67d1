/**
  Test code that opens scopes only through ScopeGuard (src/test_log.h), and the runner that drives
  the log with it (src/test_runner.cpp).
 */
module TestRunner {
  import opened Json
  import opened JsonText
  import opened TestLog
  import opened TestLogRuns
  import opened LogMeaning

  /** What a test does with the log.  A scope is a C++ block that holds a ScopeGuard. */
  datatype Stmt =
    | LogEvent(level: Level, place: Place, fields: LogFields, formatted: ByteStr, tick: U32)
    | LogHexDump(place: Place, title: ByteStr, data: seq<U8>, tick: U32)
    | Scope(place: Place, name: ByteStr, tick: U32, body: seq<Stmt>)

  /** The calls made: the guard's constructor, the block, the guard's destructor. */
  function Calls(s: Stmt): seq<Call> {
    match s
    case LogEvent(level, place, fields, formatted, tick) => [CallEvent(level, place, fields, formatted, tick)]
    case LogHexDump(place, title, data, tick) => [CallHexDump(place, title, data, tick)]
    case Scope(place, name, tick, body) => [CallBeginScope(place, name, tick)] + AllCalls(body) + [CallEndScope]
  }

  function AllCalls(ss: seq<Stmt>): seq<Call> {
    if ss == [] then [] else AllCalls(ss[..|ss| - 1]) + Calls(ss[|ss| - 1])
  }

  /** The items of an events array, read off the structure of the code. */
  function StmtJson(s: Stmt, suiteStart: U32): Value {
    match s
    case LogEvent(level, place, fields, formatted, tick) =>
      EventJson(level, Message(formatted), place, Since(tick, suiteStart), fields)
    case LogHexDump(place, title, data, tick) => DumpJson(title, data, place, Since(tick, suiteStart))
    case Scope(place, name, tick, body) =>
      Obj(ScopeHead(name, place, Since(tick, suiteStart)) + [("events", Arr(StmtsJson(body, suiteStart)))])
  }

  function StmtsJson(ss: seq<Stmt>, suiteStart: U32): seq<Value> {
    if ss == [] then [] else StmtsJson(ss[..|ss| - 1], suiteStart) + [StmtJson(ss[|ss| - 1], suiteStart)]
  }

  function AddItems(ls: Levels, vs: seq<Value>): Levels { Init(ls) + [Open(Last(ls).head, Last(ls).items + vs)] }

  /** `t` after the items `vs` were added to its innermost events array. */
  function Plus(t: Track, vs: seq<Value>): Track
    requires HasLevels(t.tree)
  {
    t.(tree := WithLevels(t.tree, AddItems(t.tree.levels, vs)))
  }

  lemma {:induction false} ItemIsPlus(t: Track, v: Value)
    requires HasLevels(t.tree)
    ensures t.(tree := Item(t.tree, v)) == Plus(t, [v])
  {
  }

  lemma {:induction false} PlusPlus(t: Track, a: seq<Value>, b: seq<Value>)
    requires HasLevels(t.tree)
    ensures Plus(Plus(t, a), b) == Plus(t, a + b)
  {
    var ls := t.tree.levels;
    assert Init(AddItems(ls, a)) == Init(ls);
    assert Last(ls).items + a + b == Last(ls).items + (a + b);
  }

  /** A scope that is opened, filled and closed is one item of the array around it. */
  lemma {:induction false} ScopeIsItem(t: Track, head: seq<Member>, vs: seq<Value>)
    requires HasLevels(t.tree)
    ensures var u := Plus(t.(tree := Deeper(t.tree, head)), vs);
            u.(tree := Shallower(u.tree)) == Plus(t, [Obj(head + [("events", Arr(vs))])])
  {
    var ls := t.tree.levels;
    var deep := ls + [Open(head, [])];
    assert Init(deep) == ls;
    assert AddItems(deep, vs) == ls + [Open(head, vs)] by { assert [] + vs == vs; }
    assert Init(AddItems(deep, vs)) == ls;
  }

  /**
    The recorded scopes nest exactly as the blocks of the code do, whatever the code: running it
    adds to the innermost array the items that its structure spells out, and leaves no scope open.
   */
  lemma {:induction false} RecordsStructure(t: Track, ss: seq<Stmt>, suiteStart: U32)
    requires HasLevels(t.tree)
    ensures RecordAll(t, AllCalls(ss), suiteStart) == Plus(t, StmtsJson(ss, suiteStart))
    decreases ss, 1
  {
    if ss == [] {
      assert Last(t.tree.levels).items + [] == Last(t.tree.levels).items;
    } else {
      var init, s := ss[..|ss| - 1], ss[|ss| - 1];
      RecordAppend(t, AllCalls(init), Calls(s), suiteStart);
      RecordsStructure(t, init, suiteStart);
      var u := Plus(t, StmtsJson(init, suiteStart));
      RecordsStmt(u, s, suiteStart);
      PlusPlus(t, StmtsJson(init, suiteStart), [StmtJson(s, suiteStart)]);
    }
  }

  lemma {:induction false} RecordOne(t: Track, call: Call, suiteStart: U32)
    ensures RecordAll(t, [call], suiteStart) == Record(t, call, suiteStart)
  {
    assert [call][..0] == [];
  }

  lemma {:induction false} RecordsStmt(t: Track, s: Stmt, suiteStart: U32)
    requires HasLevels(t.tree)
    ensures RecordAll(t, Calls(s), suiteStart) == Plus(t, [StmtJson(s, suiteStart)])
    decreases s, 0
  {
    match s
    case LogEvent(level, place, fields, formatted, tick) =>
      RecordOne(t, CallEvent(level, place, fields, formatted, tick), suiteStart);
      ItemIsPlus(t, StmtJson(s, suiteStart));
    case LogHexDump(place, title, data, tick) =>
      RecordOne(t, CallHexDump(place, title, data, tick), suiteStart);
      ItemIsPlus(t, StmtJson(s, suiteStart));
    case Scope(place, name, tick, body) =>
      RecordsStructure(t.(tree := Deeper(t.tree, ScopeHead(name, place, Since(tick, suiteStart)))), body, suiteStart);
      RecordsScope(t, place, name, tick, body, suiteStart);
  }

  /** The guard's calls around a block whose calls record what the block spells out. */
  lemma {:induction false} RecordsScope(t: Track, place: Place, name: ByteStr, tick: U32, body: seq<Stmt>,
      suiteStart: U32)
    requires HasLevels(t.tree)
    requires var deep := t.(tree := Deeper(t.tree, ScopeHead(name, place, Since(tick, suiteStart))));
             RecordAll(deep, AllCalls(body), suiteStart) == Plus(deep, StmtsJson(body, suiteStart))
    ensures RecordAll(t, [CallBeginScope(place, name, tick)] + AllCalls(body) + [CallEndScope], suiteStart)
         == Plus(t, [Obj(ScopeHead(name, place, Since(tick, suiteStart))
                         + [("events", Arr(StmtsJson(body, suiteStart)))])])
  {
    var open, head := CallBeginScope(place, name, tick), ScopeHead(name, place, Since(tick, suiteStart));
    var deep := t.(tree := Deeper(t.tree, head));
    RecordAppend(t, [open], AllCalls(body), suiteStart);
    RecordOne(t, open, suiteStart);
    RecordAppend(t, [open] + AllCalls(body), [CallEndScope], suiteStart);
    RecordOne(Plus(deep, StmtsJson(body, suiteStart)), CallEndScope, suiteStart);
    ScopeIsItem(t, head, StmtsJson(body, suiteStart));
  }

  // ---------------------------------------------------------------- what a reader finds

  /** The value says what the code did: events, dumps, and scopes that hold what their blocks logged. */
  ghost predicate MeansStmt(v: Value, s: Stmt, suiteStart: U32)
    decreases s, 0
  {
    match s
    case LogEvent(level, place, fields, formatted, tick) =>
      MeansEvent(v, level, place, fields, formatted, suiteStart, tick)
    case LogHexDump(place, title, data, tick) => MeansDump(v, place, title, data, suiteStart, tick)
    case Scope(place, name, tick, body) =>
      exists items :: MeansScope(v, place, name, suiteStart, tick, items) && MeansStmts(items, body, suiteStart)
  }

  function ItemAt(items: seq<Value>, i: nat): Value
    requires i < |items|
  {
    items[i]
  }

  /** One value a statement, in order. */
  ghost predicate MeansStmts(items: seq<Value>, ss: seq<Stmt>, suiteStart: U32)
    decreases ss, 1
  {
    |items| == |ss| &&
    forall i: nat {:trigger ItemAt(items, i)} :: i < |ss| ==> MeansStmt(ItemAt(items, i), ss[i], suiteStart)
  }

  lemma {:induction false} StmtMeans(s: Stmt, suiteStart: U32)
    ensures MeansStmt(StmtJson(s, suiteStart), s, suiteStart)
    decreases s, 0
  {
    match s
    case LogEvent(level, place, fields, formatted, tick) =>
      EventMeans(level, place, fields, formatted, suiteStart, tick);
    case LogHexDump(place, title, data, tick) => DumpMeans(place, title, data, suiteStart, tick);
    case Scope(place, name, tick, body) =>
      StmtsMean(body, suiteStart);
      ScopeMeans(place, name, suiteStart, tick, StmtsJson(body, suiteStart));
  }

  lemma {:induction false} StmtsJsonAt(ss: seq<Stmt>, i: nat, suiteStart: U32)
    ensures |StmtsJson(ss, suiteStart)| == |ss|
    ensures i < |ss| ==> StmtsJson(ss, suiteStart)[i] == StmtJson(ss[i], suiteStart)
  {
    if ss != [] { StmtsJsonAt(ss[..|ss| - 1], i, suiteStart); }
  }

  lemma {:induction false} StmtsMean(ss: seq<Stmt>, suiteStart: U32)
    ensures MeansStmts(StmtsJson(ss, suiteStart), ss, suiteStart)
    decreases ss, 1
  {
    StmtsJsonAt(ss, 0, suiteStart);
    forall i: nat | i < |ss| ensures MeansStmt(StmtsJson(ss, suiteStart)[i], ss[i], suiteStart) {
      StmtsJsonAt(ss, i, suiteStart);
      StmtMeans(ss[i], suiteStart);
    }
  }

  // ---------------------------------------------------------------- TestRunner::RunAllTests

  /** A registered test: what it logs, what it returns, and the clock readings around it. */
  datatype TestCase = TestCase(name: ByteStr, source: ByteStr, startTick: U32, tick: U32,
                               body: seq<Stmt>, result: bool, endTick: U32)

  function TestJson(test: TestCase, result: bool, suiteStart: U32): Value {
    Obj(TestHead(test.name, test.source, Since(test.tick, suiteStart))
        + [("events", Arr(StmtsJson(test.body, suiteStart)))]
        + ResultMembers(result, Since(test.endTick, test.startTick)))
  }

  function Results(tests: seq<TestCase>): seq<bool> {
    seq(|tests|, i requires 0 <= i < |tests| => tests[i].result)
  }

  function TestsJson(tests: seq<TestCase>, suiteStart: U32): seq<Value> {
    seq(|tests|, i requires 0 <= i < |tests| => TestJson(tests[i], tests[i].result, suiteStart))
  }

  function CountPassed(results: seq<bool>): (n: nat)
    ensures n <= |results|
  {
    if results == [] then 0
    else CountPassed(results[..|results| - 1]) + if results[|results| - 1] then 1 else 0
  }

  function EntriesJson(tests: seq<TestCase>, results: seq<bool>, suiteStart: U32): seq<Value>
    requires |results| == |tests|
  {
    seq(|tests|, i requires 0 <= i < |tests| => TestJson(tests[i], results[i], suiteStart))
  }

  lemma {:induction false} EntriesAreTests(tests: seq<TestCase>, results: seq<bool>, suiteStart: U32)
    requires results == Results(tests)
    ensures |results| == |tests| && EntriesJson(tests, results, suiteStart) == TestsJson(tests, suiteStart)
  {
  }

  /** The document: one entry per test, in order, and a summary that counts them. */
  function Document(suite: Open, tests: seq<TestCase>, results: seq<bool>, suiteStart: U32, ms: U32): Value
    requires |results| == |tests|
  {
    Obj(Closed(suite)
        + [("tests", Arr(EntriesJson(tests, results, suiteStart)))]
        + [("summary", Obj([("total", UintJson(|tests|)),
                            ("passed", UintJson(CountPassed(results))),
                            ("failed", UintJson(|tests| - CountPassed(results)))])),
           ("duration_ms", UintJson(ms))])
  }

  /** The entry of a test: who it is, what it logged, how it ended and how long it took. */
  ghost predicate MeansCase(v: Value, test: TestCase, suiteStart: U32) {
    exists items ::
      && MeansTest(v, test.name, test.source, suiteStart, test.tick, test.startTick, items, test.result, test.endTick)
      && MeansStmts(items, test.body, suiteStart)
  }

  /** One entry a test, in order. */
  ghost predicate MeansTests(entries: seq<Value>, tests: seq<TestCase>, suiteStart: U32) {
    |entries| == |tests| &&
    forall i: nat {:trigger ItemAt(entries, i)} :: i < |tests| ==>
      MeansCase(ItemAt(entries, i), tests[i], suiteStart)
  }

  ghost predicate SaysPass(entry: Value) { Has(entry, "result", Str("pass")) }

  /** The number of entries whose "result" is "pass". */
  ghost function PassEntries(entries: seq<Value>): nat {
    if entries == [] then 0
    else PassEntries(entries[..|entries| - 1]) + if SaysPass(entries[|entries| - 1]) then 1 else 0
  }

  /**
    The document of a run: what the suite's events left, one entry a test, and a summary whose "passed" is
    the number of entries that say "pass".
   */
  ghost predicate MeansRun(d: Value, suite: Open, tests: seq<TestCase>, suiteStart: U32, endTick: U32) {
    exists rest, entries, passed: U32, failed: U32 ::
         && d == Obj(suite.head + rest) && IsObject(Obj(rest), 4)
         && MeansOutcome(Obj(rest), suite.items, entries, passed, failed, suiteStart, endTick)
         && MeansTests(entries, tests, suiteStart)
         && passed == PassEntries(entries) && passed + failed == |tests|
  }

  lemma {:induction false} CaseMeans(test: TestCase, suiteStart: U32)
    ensures MeansCase(TestJson(test, test.result, suiteStart), test, suiteStart)
  {
    var items, v := StmtsJson(test.body, suiteStart), TestJson(test, test.result, suiteStart);
    StmtsMean(test.body, suiteStart);
    TestMeans(v, test.name, test.source, suiteStart, test.tick, test.startTick, items, test.result, test.endTick);
  }

  lemma {:induction false} ResultSays(v: Value, name: ByteStr, source: ByteStr, start: U32, tick: U32, startTick: U32,
      items: seq<Value>, passed: bool, endTick: U32)
    requires MeansTest(v, name, source, start, tick, startTick, items, passed, endTick)
    ensures SaysPass(v) <==> passed
  {
    assert "fail"[0] != "pass"[0];
    if SaysPass(v) && !passed { OneMember(v, 6, "result", Str("fail"), Str("pass")); }
  }

  lemma {:induction false} TestsMean(tests: seq<TestCase>, suiteStart: U32)
    ensures MeansTests(TestsJson(tests, suiteStart), tests, suiteStart)
    ensures PassEntries(TestsJson(tests, suiteStart)) == CountPassed(Results(tests))
  {
    forall i | 0 <= i < |tests| ensures MeansCase(TestsJson(tests, suiteStart)[i], tests[i], suiteStart) {
      CaseMeans(tests[i], suiteStart);
    }
    PassesCounted(tests, suiteStart);
  }

  lemma {:induction false} PassesCounted(tests: seq<TestCase>, suiteStart: U32)
    ensures PassEntries(TestsJson(tests, suiteStart)) == CountPassed(Results(tests))
  {
    if tests != [] {
      var n := |tests| - 1;
      PassesCounted(tests[..n], suiteStart);
      NextTest(tests, n, suiteStart);
      assert tests[..n + 1] == tests;
      CaseSays(tests[n], suiteStart);
      PassEntriesSnoc(TestsJson(tests[..n], suiteStart), TestJson(tests[n], tests[n].result, suiteStart));
    }
  }

  lemma {:induction false} PassEntriesSnoc(entries: seq<Value>, v: Value)
    ensures PassEntries(entries + [v]) == PassEntries(entries) + if SaysPass(v) then 1 else 0
  {
    assert (entries + [v])[..|entries|] == entries;
  }

  lemma {:induction false} CaseSays(test: TestCase, suiteStart: U32)
    ensures SaysPass(TestJson(test, test.result, suiteStart)) <==> test.result
  {
    var items, v := StmtsJson(test.body, suiteStart), TestJson(test, test.result, suiteStart);
    TestMeans(v, test.name, test.source, suiteStart, test.tick, test.startTick, items, test.result, test.endTick);
    ResultSays(v, test.name, test.source, suiteStart, test.tick, test.startTick, items, test.result, test.endTick);
  }

  lemma {:induction false} DocumentMeans(suite: Open, tests: seq<TestCase>, suiteStart: U32, endTick: U32)
    requires |tests| < 0x1_0000_0000
    ensures MeansRun(Document(suite, tests, Results(tests), suiteStart, Since(endTick, suiteStart)),
                     suite, tests, suiteStart, endTick)
  {
    var d := Document(suite, tests, Results(tests), suiteStart, Since(endTick, suiteStart));
    TestsMean(tests, suiteStart);
    RestOfDocument(d, suite, tests, suiteStart, endTick);
    var entries, passed := TestsJson(tests, suiteStart), CountPassed(Results(tests));
    var rest := LastMembers(suite, entries, passed, |tests| - passed, Since(endTick, suiteStart));
    RestMeans(suite, rest, tests, entries, passed, |tests| - passed, suiteStart, endTick);
  }

  /** The members that follow those of the suite. */
  function LastMembers(suite: Open, entries: seq<Value>, passed: U32, failed: U32, ms: U32): seq<Member> {
    [("events", Arr(suite.items)), ("tests", Arr(entries))] + SummaryMembers(passed, failed, ms)
  }

  lemma {:induction false} LastMembersMean(rest: seq<Member>, suite: Open, entries: seq<Value>, passed: U32,
                                           failed: U32, suiteStart: U32, endTick: U32)
    requires rest == LastMembers(suite, entries, passed, failed, Since(endTick, suiteStart))
    ensures IsObject(Obj(rest), 4)
    ensures MeansOutcome(Obj(rest), suite.items, entries, passed, failed, suiteStart, endTick)
  {
    assert rest[0..] == rest;
    OutcomeMeans(Obj(rest), 0, suite.items, entries, passed, failed, suiteStart, endTick);
    OutcomeNames(rest);
  }

  lemma {:induction false} RestMeans(suite: Open, rest: seq<Member>, tests: seq<TestCase>, entries: seq<Value>,
                                     passed: U32, failed: U32, suiteStart: U32, endTick: U32)
    requires rest == LastMembers(suite, entries, passed, failed, Since(endTick, suiteStart))
    requires MeansTests(entries, tests, suiteStart) && passed == PassEntries(entries) && passed + failed == |tests|
    ensures MeansRun(Obj(suite.head + rest), suite, tests, suiteStart, endTick)
  {
    LastMembersMean(rest, suite, entries, passed, failed, suiteStart, endTick);
  }

  lemma {:induction false} RunMeans(p: Parser, suite: Open, tests: seq<TestCase>, results: seq<bool>,
                                    suiteStart: U32, endTick: U32)
    requires |tests| < 0x1_0000_0000 && results == Results(tests)
    requires p == Parser(Done(Document(suite, tests, results, suiteStart, Since(endTick, suiteStart))), [])
    ensures p.mode.Done? && MeansRun(p.mode.v, suite, tests, suiteStart, endTick)
    ensures |results| == |tests| && forall i :: 0 <= i < |tests| ==> results[i] == tests[i].result
  {
    DocumentMeans(suite, tests, suiteStart, endTick);
  }

  lemma {:induction false} RestOfDocument(d: Value, suite: Open, tests: seq<TestCase>, suiteStart: U32, endTick: U32)
    requires |tests| < 0x1_0000_0000
    requires d == Document(suite, tests, Results(tests), suiteStart, Since(endTick, suiteStart))
    ensures var passed := CountPassed(Results(tests));
            passed <= |tests| &&
            d.members == suite.head + LastMembers(suite, TestsJson(tests, suiteStart), passed, |tests| - passed,
                                                  Since(endTick, suiteStart))
  {
    DocumentIs(suite, tests, Results(tests), CountPassed(Results(tests)), suiteStart, Since(endTick, suiteStart));
  }

  /** A whole report, read by name. */
  ghost predicate MeansReport(d: Value, suiteName: ByteStr, urlBase: Option<ByteStr>, prologue: seq<Stmt>,
                              tests: seq<TestCase>, suiteStart: U32, endTick: U32)
  {
    exists events, entries, passed: U32, failed: U32 ::
      && MeansSuite(d, suiteName, urlBase, events, entries, passed, failed, suiteStart, endTick)
      && MeansStmts(events, prologue, suiteStart) && MeansTests(entries, tests, suiteStart)
      && passed == PassEntries(entries) && passed + failed == |tests|
  }

  lemma {:induction false} PrologueRecorded(head: seq<Member>, testStart: U32, prologue: seq<Stmt>, suiteStart: U32)
    ensures RecordAll(Track(SuiteOpen([Open(head, [])]), testStart), AllCalls(prologue), suiteStart).tree
         == SuiteOpen([Open(head, StmtsJson(prologue, suiteStart))])
  {
    var items, ls := StmtsJson(prologue, suiteStart), [Open(head, [])];
    RecordsStructure(Track(SuiteOpen(ls), testStart), prologue, suiteStart);
    assert Init(ls) == [] && [] + items == items;
    assert AddItems(ls, items) == [Open(head, items)];
  }

  lemma {:induction false} ReportMeans(p: Parser, suiteName: ByteStr, urlBase: Option<ByteStr>, prologue: seq<Stmt>,
      tests: seq<TestCase>, results: seq<bool>, suiteStart: U32, endTick: U32)
    requires |tests| < 0x1_0000_0000 && results == Results(tests)
    requires p == Parser(Done(Document(Open(SuiteHead(suiteName, urlBase), StmtsJson(prologue, suiteStart)),
                                       tests, results, suiteStart, Since(endTick, suiteStart))), [])
    ensures p.mode.Done? && MeansReport(p.mode.v, suiteName, urlBase, prologue, tests, suiteStart, endTick)
  {
    var events, entries := StmtsJson(prologue, suiteStart), TestsJson(tests, suiteStart);
    var suite, passed := Open(SuiteHead(suiteName, urlBase), events), CountPassed(results);
    StmtsMean(prologue, suiteStart);
    TestsMean(tests, suiteStart);
    RestOfDocument(p.mode.v, suite, tests, suiteStart, endTick);
    SuiteMeans(p.mode.v, suiteName, urlBase, events, entries, passed, |tests| - passed, suiteStart, endTick);
  }

  /** The recording between two tests of the loop. */
  function AfterTests(suite: Open, done: seq<Value>): Recording {
    if done == [] then SuiteOpen([suite]) else TestsOpen([], Closed(suite), done)
  }

  lemma {:induction false} TestOpens(suite: Open, done: seq<Value>, head: seq<Member>)
    ensures StartTest(AfterTests(suite, done), head) == TestOpen([], Closed(suite), done, [Open(head, [])])
  {
    assert Frames(Init([suite])) == [];
  }

  lemma {:induction false} BodyRecorded(suite: Open, done: seq<Value>, test: TestCase, suiteStart: U32)
    ensures var head := TestHead(test.name, test.source, Since(test.tick, suiteStart));
            var t := Track(TestOpen([], Closed(suite), done, [Open(head, [])]), test.startTick);
            RecordAll(t, AllCalls(test.body), suiteStart).tree
            == TestOpen([], Closed(suite), done, [Open(head, StmtsJson(test.body, suiteStart))])
  {
    var head := TestHead(test.name, test.source, Since(test.tick, suiteStart));
    var t := Track(TestOpen([], Closed(suite), done, [Open(head, [])]), test.startTick);
    RecordsStructure(t, test.body, suiteStart);
    var items := StmtsJson(test.body, suiteStart);
    assert Init([Open(head, [])]) == [] && [] + items == items;
    assert AddItems([Open(head, [])], items) == [Open(head, items)];
  }

  lemma {:induction false} TestRecorded(suite: Open, done: seq<Value>, test: TestCase, suiteStart: U32)
    ensures var head := TestHead(test.name, test.source, Since(test.tick, suiteStart));
            var t := Track(StartTest(AfterTests(suite, done), head), test.startTick);
            HasLevels(t.tree)
            && FinishTest(RecordAll(t, AllCalls(test.body), suiteStart).tree, test.result,
                          Since(test.endTick, test.startTick))
               == AfterTests(suite, done + [TestJson(test, test.result, suiteStart)])
  {
    var head := TestHead(test.name, test.source, Since(test.tick, suiteStart));
    TestOpens(suite, done, head);
    BodyRecorded(suite, done, test, suiteStart);
  }

  lemma {:induction false} DocumentRecorded(suite: Open, tests: seq<TestCase>, results: seq<bool>, passed: nat,
                                            suiteStart: U32, ms: U32)
    requires |tests| < 0x1_0000_0000 && results == Results(tests) && passed == CountPassed(results)
    ensures FinishSuite(AfterTests(suite, TestsJson(tests, suiteStart)), passed, |tests| - passed, ms)
         == Finished([], Document(suite, tests, results, suiteStart, ms))
  {
    FinishAfterTests(suite, TestsJson(tests, suiteStart), passed, |tests| - passed, ms);
    DocumentIs(suite, tests, results, passed, suiteStart, ms);
  }

  lemma {:induction false} DocumentIs(suite: Open, tests: seq<TestCase>, results: seq<bool>, passed: nat,
                                      suiteStart: U32, ms: U32)
    requires |tests| < 0x1_0000_0000 && results == Results(tests) && passed == CountPassed(results)
    ensures passed <= |tests| && |results| == |tests|
    ensures Document(suite, tests, results, suiteStart, ms)
         == Obj(Closed(suite) + [("tests", Arr(TestsJson(tests, suiteStart)))]
                + SummaryMembers(passed, |tests| - passed, ms))
  {
    EntriesAreTests(tests, results, suiteStart);
  }

  /** The suite ends the same way whether or not a test was begun. */
  lemma {:induction false} FinishAfterTests(suite: Open, done: seq<Value>, passed: nat, failed: nat, ms: nat)
    ensures FinishSuite(AfterTests(suite, done), passed, failed, ms)
         == Finished([], Obj(Closed(suite) + [("tests", Arr(done))] + SummaryMembers(passed, failed, ms)))
  {
    assert Frames(Init([suite])) == [];
  }

  lemma {:induction false} NextTest(tests: seq<TestCase>, i: nat, suiteStart: U32)
    requires i < |tests|
    ensures TestsJson(tests[..i + 1], suiteStart)
         == TestsJson(tests[..i], suiteStart) + [TestJson(tests[i], tests[i].result, suiteStart)]
    ensures Results(tests[..i + 1]) == Results(tests[..i]) + [tests[i].result]
    ensures CountPassed(Results(tests[..i + 1])) == CountPassed(Results(tests[..i])) + if tests[i].result then 1 else 0
  {
    var before := Results(tests[..i]);
    assert (before + [tests[i].result])[..|before|] == before;
  }

  class TestRunner {
    const tests: seq<TestCase>
    var results: seq<bool>

    constructor (tests: seq<TestCase>)
      requires |tests| < 0x1_0000_0000
      ensures this.tests == tests
    {
      this.tests := tests;
      results := [];
    }

    /** One turn of the loop. */
    method RunTest(log: Log, i: nat, ghost suite: Open, ghost done: seq<Value>)
      requires i < |tests| && log.Valid() && log.tree == AfterTests(suite, done)
      modifies this`results, log`file, log`doc, log`phase, log`hasTests, log`testStartMs, log`arrayHasItem, log`tree
      ensures log.Valid() && results == old(results) + [tests[i].result]
      ensures log.tree == AfterTests(suite, done + [TestJson(tests[i], tests[i].result, log.suiteStartMs)])
    {
      var test := tests[i];
      TestRecorded(suite, done, test, log.suiteStartMs);
      TestCanStart(log.Now());
      ghost var written := log.BeginTest(test.name, test.source, test.startTick, test.tick);
      written := PerformAll(log, AllCalls(test.body));
      KeepsTestStartTick(suite, done, test, log.suiteStartMs);
      written := log.EndTest(test.result, test.endTick);
      results := results + [test.result];
    }

    /** One turn of the loop, with its count. */
    method RunNext(log: Log, i: nat, ghost suite: Open, before: U32) returns (passed: U32)
      requires i < |tests| < 0x1_0000_0000
      requires log.Valid() && log.tree == AfterTests(suite, TestsJson(tests[..i], log.suiteStartMs))
      requires results == Results(tests[..i]) && before == CountPassed(results)
      modifies this`results, log`file, log`doc, log`phase, log`hasTests, log`testStartMs, log`arrayHasItem, log`tree
      ensures log.Valid() && log.tree == AfterTests(suite, TestsJson(tests[..i + 1], log.suiteStartMs))
      ensures results == Results(tests[..i + 1]) && passed == CountPassed(results)
    {
      NextTest(tests, i, log.suiteStartMs);
      RunTest(log, i, suite, TestsJson(tests[..i], log.suiteStartMs));
      passed := before;
      if results[i] {
        passed := passed + 1;
      }
    }

    method RunLoop(log: Log, ghost suite: Open) returns (passed: U32)
      requires |tests| < 0x1_0000_0000
      requires log.Valid() && log.tree == SuiteOpen([suite])
      modifies this`results, log`file, log`doc, log`phase, log`hasTests, log`testStartMs, log`arrayHasItem, log`tree
      ensures log.Valid() && results == Results(tests) && passed == CountPassed(results)
      ensures log.tree == AfterTests(suite, TestsJson(tests, log.suiteStartMs))
    {
      results := [];
      passed := 0;
      for i := 0 to |tests|
        invariant log.Valid() && log.tree == AfterTests(suite, TestsJson(tests[..i], log.suiteStartMs))
        invariant results == Results(tests[..i]) && passed == CountPassed(results)
      {
        passed := RunNext(log, i, suite, passed);
      }
      assert tests[..|tests|] == tests;
    }

    method RunAllTests(log: Log, ghost suite: Open, testTick: U32, endTick: U32)
      requires |tests| < 0x1_0000_0000
      requires log.Valid() && log.tree == SuiteOpen([suite])
      modifies this`results, log`file, log`doc, log`phase, log`hasTests, log`testStartMs, log`arrayHasItem, log`tree
      ensures log.Valid() && results == Results(tests)
      ensures Parse(log.doc)
           == Parser(Done(Document(suite, tests, results, log.suiteStartMs, Since(endTick, log.suiteStartMs))), [])
      ensures |results| == |tests| && forall i :: 0 <= i < |tests| ==> results[i] == tests[i].result
      ensures MeansRun(Parse(log.doc).mode.v, suite, tests, log.suiteStartMs, endTick)
    {
      var passed := RunLoop(log, suite);
      DocumentRecorded(suite, tests, results, passed, log.suiteStartMs, Since(endTick, log.suiteStartMs));
      FinishRun(log, passed, |tests| - passed, testTick, endTick);
      RunMeans(Parse(log.doc), suite, tests, results, log.suiteStartMs, endTick);
    }

    /** The suite as `Run` logs it once the file is open: what is logged before the tests, and the tests. */
    method RunSuiteOfTests(log: Log, suiteName: ByteStr, tick: U32, prologue: seq<Stmt>, testTick: U32, endTick: U32)
      requires |tests| < 0x1_0000_0000 && log.initialized
      modifies log, this`results
      ensures log.file == old(log.file) + log.doc && Parse(log.doc).mode.Done?
      ensures MeansReport(Parse(log.doc).mode.v, suiteName, log.urlBase, prologue, tests, tick, endTick)
    {
      log.BeginSuite(suiteName, tick);
      ghost var head, testStart := SuiteHead(suiteName, log.urlBase), log.testStartMs;
      ghost var written := PerformAll(log, AllCalls(prologue));
      PrologueRecorded(head, testStart, prologue, tick);
      ghost var suite := Open(head, StmtsJson(prologue, tick));
      RunAllTests(log, suite, testTick, endTick);
      ReportMeans(Parse(log.doc), suiteName, log.urlBase, prologue, tests, results, tick, endTick);
    }
  }

  /** No call of a test's body begins another test, so its start time stays. */
  lemma {:induction false} KeepsTestStartTick(suite: Open, done: seq<Value>, test: TestCase, suiteStart: U32)
    ensures var head := TestHead(test.name, test.source, Since(test.tick, suiteStart));
            var t := Track(StartTest(AfterTests(suite, done), head), test.startTick);
            HasLevels(t.tree) && RecordAll(t, AllCalls(test.body), suiteStart).testStart == test.startTick
  {
    var t := Track(StartTest(AfterTests(suite, done), TestHead(test.name, test.source, Since(test.tick, suiteStart))),
                   test.startTick);
    RecordsStructure(t, test.body, suiteStart);
  }
}
