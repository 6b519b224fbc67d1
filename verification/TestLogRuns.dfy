/**
  Whole runs of the test log: any sequence of calls between BeginSuite and EndSuite, and the calls
  made by code that opens scopes only through ScopeGuard.
 */
module TestLogRuns {
  import opened Json
  import opened JsonText
  import opened TestLog
  import opened LogEntries
  import opened LogMeaning

  /** A call, with what it is given and what the clock reads during it. */
  datatype Call =
    | CallEvent(level: Level, place: Place, fields: LogFields, formatted: ByteStr, tick: U32)
    | CallHexDump(place: Place, title: ByteStr, data: seq<U8>, tick: U32)
    | CallBeginScope(place: Place, name: ByteStr, tick: U32)
    | CallEndScope
    | CallBeginTest(name: ByteStr, source: ByteStr, startTick: U32, tick: U32)
    | CallEndTest(passed: bool, tick: U32)

  /** What has been recorded, and the clock reading at the start of the current test. */
  datatype Track = Track(tree: Recording, testStart: U32)

  /** What one call records, with no reference to text, separators or flags. */
  function Record(t: Track, call: Call, suiteStart: U32): Track {
    match call
    case CallEvent(level, place, fields, formatted, tick) =>
      t.(tree := Item(t.tree, EventJson(level, Message(formatted), place, Since(tick, suiteStart), fields)))
    case CallHexDump(place, title, data, tick) =>
      t.(tree := Item(t.tree, DumpJson(title, data, place, Since(tick, suiteStart))))
    case CallBeginScope(place, name, tick) =>
      t.(tree := Deeper(t.tree, ScopeHead(name, place, Since(tick, suiteStart))))
    case CallEndScope => t.(tree := Shallower(t.tree))
    case CallBeginTest(name, source, startTick, tick) =>
      if t.tree.SuiteOpen? || t.tree.TestsOpen?
      then Track(StartTest(t.tree, TestHead(name, source, Since(tick, suiteStart))), startTick)
      else t
    case CallEndTest(passed, tick) => t.(tree := FinishTest(t.tree, passed, Since(tick, t.testStart)))
  }

  function RecordAll(t: Track, calls: seq<Call>, suiteStart: U32): Track {
    if calls == [] then t
    else Record(RecordAll(t, calls[..|calls| - 1], suiteStart), calls[|calls| - 1], suiteStart)
  }

  lemma {:induction false} RecordAppend(t: Track, a: seq<Call>, b: seq<Call>, suiteStart: U32)
    ensures RecordAll(t, a + b, suiteStart) == RecordAll(RecordAll(t, a, suiteStart), b, suiteStart)
    decreases |b|
  {
    if b == [] {
      assert a + b == a;
    } else {
      assert (a + b)[..|a + b| - 1] == a + b[..|b| - 1];
      RecordAppend(t, a, b[..|b| - 1], suiteStart);
    }
  }

  // ---------------------------------------------------------------- running the writer

  lemma {:induction false} StillTracked(t: Track, call: Call, suiteStart: U32)
    requires t.tree != Untracked
    ensures Record(t, call, suiteStart).tree != Untracked
  {
  }

  lemma {:induction false} TestCanStart(c: Core)
    requires Consistent(c) && c.tree != Untracked
    ensures c.initialized
    ensures c.phase == SuiteEvents || c.phase == Tests <==> c.tree.SuiteOpen? || c.tree.TestsOpen?
  {
    ConsistentIff(c);
  }

  /** The calls that leave the phase alone. */
  method PerformItem(log: Log, call: Call) returns (ghost written: string)
    requires log.Valid() && !call.CallBeginTest? && !call.CallEndTest?
    modifies log`file, log`doc, log`arrayHasItem, log`tree
    ensures log.Valid() && log.file == old(log.file) + written
    ensures log.tree == Record(Track(old(log.tree), log.testStartMs), call, log.suiteStartMs).tree
  {
    match call {
      case CallEvent(level, place, fields, formatted, tick) =>
        written := log.Event(level, place, fields, formatted, tick);
      case CallHexDump(place, title, data, tick) =>
        written := log.HexDump(place, title, data, tick);
      case CallBeginScope(place, name, tick) =>
        written := log.BeginScope(place, name, tick);
      case CallEndScope =>
        written := log.EndScope();
    }
  }

  method Perform(log: Log, call: Call) returns (ghost written: string)
    requires log.Valid() && log.tree != Untracked
    modifies log`file, log`doc, log`phase, log`hasTests, log`testStartMs, log`arrayHasItem, log`tree
    ensures log.Valid() && log.tree != Untracked && log.file == old(log.file) + written
    ensures Track(log.tree, log.testStartMs)
         == Record(Track(old(log.tree), old(log.testStartMs)), call, log.suiteStartMs)
  {
    StillTracked(Track(log.tree, log.testStartMs), call, log.suiteStartMs);
    match call {
      case CallBeginTest(name, source, startTick, tick) =>
        TestCanStart(log.Now());
        written := log.BeginTest(name, source, startTick, tick);
      case CallEndTest(passed, tick) =>
        written := log.EndTest(passed, tick);
      case _ =>
        written := PerformItem(log, call);
    }
  }

  /** Any sequence of calls writes the document that `RecordAll` describes. */
  method PerformAll(log: Log, calls: seq<Call>) returns (ghost written: string)
    requires log.Valid() && log.tree != Untracked
    modifies log`file, log`doc, log`phase, log`hasTests, log`testStartMs, log`arrayHasItem, log`tree
    ensures log.Valid() && log.tree != Untracked
    ensures log.file == old(log.file) + written
    ensures Track(log.tree, log.testStartMs)
         == RecordAll(Track(old(log.tree), old(log.testStartMs)), calls, log.suiteStartMs)
  {
    written := "";
    ghost var t0 := Track(log.tree, log.testStartMs);
    for i := 0 to |calls|
      invariant log.Valid() && log.tree != Untracked
      invariant log.file == old(log.file) + written
      invariant Track(log.tree, log.testStartMs) == RecordAll(t0, calls[..i], log.suiteStartMs)
    {
      assert calls[..i + 1][..i] == calls[..i];
      ghost var piece := Perform(log, calls[i]);
      Assoc(old(log.file), written, piece);
      written := written + piece;
    }
    assert calls[..|calls|] == calls;
  }

  // ---------------------------------------------------------------- what a truncated file still says

  /** The members before "events" or "tests" of the objects that are still open, outermost first. */
  function OpenObjects(stack: seq<Frame>): seq<seq<Member>> {
    if stack == [] then []
    else
      var last := stack[|stack| - 1];
      OpenObjects(stack[..|stack| - 1]) + if last.InObj? then [last.members] else []
  }

  function Heads(ls: seq<Open>): seq<seq<Member>> { seq(|ls|, i requires 0 <= i < |ls| => ls[i].head) }

  lemma {:induction false} OpenObjectsAppend(a: seq<Frame>, b: seq<Frame>)
    ensures OpenObjects(a + b) == OpenObjects(a) + OpenObjects(b)
    decreases |b|
  {
    if b == [] {
      assert a + b == a;
    } else {
      assert (a + b)[..|a + b| - 1] == a + b[..|b| - 1];
      OpenObjectsAppend(a, b[..|b| - 1]);
    }
  }

  lemma {:induction false} FramesAreHeads(ls: seq<Open>)
    ensures OpenObjects(Frames(ls)) == Heads(ls)
  {
    if ls != [] {
      var init, o := ls[..|ls| - 1], ls[|ls| - 1];
      FramesAreHeads(init);
      var pair := [InObj(o.head, "events"), InArr(o.items)];
      OpenObjectsAppend(Frames(init), pair);
      assert pair[..1] == [pair[0]] && OpenObjects(pair[..1][..0]) == [];
      assert OpenObjects(pair[..1]) == [o.head] && OpenObjects(pair) == [o.head];
    }
  }

  /**
    The file as a crash leaves it at a call boundary, read by RFC 8259: it is an incomplete document, its
    unclosed objects are the test in progress and the open scopes, in order, inside those around them, and
    a comma is due exactly when the writer's top flag says so.
   */
  lemma {:induction false} CrashPrefix(c: Core)
    requires Consistent(c) && HasLevels(c.tree)
    ensures var p := Feed(START, c.doc);
            OpenObjects(p.stack) == OpenObjects(Outer(c.tree)) + Heads(c.tree.levels)
    ensures c.flags != [] &&
            Feed(START, c.doc).mode == if c.flags[|c.flags| - 1] then WantCommaOrEnd else WantValueOrEnd
    ensures !Parse(c.doc).mode.Done?
  {
    TopFlag(c);
    LeadsIsFeed(START, c.doc, Image(c.tree));
    ImageOfLevels(c.tree);
    OpenObjectsAppend(Outer(c.tree), Frames(c.tree.levels));
    FramesAreHeads(c.tree.levels);
  }

  lemma {:induction false} ImageOfLevels(r: Recording)
    requires HasLevels(r)
    ensures Image(r).stack == Outer(r) + Frames(r.levels)
    ensures Image(r).mode == if Last(r.levels).items != [] then WantCommaOrEnd else WantValueOrEnd
  {
  }

  /** Between tests the unclosed object is the suite's, and has_tests says whether a comma is due. */
  lemma {:induction false} CrashBetweenTests(c: Core)
    requires Consistent(c) && c.tree.TestsOpen?
    ensures OpenObjects(Feed(START, c.doc).stack) == OpenObjects(c.tree.below) + [c.tree.head]
    ensures Feed(START, c.doc).mode == if c.hasTests then WantCommaOrEnd else WantValueOrEnd
    ensures !Parse(c.doc).mode.Done?
  {
    ConsistentIff(c);
    LeadsIsFeed(START, c.doc, Image(c.tree));
    var pair := [InObj(c.tree.head, "tests"), InArr(c.tree.tests)];
    OpenObjectsAppend(c.tree.below, pair);
    assert pair[..1] == [pair[0]] && OpenObjects(pair[..1][..0]) == [];
    assert OpenObjects(pair[..1]) == [c.tree.head];
  }

  /** A crash inside a write: however the file of an unfinished run is cut, it is no document. */
  lemma {:induction false} CrashAnywhere(c: Core, k: nat)
    requires Consistent(c) && (HasLevels(c.tree) || c.tree.TestsOpen?) && k <= |c.doc|
    ensures !Parse(c.doc[..k]).mode.Done?
  {
    ConsistentIff(c);
    LeadsIsFeed(START, c.doc, Image(c.tree));
    if HasLevels(c.tree) { FramesCount(c.tree.levels); }
    OpenHasNoDocument(c.doc, k);
  }

  // ---------------------------------------------------------------- when the result is a document

  /** Scopes of the suite still open when it is left: at the first BeginTest, or at EndSuite. */
  function LeftOpen(calls: seq<Call>, depth: nat): nat {
    if calls == [] then depth
    else if calls[0].CallBeginTest? then depth else LeftOpen(calls[1..], DepthAfter(calls[0], depth))
  }

  /** The tree after EndSuite, which ends a test that is still open. */
  function Ended(t: Track, passed: U32, failed: U32, testTick: U32, ms: U32): Recording {
    FinishSuite(FinishTest(t.tree, false, Since(testTick, t.testStart)), passed, failed, ms)
  }

  lemma {:induction false} FramesCount(ls: seq<Open>)
    ensures |Frames(ls)| == 2 * |ls|
  {
    if ls != [] { FramesCount(ls[..|ls| - 1]); }
  }

  lemma {:induction false} RecordFirst(t: Track, calls: seq<Call>, suiteStart: U32)
    requires calls != []
    ensures RecordAll(t, calls, suiteStart) == RecordAll(Record(t, calls[0], suiteStart), calls[1..], suiteStart)
  {
    assert calls == [calls[0]] + calls[1..];
    RecordAppend(t, [calls[0]], calls[1..], suiteStart);
    assert [calls[0]][..0] == [];
  }

  /** Once the suite's own events are left, the containers around the document stay what they are. */
  lemma {:induction false} BelowStays(t: Track, calls: seq<Call>, suiteStart: U32)
    requires t.tree.TestsOpen? || t.tree.TestOpen?
    ensures var u := RecordAll(t, calls, suiteStart).tree;
            (u.TestsOpen? || u.TestOpen?) && u.below == t.tree.below
  {
    if calls != [] {
      BelowStays(t, calls[..|calls| - 1], suiteStart);
    }
  }

  function DepthAfter(call: Call, depth: nat): nat {
    match call
    case CallBeginScope(_, _, _) => depth + 1
    case CallEndScope => if depth > 0 then depth - 1 else 0
    case _ => depth
  }

  lemma {:induction false} DepthStep(t: Track, call: Call, suiteStart: U32)
    requires t.tree.SuiteOpen?
    ensures var t', n := Record(t, call, suiteStart), |t.tree.levels| - 1;
            if call.CallBeginTest? then t'.tree.TestOpen? && |t'.tree.below| == 2 * n
            else t'.tree.SuiteOpen? && |t'.tree.levels| == DepthAfter(call, n) + 1
  {
    if call.CallBeginTest? { FramesCount(Init(t.tree.levels)); }
  }

  lemma {:induction false} LeftOpenIsBelow(t: Track, calls: seq<Call>, suiteStart: U32)
    requires t.tree.SuiteOpen?
    ensures var u, n := RecordAll(t, calls, suiteStart).tree, LeftOpen(calls, |t.tree.levels| - 1);
            if u.SuiteOpen? then |u.levels| == n + 1
            else (u.TestsOpen? || u.TestOpen?) && |u.below| == 2 * n
    decreases |calls|
  {
    if calls != [] {
      RecordFirst(t, calls, suiteStart);
      DepthStep(t, calls[0], suiteStart);
      if calls[0].CallBeginTest? {
        BelowStays(Record(t, calls[0], suiteStart), calls[1..], suiteStart);
      } else {
        LeftOpenIsBelow(Record(t, calls[0], suiteStart), calls[1..], suiteStart);
      }
    }
  }

  /** Ending the suite inside n open scopes: a document only if there are none. */
  lemma {:induction false} EndsComplete(u: Recording, n: nat, passed: U32, failed: U32, ms: U32)
    requires if u.SuiteOpen? then |u.levels| == n + 1 else u.TestsOpen? && |u.below| == 2 * n
    ensures var r := FinishSuite(u, passed, failed, ms);
            r.Finished? && (Image(r).mode.Done? <==> n == 0) && (n == 0 ==> Image(r) == Parser(Done(r.doc), []))
  {
    if u.SuiteOpen? { FramesCount(Init(u.levels)); }
  }

  /** The document is complete exactly when no scope of the suite was left open. */
  lemma {:induction false} CompleteIffClosed(t: Track, calls: seq<Call>, suiteStart: U32, passed: U32, failed: U32,
                                             testTick: U32, ms: U32)
    requires t.tree.SuiteOpen? && |t.tree.levels| == 1
    ensures var r := Ended(RecordAll(t, calls, suiteStart), passed, failed, testTick, ms);
            r.Finished? && (Image(r).mode.Done? <==> LeftOpen(calls, 0) == 0)
            && (LeftOpen(calls, 0) == 0 ==> Image(r) == Parser(Done(r.doc), []))
  {
    LeftOpenIsBelow(t, calls, suiteStart);
    var u := RecordAll(t, calls, suiteStart);
    EndsComplete(FinishTest(u.tree, false, Since(testTick, u.testStart)), LeftOpen(calls, 0), passed, failed, ms);
  }

  // ---------------------------------------------------------------- what the calls left in the document

  function NextStage(before: Phase, call: Call): Phase {
    if call.CallBeginTest? then InTest
    else if call.CallEndTest? && before == InTest then Tests
    else before
  }

  /** Whether the calls so far have left the suite's own events, and whether a test is open: read off the calls. */
  function StageOf(calls: seq<Call>): Phase {
    if calls == [] then SuiteEvents else NextStage(StageOf(calls[..|calls| - 1]), calls[|calls| - 1])
  }

  lemma {:induction false} StageIs(t: Track, calls: seq<Call>, suiteStart: U32)
    requires t.tree.SuiteOpen?
    ensures Live(RecordAll(t, calls, suiteStart).tree)
    ensures PhaseOf(RecordAll(t, calls, suiteStart).tree) == StageOf(calls)
  {
    if calls != [] {
      StageIs(t, calls[..|calls| - 1], suiteStart);
      StageMoves(RecordAll(t, calls[..|calls| - 1], suiteStart), calls[|calls| - 1], suiteStart);
    }
  }

  lemma {:induction false} StageMoves(t: Track, call: Call, suiteStart: U32)
    requires Live(t.tree)
    ensures Live(Record(t, call, suiteStart).tree)
    ensures PhaseOf(Record(t, call, suiteStart).tree) == NextStage(PhaseOf(t.tree), call)
  {
  }

  predicate Live(r: Recording) { r.SuiteOpen? || r.TestsOpen? || r.TestOpen? }

  lemma {:induction false} LiveStays(t: Track, call: Call, suiteStart: U32)
    requires Live(t.tree)
    ensures Live(Record(t, call, suiteStart).tree)
    ensures Whole(Record(t, call, suiteStart).tree) ==> Whole(t.tree)
  {
  }

  lemma {:induction false} LiveStaysAll(t: Track, calls: seq<Call>, suiteStart: U32)
    requires Live(t.tree)
    ensures Live(RecordAll(t, calls, suiteStart).tree)
    ensures Whole(RecordAll(t, calls, suiteStart).tree) ==> Whole(t.tree)
  {
    if calls != [] {
      LiveStaysAll(t, calls[..|calls| - 1], suiteStart);
      LiveStays(RecordAll(t, calls[..|calls| - 1], suiteStart), calls[|calls| - 1], suiteStart);
    }
  }

  /** A call loses nothing that has been recorded. */
  lemma {:induction false} EntryStays(w: Value, t: Track, call: Call, suiteStart: U32)
    requires InTree(w, t.tree) && Whole(Record(t, call, suiteStart).tree)
    ensures InTree(w, Record(t, call, suiteStart).tree)
  {
    match call
    case CallEvent(level, place, fields, formatted, tick) =>
      ItemKeeps(w, t.tree, EventJson(level, Message(formatted), place, Since(tick, suiteStart), fields));
    case CallHexDump(place, title, data, tick) =>
      ItemKeeps(w, t.tree, DumpJson(title, data, place, Since(tick, suiteStart)));
    case CallBeginScope(place, name, tick) =>
      DeeperKeeps(w, t.tree, ScopeHead(name, place, Since(tick, suiteStart)));
    case CallEndScope => ShallowerKeeps(w, t.tree);
    case CallBeginTest(name, source, startTick, tick) =>
      if t.tree.SuiteOpen? || t.tree.TestsOpen? {
        StartTestKeeps(w, t.tree, TestHead(name, source, Since(tick, suiteStart)));
      }
    case CallEndTest(passed, tick) => FinishTestKeeps(w, t.tree, passed, Since(tick, t.testStart));
  }

  lemma {:induction false} EntryStaysAll(w: Value, t: Track, calls: seq<Call>, suiteStart: U32)
    requires InTree(w, t.tree) && Live(t.tree) && Whole(RecordAll(t, calls, suiteStart).tree)
    ensures InTree(w, RecordAll(t, calls, suiteStart).tree)
  {
    if calls != [] {
      var init, call := calls[..|calls| - 1], calls[|calls| - 1];
      LiveStaysAll(t, init, suiteStart);
      LiveStays(RecordAll(t, init, suiteStart), call, suiteStart);
      EntryStaysAll(w, t, init, suiteStart);
      EntryStays(w, RecordAll(t, init, suiteStart), call, suiteStart);
    }
  }

  /** Nor does the end of the suite. */
  lemma {:induction false} EntryStaysToTheEnd(w: Value, t: Track, passed: U32, failed: U32, testTick: U32, ms: U32)
    requires InTree(w, t.tree) && Whole(t.tree) && (t.tree.SuiteOpen? ==> |t.tree.levels| == 1)
    ensures var r := Ended(t, passed, failed, testTick, ms); r.Finished? && Within(w, r.doc)
  {
    FinishTestKeeps(w, t.tree, false, Since(testTick, t.testStart));
    FinishSuiteKeeps(w, FinishTest(t.tree, false, Since(testTick, t.testStart)), passed, failed, ms);
  }

  /** An open or recorded scope is kept, too. */
  lemma {:induction false} ScopeStays(head: seq<Member>, t: Track, call: Call, suiteStart: U32)
    requires HasScope(head, t.tree) && Whole(Record(t, call, suiteStart).tree)
    ensures HasScope(head, Record(t, call, suiteStart).tree)
  {
    if items :| InTree(ScopeValue(head, items), t.tree) {
      EntryStays(ScopeValue(head, items), t, call, suiteStart);
    } else {
      OpenScopeStays(head, t, call, suiteStart);
    }
  }

  lemma {:induction false} OpenScopeStays(head: seq<Member>, t: Track, call: Call, suiteStart: U32)
    requires HasLevels(t.tree) && ScopeAt(head, t.tree.levels) && Whole(Record(t, call, suiteStart).tree)
    ensures HasScope(head, Record(t, call, suiteStart).tree)
  {
    var ls := t.tree.levels;
    var k :| 1 <= k < |ls| && ls[k].head == head;
    match call
    case CallEvent(_, _, _, _, _) => assert Record(t, call, suiteStart).tree.levels[k].head == head;
    case CallHexDump(_, _, _, _) => assert Record(t, call, suiteStart).tree.levels[k].head == head;
    case CallBeginScope(_, _, _) => assert Record(t, call, suiteStart).tree.levels[k].head == head;
    case CallEndScope => ScopeCloses(head, ls);
    case CallBeginTest(_, _, _, _) =>
      if t.tree.SuiteOpen? { OneLevelLeft(ls); }
    case CallEndTest(passed, tick) => TestWithScopeEnds(head, t.tree, passed, Since(tick, t.testStart));
  }

  /** Ending a test closes its scopes. */
  lemma {:induction false} TestWithScopeEnds(head: seq<Member>, r: Recording, passed: bool, ms: nat)
    requires HasLevels(r) && ScopeAt(head, r.levels)
    ensures HasScope(head, FinishTest(r, passed, ms))
    ensures r.TestOpen? ==> exists items :: InTree(ScopeValue(head, items), FinishTest(r, passed, ms))
  {
    if r.TestOpen? {
      ScopeFinallyCloses(head, r.levels);
      var items :| InItems(ScopeValue(head, items), CloseAll(r.levels).items);
      var w, o := ScopeValue(head, items), CloseAll(r.levels);
      var v := Obj(Closed(o) + ResultMembers(passed, ms));
      InClosed(w, o);
      InMembersAppend(w, Closed(o), ResultMembers(passed, ms));
      ObjectHolds(w, v.members);
      InOneItem(w, v);
      InItemsAppend(w, r.tests, [v]);
      assert InTree(w, FinishTest(r, passed, ms));
    }
  }

  lemma {:induction false} ScopeStaysAll(head: seq<Member>, t: Track, calls: seq<Call>, suiteStart: U32)
    requires HasScope(head, t.tree) && Live(t.tree) && Whole(RecordAll(t, calls, suiteStart).tree)
    ensures HasScope(head, RecordAll(t, calls, suiteStart).tree)
  {
    if calls != [] {
      var init, call := calls[..|calls| - 1], calls[|calls| - 1];
      LiveStaysAll(t, init, suiteStart);
      LiveStays(RecordAll(t, init, suiteStart), call, suiteStart);
      ScopeStaysAll(head, t, init, suiteStart);
      ScopeStays(head, RecordAll(t, init, suiteStart), call, suiteStart);
    }
  }

  lemma {:induction false} ScopeStaysToTheEnd(head: seq<Member>, t: Track, passed: U32, failed: U32, testTick: U32,
                                              ms: U32)
    requires HasScope(head, t.tree) && Whole(t.tree) && (t.tree.SuiteOpen? ==> |t.tree.levels| == 1)
    ensures var r := Ended(t, passed, failed, testTick, ms);
            r.Finished? && exists items :: Within(ScopeValue(head, items), r.doc)
  {
    if HasLevels(t.tree) && ScopeAt(head, t.tree.levels) {
      var u := t.(tree := FinishTest(t.tree, false, Since(testTick, t.testStart)));
      TestWithScopeEnds(head, t.tree, false, Since(testTick, t.testStart));
      var items :| InTree(ScopeValue(head, items), u.tree);
      FinishSuiteKeeps(ScopeValue(head, items), u.tree, passed, failed, ms);
    } else {
      var items :| InTree(ScopeValue(head, items), t.tree);
      EntryStaysToTheEnd(ScopeValue(head, items), t, passed, failed, testTick, ms);
    }
  }

  /** The tests begun: a call to BeginTest while one is open begins none. */
  function TestsBegun(calls: seq<Call>): nat {
    if calls == [] then 0
    else
      var init := calls[..|calls| - 1];
      TestsBegun(init) + if calls[|calls| - 1].CallBeginTest? && StageOf(init) != InTest then 1 else 0
  }

  function TestsOf(r: Recording): seq<Value> { if r.TestsOpen? || r.TestOpen? then r.tests else [] }

  lemma {:induction false} TestsCounted(t: Track, calls: seq<Call>, suiteStart: U32)
    requires t.tree.SuiteOpen?
    ensures var u := RecordAll(t, calls, suiteStart).tree;
            TestsBegun(calls) == |TestsOf(u)| + if u.TestOpen? then 1 else 0
  {
    if calls != [] {
      var init := calls[..|calls| - 1];
      TestsCounted(t, init, suiteStart);
      StageIs(t, init, suiteStart);
      TestsCountMoves(RecordAll(t, init, suiteStart), calls[|calls| - 1], suiteStart);
    }
  }

  lemma {:induction false} TestsCountMoves(t: Track, call: Call, suiteStart: U32)
    requires Live(t.tree)
    ensures var u := Record(t, call, suiteStart).tree;
            |TestsOf(u)| + (if u.TestOpen? then 1 else 0)
            == |TestsOf(t.tree)| + (if t.tree.TestOpen? then 1 else 0)
               + (if call.CallBeginTest? && PhaseOf(t.tree) != InTest then 1 else 0)
  {
  }

  /** A test that has ended keeps its place. */
  lemma {:induction false} TestsStay(t: Track, calls: seq<Call>, suiteStart: U32)
    requires Live(t.tree)
    ensures TestsOf(t.tree) <= TestsOf(RecordAll(t, calls, suiteStart).tree)
  {
    if calls != [] {
      var init := calls[..|calls| - 1];
      TestsStay(t, init, suiteStart);
      LiveStaysAll(t, init, suiteStart);
      TestsGrow(RecordAll(t, init, suiteStart), calls[|calls| - 1], suiteStart);
    }
  }

  lemma {:induction false} TestsGrow(t: Track, call: Call, suiteStart: U32)
    requires Live(t.tree)
    ensures TestsOf(t.tree) <= TestsOf(Record(t, call, suiteStart).tree)
  {
  }

  /** A test that is open, by what BeginTest recorded. */
  predicate Running(t: Track, head: seq<Member>, startTick: U32, tests: seq<Value>) {
    t.tree.TestOpen? && t.tree.levels[0].head == head && t.testStart == startTick && t.tree.tests == tests
  }

  lemma {:induction false} TestRuns(t: Track, call: Call, suiteStart: U32, head: seq<Member>, startTick: U32,
      tests: seq<Value>)
    requires Running(t, head, startTick, tests) && !call.CallEndTest?
    ensures Running(Record(t, call, suiteStart), head, startTick, tests)
  {
  }

  lemma {:induction false} TestRunsOn(t: Track, calls: seq<Call>, suiteStart: U32, head: seq<Member>, startTick: U32,
      tests: seq<Value>)
    requires Running(t, head, startTick, tests) && forall i :: 0 <= i < |calls| ==> !calls[i].CallEndTest?
    ensures Running(RecordAll(t, calls, suiteStart), head, startTick, tests)
  {
    if calls != [] {
      var init := calls[..|calls| - 1];
      TestRunsOn(t, init, suiteStart, head, startTick, tests);
      TestRuns(RecordAll(t, init, suiteStart), calls[|calls| - 1], suiteStart, head, startTick, tests);
    }
  }

  lemma {:induction false} ClosingKeepsHead(ls: Levels)
    ensures CloseAll(ls).head == ls[0].head
    decreases |ls|
  {
    if |ls| >= 2 { ClosingKeepsHead(CloseScope(ls)); }
  }

  /** The entry of the test that `call` began. */
  ghost predicate TestEntryOf(v: Value, call: Call, suiteStart: U32, passed: bool, endTick: U32) {
    call.CallBeginTest? && exists items ::
      MeansTest(v, call.name, call.source, suiteStart, call.tick, call.startTick, items, passed, endTick)
  }

  /** Ending a test adds its entry. */
  lemma {:induction false} TestEnds(t: Track, call: Call, suiteStart: U32, tests: seq<Value>, passed: bool,
                                    endTick: U32)
    requires call.CallBeginTest?
    requires Running(t, TestHead(call.name, call.source, Since(call.tick, suiteStart)), call.startTick, tests)
    ensures var u := TestsOf(FinishTest(t.tree, passed, Since(endTick, t.testStart)));
            |u| == |tests| + 1 && TestEntryOf(u[|tests|], call, suiteStart, passed, endTick)
  {
    var o := CloseAll(t.tree.levels);
    var v := Obj(Closed(o) + ResultMembers(passed, Since(endTick, call.startTick)));
    ClosingKeepsHead(t.tree.levels);
    TestMeans(v, call.name, call.source, suiteStart, call.tick, call.startTick, o.items, passed, endTick);
    assert TestEntryOf(v, call, suiteStart, passed, endTick);
    assert TestsOf(FinishTest(t.tree, passed, Since(endTick, t.testStart))) == tests + [v];
  }

  lemma {:induction false} TestBegins(t: Track, call: Call, suiteStart: U32)
    requires Live(t.tree) && PhaseOf(t.tree) != InTest && call.CallBeginTest?
    ensures Running(Record(t, call, suiteStart), TestHead(call.name, call.source, Since(call.tick, suiteStart)),
                    call.startTick, TestsOf(t.tree))
  {
  }

  lemma {:induction false} RecordSplit(t: Track, calls: seq<Call>, i: nat, j: nat, suiteStart: U32)
    requires i <= j <= |calls|
    ensures RecordAll(t, calls[..j], suiteStart)
         == RecordAll(RecordAll(t, calls[..i], suiteStart), calls[i..j], suiteStart)
  {
    RecordAppend(t, calls[..i], calls[i..j], suiteStart);
    assert calls[..i] + calls[i..j] == calls[..j];
  }

  lemma {:induction false} RecordStep(t: Track, calls: seq<Call>, i: nat, suiteStart: U32)
    requires i < |calls|
    ensures RecordAll(t, calls[..i + 1], suiteStart)
         == Record(RecordAll(t, calls[..i], suiteStart), calls[i], suiteStart)
  {
    assert calls[..i + 1][..i] == calls[..i];
  }

  /** No call after i and before j ends a test; call j does, or there is none. */
  predicate EndsAt(calls: seq<Call>, i: nat, j: nat) {
    i < j <= |calls| && (forall k :: i < k < j ==> !calls[k].CallEndTest?) && (j < |calls| ==> calls[j].CallEndTest?)
  }

  /** There is one such j for every call. */
  lemma {:induction false} OneEnd(calls: seq<Call>, i: nat, n: nat) returns (j: nat)
    requires i < n <= |calls| && forall k :: i < k < n ==> !calls[k].CallEndTest?
    ensures EndsAt(calls, i, j) && n <= j && forall k: nat :: EndsAt(calls, i, k) ==> k == j
    decreases |calls| - n
  {
    if n < |calls| && !calls[n].CallEndTest? { j := OneEnd(calls, i, n + 1); } else { j := n; }
  }

  lemma {:induction false} TestRunsUntil(t: Track, calls: seq<Call>, i: nat, j: nat, suiteStart: U32)
    requires t.tree.SuiteOpen? && EndsAt(calls, i, j)
    requires calls[i].CallBeginTest? && StageOf(calls[..i]) != InTest
    ensures var tests := TestsOf(RecordAll(t, calls[..i], suiteStart).tree);
            |tests| == TestsBegun(calls[..i]) &&
            Running(RecordAll(t, calls[..j], suiteStart),
                    TestHead(calls[i].name, calls[i].source, Since(calls[i].tick, suiteStart)), calls[i].startTick,
                    tests)
  {
    var before := RecordAll(t, calls[..i], suiteStart);
    var head := TestHead(calls[i].name, calls[i].source, Since(calls[i].tick, suiteStart));
    StageIs(t, calls[..i], suiteStart);
    TestsCounted(t, calls[..i], suiteStart);
    TestBegins(before, calls[i], suiteStart);
    RecordStep(t, calls, i, suiteStart);
    RecordSplit(t, calls, i + 1, j, suiteStart);
    var between := calls[i + 1..j];
    forall k | 0 <= k < |between| ensures !between[k].CallEndTest? { assert between[k] == calls[i + 1 + k]; }
    TestRunsOn(RecordAll(t, calls[..i + 1], suiteStart), between, suiteStart, head, calls[i].startTick,
               TestsOf(before.tree));
  }

  /** The entries of a finished document. */
  function FinalTests(t: Track, testTick: U32): seq<Value> {
    TestsOf(FinishTest(t.tree, false, Since(testTick, t.testStart)))
  }

  lemma {:induction false} FinalTestsCounted(t: Track, calls: seq<Call>, suiteStart: U32, testTick: U32)
    requires t.tree.SuiteOpen?
    ensures |FinalTests(RecordAll(t, calls, suiteStart), testTick)| == TestsBegun(calls)
  {
    TestsCounted(t, calls, suiteStart);
    StageIs(t, calls, suiteStart);
  }

  /** Where the test that call i began ends: its result and the reading of the clock. */
  ghost predicate TestFound(calls: seq<Call>, i: nat, j: nat, suiteStart: U32, testTick: U32, tests: seq<Value>)
    requires EndsAt(calls, i, j)
  {
    var k := TestsBegun(calls[..i]);
    k < |tests| &&
    if j < |calls| then TestEntryOf(tests[k], calls[i], suiteStart, calls[j].passed, calls[j].tick)
    else TestEntryOf(tests[k], calls[i], suiteStart, false, testTick)
  }

  lemma {:induction false} TestEndsAt(t: Track, calls: seq<Call>, i: nat, j: nat, suiteStart: U32)
    requires t.tree.SuiteOpen? && EndsAt(calls, i, j) && j < |calls|
    requires calls[i].CallBeginTest? && StageOf(calls[..i]) != InTest
    ensures var k, tests := TestsBegun(calls[..i]), TestsOf(RecordAll(t, calls[..j + 1], suiteStart).tree);
            k < |tests| && TestEntryOf(tests[k], calls[i], suiteStart, calls[j].passed, calls[j].tick)
  {
    TestRunsUntil(t, calls, i, j, suiteStart);
    TestEnds(RecordAll(t, calls[..j], suiteStart), calls[i], suiteStart,
             TestsOf(RecordAll(t, calls[..i], suiteStart).tree), calls[j].passed, calls[j].tick);
    RecordStep(t, calls, j, suiteStart);
  }

  lemma {:induction false} TestLeftOpen(t: Track, calls: seq<Call>, i: nat, suiteStart: U32, testTick: U32)
    requires t.tree.SuiteOpen? && EndsAt(calls, i, |calls|)
    requires calls[i].CallBeginTest? && StageOf(calls[..i]) != InTest
    ensures var k, tests := TestsBegun(calls[..i]), FinalTests(RecordAll(t, calls, suiteStart), testTick);
            k < |tests| && TestEntryOf(tests[k], calls[i], suiteStart, false, testTick)
  {
    assert calls[..|calls|] == calls;
    TestRunsUntil(t, calls, i, |calls|, suiteStart);
    TestEnds(RecordAll(t, calls, suiteStart), calls[i], suiteStart,
             TestsOf(RecordAll(t, calls[..i], suiteStart).tree), false, testTick);
  }

  lemma {:induction false} TestIsFound(t: Track, calls: seq<Call>, i: nat, j: nat, suiteStart: U32, testTick: U32)
    requires t.tree.SuiteOpen? && EndsAt(calls, i, j)
    requires calls[i].CallBeginTest? && StageOf(calls[..i]) != InTest
    ensures TestFound(calls, i, j, suiteStart, testTick, FinalTests(RecordAll(t, calls, suiteStart), testTick))
  {
    if j < |calls| {
      TestEndsAt(t, calls, i, j, suiteStart);
      EntryIsFinal(t, calls, j + 1, TestsBegun(calls[..i]), suiteStart, testTick);
    } else {
      TestLeftOpen(t, calls, i, suiteStart, testTick);
    }
  }

  lemma {:induction false} EntryIsFinal(t: Track, calls: seq<Call>, n: nat, k: nat, suiteStart: U32, testTick: U32)
    requires t.tree.SuiteOpen? && n <= |calls| && k < |TestsOf(RecordAll(t, calls[..n], suiteStart).tree)|
    ensures var tests := FinalTests(RecordAll(t, calls, suiteStart), testTick);
            k < |tests| && tests[k] == TestsOf(RecordAll(t, calls[..n], suiteStart).tree)[k]
  {
    LiveStaysAll(t, calls[..n], suiteStart);
    RecordSplit(t, calls, n, |calls|, suiteStart);
    assert calls[..|calls|] == calls;
    TestsStay(RecordAll(t, calls[..n], suiteStart), calls[n..], suiteStart);
    LiveStaysAll(t, calls, suiteStart);
    TestsGrow(RecordAll(t, calls, suiteStart), CallEndTest(false, testTick), suiteStart);
  }

  /** The suite's own members stay. */
  lemma {:induction false} SuiteStays(head: seq<Member>, t: Track, call: Call, suiteStart: U32)
    requires SuiteBegins(head, t.tree) && Whole(Record(t, call, suiteStart).tree)
    ensures SuiteBegins(head, Record(t, call, suiteStart).tree)
  {
    if call.CallBeginTest? && t.tree.SuiteOpen? {
      OneLevelLeft(t.tree.levels);
      assert Closed(t.tree.levels[0])[|head|] == ("events", Arr(t.tree.levels[0].items));
    }
  }

  lemma {:induction false} SuiteStaysAll(head: seq<Member>, t: Track, calls: seq<Call>, suiteStart: U32)
    requires SuiteBegins(head, t.tree) && Live(t.tree) && Whole(RecordAll(t, calls, suiteStart).tree)
    ensures SuiteBegins(head, RecordAll(t, calls, suiteStart).tree)
  {
    if calls != [] {
      var init, call := calls[..|calls| - 1], calls[|calls| - 1];
      LiveStaysAll(t, init, suiteStart);
      LiveStays(RecordAll(t, init, suiteStart), call, suiteStart);
      SuiteStaysAll(head, t, init, suiteStart);
      SuiteStays(head, RecordAll(t, init, suiteStart), call, suiteStart);
    }
  }

  lemma {:induction false} SuiteIsFound(t: Track, name: ByteStr, urlBase: Option<ByteStr>, passed: U32, failed: U32,
      testTick: U32, suiteStart: U32, endTick: U32)
    requires SuiteBegins(SuiteHead(name, urlBase), t.tree) && Whole(t.tree)
    requires t.tree.SuiteOpen? ==> |t.tree.levels| == 1
    ensures var r := Ended(t, passed, failed, testTick, Since(endTick, suiteStart));
            r.Finished? && exists events :: MeansSuite(r.doc, name, urlBase, events, FinalTests(t, testTick), passed,
                                                       failed, suiteStart, endTick)
  {
    var head, r := SuiteHead(name, urlBase), Ended(t, passed, failed, testTick, Since(endTick, suiteStart));
    var tests, last := FinalTests(t, testTick), SummaryMembers(passed, failed, Since(endTick, suiteStart));
    var events := if t.tree.SuiteOpen? then t.tree.levels[0].items else t.tree.head[|head|].1.items;
    assert r.doc.members == head + [("events", Arr(events))] + [("tests", Arr(tests))] + last;
    assert r.doc.members == head + ([("events", Arr(events)), ("tests", Arr(tests))] + last);
    SuiteMeans(r.doc, name, urlBase, events, tests, passed, failed, suiteStart, endTick);
  }

  /** What an event, a dump or a scope left in the document. */
  ghost predicate EntryFound(call: Call, suiteStart: U32, d: Value) {
    match call
    case CallEvent(level, place, fields, formatted, tick) =>
      exists v :: Within(v, d) && MeansEvent(v, level, place, fields, formatted, suiteStart, tick)
    case CallHexDump(place, title, data, tick) =>
      exists v :: Within(v, d) && MeansDump(v, place, title, data, suiteStart, tick)
    case CallBeginScope(place, name, tick) =>
      exists v, items :: Within(v, d) && MeansScope(v, place, name, suiteStart, tick, items)
    case _ => true
  }

  /** A value that a call adds while an events array is open is in the document in the end. */
  lemma {:induction false} ItemArrives(v: Value, t: Track, calls: seq<Call>, i: nat, suiteStart: U32)
    requires i < |calls| && Live(t.tree) && Whole(RecordAll(t, calls, suiteStart).tree)
    requires HasLevels(RecordAll(t, calls[..i], suiteStart).tree)
    requires Record(RecordAll(t, calls[..i], suiteStart), calls[i], suiteStart).tree
          == Item(RecordAll(t, calls[..i], suiteStart).tree, v)
    ensures InTree(v, RecordAll(t, calls, suiteStart).tree)
  {
    var before := RecordAll(t, calls[..i], suiteStart);
    ItselfWithin(v);
    ItemKeeps(v, before.tree, v);
    RecordStep(t, calls, i, suiteStart);
    RecordSplit(t, calls, i + 1, |calls|, suiteStart);
    assert calls[..|calls|] == calls;
    LiveStaysAll(t, calls[..i + 1], suiteStart);
    EntryStaysAll(v, RecordAll(t, calls[..i + 1], suiteStart), calls[i + 1..], suiteStart);
  }

  lemma {:induction false} ScopeArrives(head: seq<Member>, t: Track, calls: seq<Call>, i: nat, suiteStart: U32)
    requires i < |calls| && Live(t.tree) && Whole(RecordAll(t, calls, suiteStart).tree)
    requires HasLevels(RecordAll(t, calls[..i], suiteStart).tree)
    requires Record(RecordAll(t, calls[..i], suiteStart), calls[i], suiteStart).tree
          == Deeper(RecordAll(t, calls[..i], suiteStart).tree, head)
    ensures HasScope(head, RecordAll(t, calls, suiteStart).tree)
  {
    ScopeOpens(head, RecordAll(t, calls[..i], suiteStart).tree);
    RecordStep(t, calls, i, suiteStart);
    RecordSplit(t, calls, i + 1, |calls|, suiteStart);
    assert calls[..|calls|] == calls;
    LiveStaysAll(t, calls[..i + 1], suiteStart);
    ScopeStaysAll(head, RecordAll(t, calls[..i + 1], suiteStart), calls[i + 1..], suiteStart);
  }

  lemma {:induction false} EntryIsFound(t: Track, calls: seq<Call>, i: nat, passed: U32, failed: U32, testTick: U32,
      suiteStart: U32, ms: U32)
    requires i < |calls| && t.tree.SuiteOpen? && StageOf(calls[..i]) != Tests
    requires var u := RecordAll(t, calls, suiteStart).tree; Whole(u) && (u.SuiteOpen? ==> |u.levels| == 1)
    ensures var r := Ended(RecordAll(t, calls, suiteStart), passed, failed, testTick, ms);
            r.Finished? && EntryFound(calls[i], suiteStart, r.doc)
  {
    var u := RecordAll(t, calls, suiteStart);
    var d := Ended(u, passed, failed, testTick, ms).doc;
    StageIs(t, calls[..i], suiteStart);
    match calls[i] {
      case CallEvent(level, place, fields, formatted, tick) =>
        var v := EventJson(level, Message(formatted), place, Since(tick, suiteStart), fields);
        ItemArrives(v, t, calls, i, suiteStart);
        EntryStaysToTheEnd(v, u, passed, failed, testTick, ms);
        EventMeans(level, place, fields, formatted, suiteStart, tick);
      case CallHexDump(place, title, data, tick) =>
        var v := DumpJson(title, data, place, Since(tick, suiteStart));
        ItemArrives(v, t, calls, i, suiteStart);
        EntryStaysToTheEnd(v, u, passed, failed, testTick, ms);
        DumpMeans(place, title, data, suiteStart, tick);
      case CallBeginScope(place, name, tick) =>
        var head := ScopeHead(name, place, Since(tick, suiteStart));
        ScopeArrives(head, t, calls, i, suiteStart);
        ScopeStaysToTheEnd(head, u, passed, failed, testTick, ms);
        var items :| Within(ScopeValue(head, items), d);
        ScopeMeans(place, name, suiteStart, tick, items);
      case _ =>
    }
  }

  /**
    Everything that was logged, read from the document by name: the suite with its summary and its duration, one
    entry a test in the order they were begun, and every event, dump and scope.
   */
  ghost predicate RunFound(d: Value, name: ByteStr, urlBase: Option<ByteStr>, calls: seq<Call>, passed: U32,
                           failed: U32, suiteStart: U32, testTick: U32, endTick: U32)
  {
    && (exists events, tests ::
          && MeansSuite(d, name, urlBase, events, tests, passed, failed, suiteStart, endTick)
          && |tests| == TestsBegun(calls)
          && forall i: nat, j: nat ::
               EndsAt(calls, i, j) && calls[i].CallBeginTest? && StageOf(calls[..i]) != InTest ==>
               TestFound(calls, i, j, suiteStart, testTick, tests))
    && forall i :: 0 <= i < |calls| && StageOf(calls[..i]) != Tests ==> EntryFound(calls[i], suiteStart, d)
  }

  /** What BeginSuite, the calls and EndSuite record. */
  function SuiteRecord(name: ByteStr, urlBase: Option<ByteStr>, tick: U32, testStart: U32, calls: seq<Call>,
                       passed: U32, failed: U32, testTick: U32, endTick: U32): Recording
  {
    Ended(RecordAll(Track(SuiteOpen([Open(SuiteHead(name, urlBase), [])]), testStart), calls, tick),
          passed, failed, testTick, Since(endTick, tick))
  }

  lemma {:induction false} EverythingIsFound(t: Track, calls: seq<Call>, name: ByteStr, urlBase: Option<ByteStr>,
      passed: U32, failed: U32, suiteStart: U32, testTick: U32, endTick: U32)
    requires t.tree == SuiteOpen([Open(SuiteHead(name, urlBase), [])]) && LeftOpen(calls, 0) == 0
    ensures var r := Ended(RecordAll(t, calls, suiteStart), passed, failed, testTick, Since(endTick, suiteStart));
            r.Finished? && RunFound(r.doc, name, urlBase, calls, passed, failed, suiteStart, testTick, endTick)
  {
    var u := RecordAll(t, calls, suiteStart);
    LeftOpenIsBelow(t, calls, suiteStart);
    SuiteStaysAll(SuiteHead(name, urlBase), t, calls, suiteStart);
    SuiteIsFound(u, name, urlBase, passed, failed, testTick, suiteStart, endTick);
    FinalTestsCounted(t, calls, suiteStart, testTick);
    forall i: nat, j: nat | EndsAt(calls, i, j) && calls[i].CallBeginTest? && StageOf(calls[..i]) != InTest
      ensures TestFound(calls, i, j, suiteStart, testTick, FinalTests(u, testTick))
    {
      TestIsFound(t, calls, i, j, suiteStart, testTick);
    }
    forall i | 0 <= i < |calls| && StageOf(calls[..i]) != Tests
      ensures EntryFound(calls[i], suiteStart,
                         Ended(u, passed, failed, testTick, Since(endTick, suiteStart)).doc)
    {
      EntryIsFound(t, calls, i, passed, failed, testTick, suiteStart, Since(endTick, suiteStart));
    }
  }

  method WriteSuite(log: Log, name: ByteStr, tick: U32, calls: seq<Call>, passed: U32, failed: U32, testTick: U32,
      endTick: U32)
    requires log.initialized
    modifies log
    ensures log.Valid() && log.earlier == old(log.file) && log.tree.Finished? && Parse(log.doc) == Image(log.tree)
    ensures log.tree == SuiteRecord(name, log.urlBase, tick, old(log.testStartMs), calls, passed, failed,
                                    testTick, endTick)
  {
    ghost var testStart := log.testStartMs;
    log.BeginSuite(name, tick);
    ghost var t := Track(log.tree, testStart);
    assert log.testStartMs == testStart;
    ghost var written := PerformAll(log, calls);
    LeftOpenIsBelow(t, calls, tick);
    FinishRun(log, passed, failed, testTick, endTick);
  }

  /**
    A whole run.  The text written parses, by RFC 8259, exactly when the scopes of the suite were
    closed before the suite was left; it then denotes the recorded tree.
   */
  method RunSuite(log: Log, name: ByteStr, tick: U32, calls: seq<Call>, passed: U32, failed: U32, testTick: U32,
      endTick: U32)
    returns (ghost r: Recording)
    requires log.initialized
    modifies log
    ensures log.Valid() && log.file == old(log.file) + log.doc
    ensures r == SuiteRecord(name, log.urlBase, tick, old(log.testStartMs), calls, passed, failed, testTick, endTick)
    ensures r.Finished?
    ensures Parse(log.doc).mode.Done? <==> LeftOpen(calls, 0) == 0
    ensures LeftOpen(calls, 0) == 0 ==> Parse(log.doc) == Parser(Done(r.doc), [])
    ensures Parse(log.doc).mode.Done? ==>
      RunFound(Parse(log.doc).mode.v, name, log.urlBase, calls, passed, failed, tick, testTick, endTick)
  {
    ghost var t := Track(SuiteOpen([Open(SuiteHead(name, log.urlBase), [])]), log.testStartMs);
    WriteSuite(log, name, tick, calls, passed, failed, testTick, endTick);
    CompleteIffClosed(t, calls, tick, passed, failed, testTick, Since(endTick, tick));
    if LeftOpen(calls, 0) == 0 {
      EverythingIsFound(t, calls, name, log.urlBase, passed, failed, tick, testTick, endTick);
    }
    r := log.tree;
  }

  method FinishRun(log: Log, passed: U32, failed: U32, testTick: U32, endTick: U32)
    requires log.Valid() && (HasLevels(log.tree) || log.tree.TestsOpen?)
    modifies log`file, log`doc, log`phase, log`arrayHasItem, log`tree
    ensures log.Valid() && log.tree.Finished? && Parse(log.doc) == Image(log.tree)
    ensures log.tree == Ended(Track(old(log.tree), log.testStartMs), passed, failed, testTick,
                              Since(endTick, log.suiteStartMs))
  {
    CanFinish(log.Now(), passed, failed, testTick, log.testStartMs, Since(endTick, log.suiteStartMs));
    ghost var written := log.EndSuite(passed, failed, testTick, endTick);
    ParseOfFinished(log.Now());
  }

  lemma {:induction false} CanFinish(c: Core, passed: U32, failed: U32, testTick: U32, testStart: U32, ms: U32)
    requires HasLevels(c.tree) || c.tree.TestsOpen?
    ensures Ended(Track(c.tree, testStart), passed, failed, testTick, ms).Finished?
  {
  }

  lemma {:induction false} ParseOfFinished(c: Core)
    requires c.tree.Finished? && Consistent(c)
    ensures Parse(c.doc) == Image(c.tree)
  {
    ConsistentIff(c);
    LeadsIsFeed(START, c.doc, Image(c.tree));
  }
}
